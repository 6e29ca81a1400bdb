/**
 * Server-sent event streaming: the incremental SSE parser, the processor
 * that turns parsed events into a connection state and publishes them, and
 * the real-time output buffer.
 *
 * The parser follows the event-stream format of the HTML Living Standard
 * (section 9.2.6, "Interpreting an event stream") with the source's own
 * deviations: all leading whitespace of a value is trimmed, a later "data"
 * line replaces the earlier one instead of being appended to it, and a
 * field is applied to a pending event that is created on the first field
 * line. JSON decoding is a parameter, and `now` stands for the clock.
 */
module Streaming {
  import opened Wrappers
  import opened Text
  import JsonValue

  datatype SseEventType =
    | MessageStart
    | ContentBlockStart
    | ContentBlockDelta
    | ContentBlockStop
    | MessageDelta
    | MessageStop
    | Error
    | Ping
    | Custom(name: string)

  /**
   * An event; `timestamp` is the clock reading when its first field line
   * arrived. The text of the last "data" line is kept; `Data` gives the
   * JSON value the source stores for it.
   */
  datatype SseEvent = SseEvent(
    eventType: SseEventType,
    dataText: Option<string>,
    id: Option<string>,
    retry: Option<nat>,
    timestamp: nat)

  datatype StreamStats = StreamStats(
    eventsReceived: nat,
    bytesReceived: nat,
    connectionTime: Option<nat>,
    firstEventTime: Option<nat>,
    lastEventTime: Option<nat>,
    errorCount: nat,
    reconnectCount: nat)

  function DefaultStats(): StreamStats {
    StreamStats(0, 0, None, None, None, 0, 0)
  }

  /** `u64` values lie below this bound: a "retry" value must parse as one. */
  const U64: nat := 0x1_0000_0000_0000_0000

  /** A JSON decoder: the value a text denotes, or `None` when it is not JSON. */
  type Decoder = string -> Option<JsonValue.Value>

  /** The event's data: null without a data line, else the decoded text, or the text itself when it is not JSON. */
  function Data(e: SseEvent, decode: Decoder): (v: JsonValue.Value)
    ensures e.dataText.None? ==> v == JsonValue.Null
    ensures e.dataText.Some? && decode(e.dataText.value).None? ==> v == JsonValue.Str(e.dataText.value)
  {
    match e.dataText
    case None => JsonValue.Null
    case Some(t) => match decode(t) case Some(v) => v case None => JsonValue.Str(t)
  }

  // ---------------------------------------------------------------------
  // Event names

  /** The wire name of an event type; a custom type carries its own name. */
  function EventTypeName(t: SseEventType): string {
    match t
    case MessageStart => "message_start"
    case ContentBlockStart => "content_block_start"
    case ContentBlockDelta => "content_block_delta"
    case ContentBlockStop => "content_block_stop"
    case MessageDelta => "message_delta"
    case MessageStop => "message_stop"
    case Error => "error"
    case Ping => "ping"
    case Custom(name) => name
  }

  predicate KnownEventName(s: string) {
    s in ["message_start", "content_block_start", "content_block_delta", "content_block_stop",
          "message_delta", "message_stop", "error", "ping"]
  }

  /** `parse_event_type`. */
  function ParseEventType(s: string): SseEventType {
    match s
    case "message_start" => MessageStart
    case "content_block_start" => ContentBlockStart
    case "content_block_delta" => ContentBlockDelta
    case "content_block_stop" => ContentBlockStop
    case "message_delta" => MessageDelta
    case "message_stop" => MessageStop
    case "error" => Error
    case "ping" => Ping
    case _ => Custom(s)
  }

  /** The eight known names map to their types; anything else is a custom type of that name. */
  lemma ParseEventTypeNames(s: string)
    ensures ParseEventType(s).Custom? <==> !KnownEventName(s)
    ensures EventTypeName(ParseEventType(s)) == s
  {
  }

  /** Naming a type and parsing the name gives the type back, unless a custom type borrows a known name. */
  lemma EventTypeRoundTrip(t: SseEventType)
    requires t.Custom? ==> !KnownEventName(t.name)
    ensures ParseEventType(EventTypeName(t)) == t
  {
  }

  // ---------------------------------------------------------------------
  // One line

  /**
   * The field and value of a non-comment line: split at the first ':',
   * leading whitespace trimmed from the value; a line without ':' is a
   * field with an empty value.
   */
  function SplitField(line: string): (string, string) {
    match Find(line, ':')
    case None => (line, "")
    case Some(k) => (line[..k], TrimStart(line[k + 1..]))
  }

  /**
   * The field is the text before the first ':' (the whole line when there
   * is none) and the value starts with no whitespace.
   */
  lemma SplitFieldParts(line: string)
    ensures var (field, value) := SplitField(line);
      && ':' !in field
      && (':' !in line ==> field == line && value == "")
      && (':' in line ==> |field| < |line| && line[..|field|] == field && line[|field|] == ':')
      && (value == [] || !IsWhitespace(value[0]))
  {
    match Find(line, ':')
    case None =>
    case Some(k) =>
      var field := line[..k];
      assert forall j :: 0 <= j < k ==> field[j] == line[j];
  }

  /** The event a first field line starts: a custom "unknown" event without data. */
  function NewPendingEvent(now: nat): SseEvent {
    SseEvent(Custom("unknown"), None, None, None, now)
  }

  /**
   * Apply one field to the pending event: "event" sets the type, "data"
   * the data text, "id" the id,
   * and "retry" a `u64` value when one parses; other fields are ignored.
   */
  function ApplyField(e: SseEvent, field: string, value: string): SseEvent {
    match field
    case "event" => e.(eventType := ParseEventType(value))
    case "data" => e.(dataText := Some(value))
    case "id" => e.(id := Some(value))
    case "retry" =>
      (match ParseUnsigned(value, U64)
       case Some(ms) => e.(retry := Some(ms))
       case None => e)
    case _ => e
  }

  /** A later "data" line replaces an earlier one. */
  lemma DataOverwrites(e: SseEvent, v1: string, v2: string)
    ensures ApplyField(ApplyField(e, "data", v1), "data", v2) == ApplyField(e, "data", v2)
  {
  }

  /** "retry" changes the event only for a value that parses as a `u64`, and then only its retry. */
  lemma RetryOnlyNumeric(e: SseEvent, v: string)
    ensures ParseUnsigned(v, U64).None? ==> ApplyField(e, "retry", v) == e
    ensures ParseUnsigned(v, U64).Some? ==>
      ApplyField(e, "retry", v) == e.(retry := Some(ParseUnsigned(v, U64).value))
  {
  }

  /** Unknown field names leave the event as it was. */
  lemma UnknownFieldIgnored(e: SseEvent, field: string, v: string)
    requires field != "event" && field != "data" && field != "id" && field != "retry"
    ensures ApplyField(e, field, v) == e
  {
  }

  /**
   * `parse_line` on the pending event: a comment (leading ':') changes
   * nothing; any other line applies its field, to a fresh pending event if
   * there was none.
   */
  function ParseLine(pending: Option<SseEvent>, line: string, now: nat): Option<SseEvent> {
    if StartsWith(line, ":") then pending
    else
      var (field, value) := SplitField(line);
      var e := if pending.Some? then pending.value else NewPendingEvent(now);
      Some(ApplyField(e, field, value))
  }

  /** A comment line changes nothing; any other line leaves an event pending. */
  lemma CommentIgnored(pending: Option<SseEvent>, line: string, now: nat)
    ensures StartsWith(line, ":") ==> ParseLine(pending, line, now) == pending
    ensures !StartsWith(line, ":") ==> ParseLine(pending, line, now).Some?
  {
  }

  /** The parser's progress through a run of lines: the pending event, the counters and the events emitted. */
  datatype Scan = Scan(current: Option<SseEvent>, stats: StreamStats, events: seq<SseEvent>)

  /**
   * One complete line, '\r' already stripped: a blank line emits the
   * pending event (if any), counting it and stamping the event times; any
   * other line is parsed into the pending event.
   */
  function ConsumeLine(sc: Scan, line: string, now: nat): Scan {
    if line == [] then
      if sc.current.Some? then
        var st := sc.stats;
        var first := if st.firstEventTime.None? then Some(now) else st.firstEventTime;
        Scan(None, st.(eventsReceived := st.eventsReceived + 1, firstEventTime := first, lastEventTime := Some(now)),
             sc.events + [sc.current.value])
      else sc
    else sc.(current := ParseLine(sc.current, line, now))
  }

  /** A blank line emits exactly the pending event; with nothing pending it changes nothing. */
  lemma BlankLineEmits(sc: Scan, now: nat)
    ensures sc.current.None? ==> ConsumeLine(sc, "", now) == sc
    ensures sc.current.Some? ==>
      var r := ConsumeLine(sc, "", now);
      && r.events == sc.events + [sc.current.value]
      && r.current.None?
      && r.stats.eventsReceived == sc.stats.eventsReceived + 1
  {
  }

  /** Consume lines in order, each with trailing '\r's removed. */
  function ConsumeAll(sc: Scan, lines: seq<string>, now: nat): Scan
    decreases |lines|
  {
    if lines == [] then sc
    else ConsumeAll(ConsumeLine(sc, TrimEndChar(lines[0], '\r'), now), lines[1..], now)
  }

  /** Consuming two runs of lines is consuming their concatenation. */
  lemma {:induction false} ConsumeAllAppend(sc: Scan, a: seq<string>, b: seq<string>, now: nat)
    ensures ConsumeAll(sc, a + b, now) == ConsumeAll(ConsumeAll(sc, a, now), b, now)
    decreases |a|
  {
    if a == [] {
      assert a + b == b;
    } else {
      assert (a + b)[1..] == a[1..] + b;
      ConsumeAllAppend(ConsumeLine(sc, TrimEndChar(a[0], '\r'), now), a[1..], b, now);
    }
  }

  /** Events are only ever added, and the counter moves with them. */
  lemma {:induction false} ConsumeAllCounts(sc: Scan, lines: seq<string>, now: nat)
    ensures var r := ConsumeAll(sc, lines, now);
      && |sc.events| <= |r.events| && r.events[..|sc.events|] == sc.events
      && r.stats.eventsReceived - sc.stats.eventsReceived == |r.events| - |sc.events|
      && r.stats.bytesReceived == sc.stats.bytesReceived
    decreases |lines|
  {
    if lines != [] {
      var next := ConsumeLine(sc, TrimEndChar(lines[0], '\r'), now);
      ConsumeAllCounts(next, lines[1..], now);
      var r := ConsumeAll(next, lines[1..], now);
      assert r.events[..|sc.events|] == r.events[..|next.events|][..|sc.events|];
    }
  }

  // ---------------------------------------------------------------------
  // The buffer

  /** The '\n'-terminated lines at the front of a buffer, without their '\n'. */
  function CompleteLines(s: string): seq<string>
    decreases |s|
  {
    match Find(s, '\n')
    case None => []
    case Some(k) => [s[..k]] + CompleteLines(s[k + 1..])
  }

  /** What stays buffered: the text after the last '\n'. */
  function Tail(s: string): (r: string)
    ensures '\n' !in r
    decreases |s|
  {
    match Find(s, '\n')
    case None => s
    case Some(k) => Tail(s[k + 1..])
  }

  /** The lines, each followed by '\n'. */
  function Terminated(lines: seq<string>): string {
    if lines == [] then "" else lines[0] + "\n" + Terminated(lines[1..])
  }

  /** A buffer is its complete lines followed by its tail: nothing is lost or invented. */
  lemma {:induction false} LinesAndTail(s: string)
    ensures s == Terminated(CompleteLines(s)) + Tail(s)
    decreases |s|
  {
    match Find(s, '\n')
    case None =>
    case Some(k) =>
      var rest := s[k + 1..];
      LinesAndTail(rest);
      var x := Terminated(CompleteLines(rest));
      var t := Tail(rest);
      LinesStep(s, k);
      CutAtNewline(s, k);
      Regroup(s[..k] + "\n", x, t);
  }

  /** One unfolding of the lines and the tail at the first '\n'. */
  lemma CompleteLinesStep(s: string, k: nat)
    requires Find(s, '\n') == Some(k)
    ensures CompleteLines(s) == [s[..k]] + CompleteLines(s[k + 1..])
    ensures Tail(s) == Tail(s[k + 1..])
  {
  }

  lemma LinesStep(s: string, k: nat)
    requires Find(s, '\n') == Some(k)
    ensures Terminated(CompleteLines(s)) == s[..k] + "\n" + Terminated(CompleteLines(s[k + 1..]))
    ensures Tail(s) == Tail(s[k + 1..])
  {
    var lines := CompleteLines(s[k + 1..]);
    CompleteLinesStep(s, k);
    assert ([s[..k]] + lines)[1..] == lines;
  }

  /** Consuming the complete lines of a buffer starts with its first line. */
  lemma ConsumeStep(sc: Scan, s: string, k: nat, now: nat)
    requires Find(s, '\n') == Some(k)
    ensures ConsumeAll(sc, CompleteLines(s), now)
      == ConsumeAll(ConsumeLine(sc, TrimEndChar(s[..k], '\r'), now), CompleteLines(s[k + 1..]), now)
  {
    var lines := CompleteLines(s[k + 1..]);
    CompleteLinesStep(s, k);
    assert ([s[..k]] + lines)[1..] == lines;
  }

  lemma Regroup(a: string, b: string, c: string)
    ensures a + (b + c) == a + b + c
  {
  }

  lemma CutAtNewline(s: string, k: nat)
    requires k < |s| && s[k] == '\n'
    ensures s == s[..k] + "\n" + s[k + 1..]
  {
  }

  /** Without a '\n', nothing is consumed and everything stays buffered. */
  lemma NoNewlineStaysBuffered(s: string)
    requires '\n' !in s
    ensures CompleteLines(s) == [] && Tail(s) == s
  {
  }

  /** Splitting a text in two: the first part's lines, then the lines of its tail joined to the rest. */
  lemma {:induction false} SplitBuffer(x: string, y: string)
    ensures CompleteLines(x + y) == CompleteLines(x) + CompleteLines(Tail(x) + y)
    ensures Tail(x + y) == Tail(Tail(x) + y)
    decreases |x|
  {
    match Find(x, '\n')
    case None =>
      assert CompleteLines(x) == [];
    case Some(k) =>
      var a := x[..k];
      var r := x[k + 1..];
      FindPrefix(x, y, k);
      CompleteLinesStep(x, k);
      CompleteLinesStep(x + y, k);
      SliceAppend(x, y, k);
      SplitBuffer(r, y);
      AppendAssoc([a], CompleteLines(r), CompleteLines(Tail(r) + y));
  }

  lemma SliceAppend(x: string, y: string, k: nat)
    requires k < |x|
    ensures (x + y)[..k] == x[..k] && (x + y)[k + 1..] == x[k + 1..] + y
  {
  }

  lemma FindPrefix(x: string, y: string, k: nat)
    requires Find(x, '\n') == Some(k)
    ensures Find(x + y, '\n') == Some(k)
  {
    FindAfterFree(x[..k], '\n', x[k..] + y);
    assert x[..k] + (x[k..] + y) == x + y;
  }

  // ---------------------------------------------------------------------
  // A whole chunk

  /** The parser's state: the unconsumed text, the pending event, the counters. */
  datatype ParserState = ParserState(buffer: string, current: Option<SseEvent>, stats: StreamStats)

  function InitialParser(): ParserState {
    ParserState([], None, DefaultStats())
  }

  /**
   * `parse_chunk`: append the chunk, count its UTF-8 bytes, consume every
   * complete line and keep the tail buffered.
   */
  function ChunkStep(s: ParserState, chunk: string, now: nat): (ParserState, seq<SseEvent>) {
    var full := s.buffer + chunk;
    var sc := ConsumeAll(ChunkStart(s, chunk), CompleteLines(full), now);
    (ParserState(Tail(full), sc.current, sc.stats), sc.events)
  }

  /** The scan a chunk starts from: the pending event, and the counters with the chunk's bytes added. */
  function ChunkStart(s: ParserState, chunk: string): Scan {
    Scan(s.current, s.stats.(bytesReceived := s.stats.bytesReceived + Utf8Len(chunk)), [])
  }

  /**
   * What a chunk does to the counters and the buffer: exactly its bytes are
   * counted, one event per emitted event, and the buffer keeps the text after
   * the last '\n', which holds no '\n'.
   */
  lemma ChunkStepCounts(s: ParserState, chunk: string, now: nat)
    ensures ChunkStep(s, chunk, now).0.stats.bytesReceived == s.stats.bytesReceived + Utf8Len(chunk)
    ensures ChunkStep(s, chunk, now).0.stats.eventsReceived == s.stats.eventsReceived + |ChunkStep(s, chunk, now).1|
    ensures '\n' !in ChunkStep(s, chunk, now).0.buffer
    ensures EndsWith(s.buffer + chunk, ChunkStep(s, chunk, now).0.buffer)
  {
    ConsumeAllCounts(ChunkStart(s, chunk), CompleteLines(s.buffer + chunk), now);
    TailIsSuffix(s.buffer + chunk);
  }

  lemma TailIsSuffix(s: string)
    ensures EndsWith(s, Tail(s))
  {
    LinesAndTail(s);
    EndsWithAppend(Terminated(CompleteLines(s)), Tail(s));
  }

  lemma EndsWithAppend(p: string, t: string)
    ensures EndsWith(p + t, t)
  {
    assert (p + t)[|p|..] == t;
  }

  /** A chunk without '\n' is only buffered: no event, nothing pending changes. */
  lemma PartialChunkBuffered(s: ParserState, chunk: string, now: nat)
    requires '\n' !in s.buffer && '\n' !in chunk
    ensures ChunkStep(s, chunk, now).1 == []
    ensures ChunkStep(s, chunk, now).0.buffer == s.buffer + chunk
    ensures ChunkStep(s, chunk, now).0.current == s.current
  {
    NoNewlineStaysBuffered(s.buffer + chunk);
  }

  /** `SseParser`. */
  class SseParser {
    var buffer: string
    var current: Option<SseEvent>
    var stats: StreamStats

    function State(): ParserState
      reads this
    {
      ParserState(buffer, current, stats)
    }

    constructor ()
      ensures State() == InitialParser()
    {
      buffer := [];
      current := None;
      stats := DefaultStats();
    }

    /** `parse_line`, on the pending event. */
    method ParseLineInto(line: string, now: nat)
      modifies this`current
      ensures current == ParseLine(old(current), line, now)
    {
      if StartsWith(line, ":") {
        return;
      }
      var (field, value) := SplitField(line);
      if current.None? {
        current := Some(NewPendingEvent(now));
      }
      current := Some(ApplyField(current.value, field, value));
    }

    /** `parse_chunk`: never fails; the events are returned in the order they completed. */
    method ParseChunk(chunk: string, now: nat) returns (events: seq<SseEvent>)
      modifies this`buffer, this`current, this`stats
      ensures (State(), events) == ChunkStep(old(State()), chunk, now)
    {
      ghost var full := buffer + chunk;
      buffer := buffer + chunk;
      stats := stats.(bytesReceived := stats.bytesReceived + Utf8Len(chunk));
      events := [];
      ghost var start := ChunkStart(old(State()), chunk);
      while Find(buffer, '\n').Some?
        invariant ConsumeAll(Scan(current, stats, events), CompleteLines(buffer), now)
          == ConsumeAll(start, CompleteLines(full), now)
        invariant Tail(buffer) == Tail(full)
        decreases |buffer|
      {
        var lineEnd := Find(buffer, '\n').value;
        var line := TrimEndChar(buffer[..lineEnd], '\r');
        ghost var before := Scan(current, stats, events);
        ghost var held := buffer;
        buffer := buffer[lineEnd + 1..];
        events := ConsumeLineInto(events, line, now);
        ConsumeStep(before, held, lineEnd, now);
        CompleteLinesStep(held, lineEnd);
      }
      assert CompleteLines(buffer) == [];
    }

    /** One complete line of `parse_chunk`'s loop: a blank line ends the pending event, any other is parsed. */
    method ConsumeLineInto(events: seq<SseEvent>, line: string, now: nat) returns (events': seq<SseEvent>)
      modifies this`current, this`stats
      ensures Scan(current, stats, events') == ConsumeLine(Scan(old(current), old(stats), events), line, now)
    {
      events' := events;
      if line == [] {
        if current.Some? {
          events' := events' + [current.value];
          var first := if stats.firstEventTime.None? then Some(now) else stats.firstEventTime;
          stats := stats.(eventsReceived := stats.eventsReceived + 1, firstEventTime := first, lastEventTime := Some(now));
          current := None;
        }
      } else {
        ParseLineInto(line, now);
      }
    }

    method GetStats() returns (s: StreamStats)
      ensures s == stats
    {
      s := stats;
    }

    /** `reset`: empty buffer, nothing pending, zeroed counters. */
    method Reset()
      modifies this`buffer, this`current, this`stats
      ensures State() == InitialParser()
    {
      buffer := [];
      current := None;
      stats := DefaultStats();
    }
  }

  // ---------------------------------------------------------------------
  // Stream processor

  /** The connection state; `Failed` is the source's `Error(message)`. */
  datatype StreamState = Connecting | Connected | Streaming | Completed | Failed(message: string) | Disconnected

  /** The message an Error event puts into the state: its data when that is a JSON string, else "Unknown error". */
  function ErrorMessage(e: SseEvent, decode: Decoder): string {
    match Data(e, decode)
    case Str(m) => m
    case _ => "Unknown error"
  }

  /**
   * What the processor shows the world: its state, its error counter, the
   * events it has broadcast and the states it has announced on its state
   * channel, oldest first.
   */
  datatype ProcState = ProcState(state: StreamState, errorCount: nat, published: seq<SseEvent>, announced: seq<StreamState>)

  /** `set_state`: a different state is taken and announced; the current one changes nothing. */
  function SetStateStep(p: ProcState, s: StreamState): ProcState {
    if p.state == s then p else p.(state := s, announced := p.announced + [s])
  }

  /** Before a chunk is parsed, a disconnected stream connects and a connected one starts streaming. */
  function EnterStreaming(p: ProcState): ProcState {
    var p1 := if p.state == Disconnected then SetStateStep(p, Connected) else p;
    if p1.state == Connected then SetStateStep(p1, Streaming) else p1
  }

  /** One parsed event: it is broadcast; an Error event is counted and fails the stream; MessageStop completes it. */
  function EventStep(p: ProcState, e: SseEvent, decode: Decoder): ProcState {
    var q := p.(published := p.published + [e]);
    match e.eventType
    case Error => SetStateStep(q.(errorCount := q.errorCount + 1), Failed(ErrorMessage(e, decode)))
    case MessageStop => SetStateStep(q, Completed)
    case _ => q
  }

  function EventsStep(p: ProcState, events: seq<SseEvent>, decode: Decoder): ProcState
    decreases |events|
  {
    if events == [] then p else EventsStep(EventStep(p, events[0], decode), events[1..], decode)
  }

  /** `process_chunk` on the processor's state, given the events its parser emits for the chunk. */
  function ProcessStep(p: ProcState, events: seq<SseEvent>, decode: Decoder): ProcState {
    EventsStep(EnterStreaming(p), events, decode)
  }

  /** The number of Error events. */
  function CountErrors(events: seq<SseEvent>): nat {
    if events == [] then 0 else (if events[0].eventType.Error? then 1 else 0) + CountErrors(events[1..])
  }

  /** The state an event forces, if any. */
  function Signal(e: SseEvent, decode: Decoder): Option<StreamState> {
    match e.eventType
    case Error => Some(Failed(ErrorMessage(e, decode)))
    case MessageStop => Some(Completed)
    case _ => None
  }

  /** The state forced by the last Error or MessageStop event, if there is one. */
  function LastSignal(events: seq<SseEvent>, decode: Decoder): Option<StreamState> {
    if events == [] then None
    else
      var later := LastSignal(events[1..], decode);
      if later.Some? then later else Signal(events[0], decode)
  }

  /**
   * Processing events broadcasts all of them in order, counts exactly the
   * Error events, and leaves the state forced by the last Error or
   * MessageStop event, or the state it started in when there is none.
   */
  lemma {:induction false} EventsStepEffect(p: ProcState, events: seq<SseEvent>, decode: Decoder)
    decreases |events|
    ensures EventsStep(p, events, decode).published == p.published + events
    ensures EventsStep(p, events, decode).errorCount == p.errorCount + CountErrors(events)
    ensures EventsStep(p, events, decode).state ==
      if LastSignal(events, decode).Some? then LastSignal(events, decode).value else p.state
  {
    if events != [] {
      var q := EventStep(p, events[0], decode);
      EventsStepEffect(q, events[1..], decode);
      assert p.published + [events[0]] + events[1..] == p.published + events;
    }
  }

  /** The state channel never announces the same state twice in a row, and its last announcement is the current state. */
  ghost predicate Announces(p: ProcState) {
    && (forall i :: 0 <= i < |p.announced| - 1 ==> p.announced[i] != p.announced[i + 1])
    && (p.announced != [] ==> p.announced[|p.announced| - 1] == p.state)
  }

  lemma SetStateAnnounces(p: ProcState, s: StreamState)
    requires Announces(p)
    ensures Announces(SetStateStep(p, s))
  {
  }

  lemma {:induction false} EventsStepAnnounces(p: ProcState, events: seq<SseEvent>, decode: Decoder)
    requires Announces(p)
    ensures Announces(EventsStep(p, events, decode))
    decreases |events|
  {
    if events != [] {
      var q := EventStep(p, events[0], decode);
      SetStateAnnounces(p.(published := p.published + [events[0]]), Completed);
      SetStateAnnounces(p.(published := p.published + [events[0]], errorCount := p.errorCount + 1),
        Failed(ErrorMessage(events[0], decode)));
      EventsStepAnnounces(q, events[1..], decode);
    }
  }

  /** A whole `process_chunk` keeps the state channel free of repeats. */
  lemma ProcessStepAnnounces(p: ProcState, events: seq<SseEvent>, decode: Decoder)
    requires Announces(p)
    ensures Announces(ProcessStep(p, events, decode))
  {
    var p1 := if p.state == Disconnected then SetStateStep(p, Connected) else p;
    SetStateAnnounces(p, Connected);
    SetStateAnnounces(p1, Streaming);
    EventsStepAnnounces(EnterStreaming(p), events, decode);
  }

  /**
   * A chunk that brings no Error or MessageStop event leaves a fresh
   * stream streaming, and never reopens a completed or failed one.
   */
  lemma ProcessStepWithoutSignal(p: ProcState, events: seq<SseEvent>, decode: Decoder)
    requires LastSignal(events, decode).None?
    ensures p.state in {Disconnected, Connected, Streaming} ==> ProcessStep(p, events, decode).state == Streaming
    ensures p.state == Completed || p.state.Failed? ==> ProcessStep(p, events, decode).state == p.state
  {
    EventsStepEffect(EnterStreaming(p), events, decode);
  }

  class StreamProcessor {
    var state: StreamState
    const parser: SseParser
    /** The processor's own counters; `GetStats` merges in the parser's. */
    var stats: StreamStats
    /** Every event broadcast on the event channel, oldest first. */
    var published: seq<SseEvent>
    /** Every state sent on the state channel, oldest first. */
    var announced: seq<StreamState>
    /** The JSON decoder applied to event data. */
    const decode: Decoder

    function Snapshot(): ProcState
      reads this
    {
      ProcState(state, stats.errorCount, published, announced)
    }

    ghost predicate Valid()
      reads this
    {
      Announces(Snapshot())
    }

    /** `new`: disconnected, a fresh parser, zeroed counters, nothing sent yet. */
    constructor(decode: Decoder)
      ensures fresh(parser) && parser.State() == InitialParser()
      ensures state == Disconnected && stats == DefaultStats() && published == [] && announced == []
      ensures this.decode == decode
      ensures Valid()
    {
      state := Disconnected;
      parser := new SseParser();
      stats := DefaultStats();
      published := [];
      announced := [];
      this.decode := decode;
    }

    method SetState(s: StreamState)
      modifies this`state, this`announced
      ensures Snapshot() == SetStateStep(old(Snapshot()), s)
    {
      if state != s {
        state := s;
        announced := announced + [s];
      }
    }

    /**
     * `process_chunk`: connect, parse the chunk, then broadcast each event
     * and apply what it signals, in order.
     */
    method ProcessChunk(chunk: string, now: nat)
      requires Valid()
      modifies this`state, this`stats, this`published, this`announced, parser`buffer, parser`current, parser`stats
      ensures parser.State() == ChunkStep(old(parser.State()), chunk, now).0
      ensures Snapshot() == ProcessStep(old(Snapshot()), ChunkStep(old(parser.State()), chunk, now).1, decode)
      ensures stats == old(stats).(errorCount := stats.errorCount)
      ensures Valid()
    {
      ghost var start := Snapshot();
      if state == Disconnected {
        SetState(Connected);
      }
      if state == Connected {
        SetState(Streaming);
      }
      ghost var entered := Snapshot();
      assert entered == EnterStreaming(start);
      var events := parser.ParseChunk(chunk, now);
      var i := 0;
      while i < |events|
        invariant i <= |events|
        invariant EventsStep(Snapshot(), events[i..], decode) == EventsStep(entered, events, decode)
        invariant stats == old(stats).(errorCount := stats.errorCount)
        invariant parser.State() == ChunkStep(old(parser.State()), chunk, now).0
      {
        HandleEvent(events[i]);
        assert events[i..][1..] == events[i + 1..];
        i := i + 1;
      }
      ProcessStepAnnounces(start, events, decode);
    }

    /** The loop body of `process_chunk` for one event. */
    method HandleEvent(e: SseEvent)
      modifies this`state, this`stats, this`published, this`announced
      ensures Snapshot() == EventStep(old(Snapshot()), e, decode)
      ensures stats == old(stats).(errorCount := stats.errorCount)
    {
      published := published + [e];
      match e.eventType {
        case Error =>
          stats := stats.(errorCount := stats.errorCount + 1);
          SetState(Failed(ErrorMessage(e, decode)));
        case MessageStop =>
          SetState(Completed);
        case _ =>
      }
    }

    method GetState() returns (s: StreamState)
      ensures s == state
    {
      s := state;
    }

    /** `get_stats`: the processor's counters with the event and byte counts and event times taken from the parser. */
    method GetStats() returns (s: StreamStats)
      ensures s.errorCount == stats.errorCount && s.reconnectCount == stats.reconnectCount
      ensures s.connectionTime == stats.connectionTime
      ensures s.eventsReceived == parser.stats.eventsReceived && s.bytesReceived == parser.stats.bytesReceived
      ensures s.firstEventTime == parser.stats.firstEventTime && s.lastEventTime == parser.stats.lastEventTime
    {
      var ps := parser.GetStats();
      s := stats.(eventsReceived := ps.eventsReceived, bytesReceived := ps.bytesReceived,
                  firstEventTime := ps.firstEventTime, lastEventTime := ps.lastEventTime);
    }

    /** `reset`: a fresh parser state, zeroed counters, and the state set back to Disconnected. */
    method Reset()
      requires Valid()
      modifies this`state, this`stats, this`announced, parser`buffer, parser`current, parser`stats
      ensures parser.State() == InitialParser()
      ensures stats == DefaultStats()
      ensures Snapshot() == SetStateStep(old(Snapshot()).(errorCount := 0), Disconnected)
      ensures Valid()
    {
      parser.Reset();
      stats := DefaultStats();
      SetState(Disconnected);
    }
  }

  // ---------------------------------------------------------------------
  // Real-time output

  /** `Instant::elapsed`: the time since `since`, zero if the clock reads earlier. */
  function Elapsed(since: nat, now: nat): nat {
    if now >= since then now - since else 0
  }

  /** A buffer holding more than this many bytes is flushed. */
  const FlushBytes: nat := 100

  /** The flush condition of `should_flush` on a buffer, the last flush time, the current time and the interval. */
  predicate FlushDue(buffer: string, lastFlush: nat, now: nat, flushInterval: nat) {
    '\n' in buffer || Elapsed(lastFlush, now) >= flushInterval || Utf8Len(buffer) > FlushBytes
  }

  class RealTimeOutput {
    var buffer: string
    var enabled: bool
    /** Every string sent to the output channel, oldest first. */
    var sent: seq<string>
    /** Whether the receiving end has been handed out. */
    var receiverTaken: bool
    const flushInterval: nat
    var lastFlush: nat

    /** All text written so far: what was sent, then what is still buffered. */
    function Written(): string
      reads this
    {
      Concat(sent) + buffer
    }

    /** A disabled output buffers nothing, and nothing empty is ever sent. */
    ghost predicate Valid()
      reads this
    {
      && (!enabled ==> buffer == [])
      && forall i :: 0 <= i < |sent| ==> sent[i] != []
    }

    constructor(flushInterval: nat, now: nat)
      ensures buffer == [] && enabled && sent == [] && !receiverTaken
      ensures this.flushInterval == flushInterval && lastFlush == now
      ensures Valid()
    {
      buffer := [];
      enabled := true;
      sent := [];
      receiverTaken := false;
      this.flushInterval := flushInterval;
      lastFlush := now;
    }

    /** `should_flush`: a newline is buffered, the flush interval has passed, or the buffer is over 100 bytes. */
    predicate ShouldFlush(now: nat)
      reads this
    {
      FlushDue(buffer, lastFlush, now, flushInterval)
    }

    /** `flush`: a non-empty buffer is sent whole and cleared; an empty one changes nothing. */
    method Flush(now: nat)
      requires Valid()
      modifies this`buffer, this`sent, this`lastFlush
      ensures old(buffer) == [] ==> buffer == [] && sent == old(sent) && lastFlush == old(lastFlush)
      ensures old(buffer) != [] ==> buffer == [] && sent == old(sent) + [old(buffer)] && lastFlush == now
      ensures Written() == old(Written())
      ensures Valid()
    {
      if buffer != [] {
        ConcatSnoc(sent, buffer);
        sent := sent + [buffer];
        buffer := [];
        lastFlush := now;
      }
    }

    method ForceFlush(now: nat)
      requires Valid()
      modifies this`buffer, this`sent, this`lastFlush
      ensures buffer == [] && Written() == old(Written())
      ensures old(buffer) != [] ==> sent == old(sent) + [old(buffer)]
      ensures Valid()
    {
      Flush(now);
    }

    /**
     * `append`: ignored while disabled; otherwise the text is buffered and
     * the buffer flushed when it should be, so a newline never stays
     * buffered and no text is lost or reordered.
     */
    method Append(text: string, now: nat)
      requires Valid()
      modifies this`buffer, this`sent, this`lastFlush
      ensures !enabled ==> buffer == old(buffer) && sent == old(sent) && lastFlush == old(lastFlush)
      ensures enabled && FlushDue(old(buffer) + text, old(lastFlush), now, flushInterval) && old(buffer) + text != [] ==>
        buffer == [] && sent == old(sent) + [old(buffer) + text] && lastFlush == now
      ensures enabled && (!FlushDue(old(buffer) + text, old(lastFlush), now, flushInterval) || old(buffer) + text == []) ==>
        buffer == old(buffer) + text && sent == old(sent) && lastFlush == old(lastFlush)
      ensures enabled ==> Written() == old(Written()) + text
      ensures '\n' !in buffer
      ensures Valid()
    {
      if !enabled {
        return;
      }
      buffer := buffer + text;
      if ShouldFlush(now) {
        Flush(now);
      }
    }

    /** `take_receiver`: hands out the receiving end the first time only. */
    method TakeReceiver() returns (got: bool)
      modifies this`receiverTaken
      ensures got == !old(receiverTaken)
      ensures receiverTaken
    {
      got := !receiverTaken;
      receiverTaken := true;
    }

    /** `set_enabled`: disabling discards the buffered text. */
    method SetEnabled(on: bool)
      requires Valid()
      modifies this`enabled, this`buffer
      ensures enabled == on
      ensures on ==> buffer == old(buffer)
      ensures !on ==> buffer == []
      ensures Valid()
    {
      enabled := on;
      if !on {
        buffer := [];
      }
    }

    method IsEnabled() returns (on: bool)
      ensures on == enabled
    {
      on := enabled;
    }
  }

  // ---------------------------------------------------------------------
  // Streaming client: from processed events to the real-time output

  /** The text of a content delta: its data's `delta.text`, when that is a JSON string. */
  function DeltaText(e: SseEvent, decode: Decoder): Option<string> {
    match JsonValue.Get(Data(e, decode), "delta")
    case None => None
    case Some(d) =>
      match JsonValue.Get(d, "text")
      case Some(v) => if v.Str? then Some(v.s) else None
      case None => None
  }

  /** The line an Error event writes to the output. */
  function ErrorLine(e: SseEvent, decode: Decoder): string {
    "\n\U{274C} Error: " + ErrorMessage(e, decode) + "\n"
  }

  /** What one event writes to the output: a delta's text, or the error line; nothing otherwise. */
  function EventText(e: SseEvent, decode: Decoder): string {
    match e.eventType
    case ContentBlockDelta => (match DeltaText(e, decode) case Some(t) => t case None => "")
    case Error => ErrorLine(e, decode)
    case _ => ""
  }

  /** What a run of events writes to the output, in order. */
  function OutputText(events: seq<SseEvent>, decode: Decoder): string {
    if events == [] then "" else EventText(events[0], decode) + OutputText(events[1..], decode)
  }

  /**
   * A receiver subscribed to the event channel after `from` events were
   * broadcast gets exactly the later ones.
   */
  function Received(published: seq<SseEvent>, from: nat): seq<SseEvent>
    requires from <= |published|
  {
    published[from..]
  }

  class StreamingClient {
    const processor: StreamProcessor
    const output: RealTimeOutput

    ghost predicate Valid()
      reads this, processor, output
    {
      processor.Valid() && output.Valid()
    }

    constructor(decode: Decoder, now: nat)
      ensures fresh(processor) && fresh(processor.parser) && fresh(output)
      ensures processor.state == Disconnected && processor.published == [] && processor.decode == decode
      ensures processor.parser.State() == InitialParser()
      ensures output.enabled && output.Written() == [] && output.flushInterval == 100
      ensures Valid()
    {
      processor := new StreamProcessor(decode);
      output := new RealTimeOutput(100, now);
    }

    /**
     * The loop of `process_output_events` over the events its receiver
     * yields: a delta's text is appended, MessageStop forces a flush, an
     * Error writes its error line and forces a flush.
     */
    method DeliverEvents(events: seq<SseEvent>, now: nat)
      requires Valid()
      modifies output`buffer, output`sent, output`lastFlush
      ensures output.enabled ==> output.Written() == old(output.Written()) + OutputText(events, processor.decode)
      ensures !output.enabled ==> output.Written() == old(output.Written())
      ensures Valid()
    {
      var i := 0;
      ghost var on := output.enabled;
      ghost var w0 := output.Written();
      ghost var all := OutputText(events, processor.decode);
      while i < |events|
        invariant i <= |events|
        invariant output.Valid()
        invariant output.enabled == on
        invariant on ==> output.Written() + OutputText(events[i..], processor.decode) == w0 + all
        invariant !on ==> output.Written() == w0
      {
        ghost var w := output.Written();
        ghost var rest := OutputText(events[i + 1..], processor.decode);
        assert events[i..][1..] == events[i + 1..];
        assert OutputText(events[i..], processor.decode) == EventText(events[i], processor.decode) + rest;
        DeliverEvent(events[i], now);
        AppendAssoc(w, EventText(events[i], processor.decode), rest);
        i := i + 1;
      }
      assert OutputText(events[i..], processor.decode) == "";
      assert output.Written() + "" == output.Written();
    }

    /** One event of `process_output_events`. */
    method DeliverEvent(e: SseEvent, now: nat)
      requires output.Valid()
      modifies output`buffer, output`sent, output`lastFlush
      ensures output.enabled ==> output.Written() == old(output.Written()) + EventText(e, processor.decode)
      ensures !output.enabled ==> output.Written() == old(output.Written())
      ensures output.Valid()
    {
      match e.eventType {
        case ContentBlockDelta =>
          var t := DeltaText(e, processor.decode);
          if t.Some? {
            output.Append(t.value, now);
          }
        case MessageStop =>
          output.ForceFlush(now);
        case Error =>
          output.Append(ErrorLine(e, processor.decode), now);
          output.ForceFlush(now);
        case _ =>
      }
    }

    /**
     * One chunk of `start_stream` as written: the chunk is processed, and
     * only then does `process_output_events` subscribe to the event
     * channel, so its receiver gets none of the chunk's events and the
     * output never changes.
     */
    method ReceiveChunkAsWritten(chunk: string, now: nat)
      requires Valid()
      modifies processor`state, processor`stats, processor`published, processor`announced
      modifies processor.parser`buffer, processor.parser`current, processor.parser`stats
      modifies output`buffer, output`sent, output`lastFlush
      ensures processor.Snapshot() ==
        ProcessStep(old(processor.Snapshot()), ChunkStep(old(processor.parser.State()), chunk, now).1, processor.decode)
      ensures output.Written() == old(output.Written())
      ensures Valid()
    {
      processor.ProcessChunk(chunk, now);
      var from := |processor.published|;
      DeliverEvents(Received(processor.published, from), now);
    }

    /**
     * One chunk of `start_stream` with the receiver subscribed before the
     * chunk is processed: the output gets the text of every event the
     * chunk brings.
     */
    method ReceiveChunk(chunk: string, now: nat)
      requires Valid()
      modifies processor`state, processor`stats, processor`published, processor`announced
      modifies processor.parser`buffer, processor.parser`current, processor.parser`stats
      modifies output`buffer, output`sent, output`lastFlush
      ensures processor.Snapshot() ==
        ProcessStep(old(processor.Snapshot()), ChunkStep(old(processor.parser.State()), chunk, now).1, processor.decode)
      ensures output.enabled ==>
        output.Written() == old(output.Written()) + OutputText(ChunkStep(old(processor.parser.State()), chunk, now).1, processor.decode)
      ensures !output.enabled ==> output.Written() == old(output.Written())
      ensures Valid()
    {
      var from := |processor.published|;
      ghost var events := ChunkStep(processor.parser.State(), chunk, now).1;
      processor.ProcessChunk(chunk, now);
      EventsStepEffect(EnterStreaming(old(processor.Snapshot())), events, processor.decode);
      assert Received(processor.published, from) == events;
      DeliverEvents(Received(processor.published, from), now);
    }
  }

  /** A decoder that reads the text "x" as a content delta carrying "hi". */
  function DeltaDecoder(t: string): Option<JsonValue.Value> {
    if t == "x" then Some(JsonValue.Object([("delta", JsonValue.Object([("text", JsonValue.Str("hi"))]))])) else None
  }

  /** A content delta whose data decodes to `{"delta": {"text": "hi"}}` writes "hi". */
  lemma DeltaEventWritesText()
    ensures OutputText([SseEvent(ContentBlockDelta, Some("x"), None, None, 0)], DeltaDecoder) == "hi"
  {
    var e := SseEvent(ContentBlockDelta, Some("x"), None, None, 0);
    assert [e][..0] == [];
  }
}
