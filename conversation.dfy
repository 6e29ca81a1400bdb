/**
 * The conversation history manager: the active conversation, its messages
 * and token totals, compaction of long histories, and a bounded cache of
 * conversations.
 *
 * Clocks and identifiers are parameters: `now` is the current time as a
 * number, and message and conversation ids are supplied by the caller.
 * Writing a conversation to its file is a parameter too: `written` is
 * `None` when the write succeeded and `Some(reason)` when it failed.
 */
module Conversations {
  import opened Wrappers
  import opened Errors
  import opened Text
  import JsonValue

  /** Token counts; the estimated cost (a float) is not modelled. */
  datatype TokenUsage = TokenUsage(inputTokens: nat, outputTokens: nat, totalTokens: nat)

  const ZeroUsage := TokenUsage(0, 0, 0)

  datatype Message = Message(id: string, role: string, content: string, timestamp: nat, tokenUsage: Option<TokenUsage>)

  datatype Conversation = Conversation(
    id: string, title: string, createdAt: nat, updatedAt: nat, messages: seq<Message>,
    metadata: map<string, JsonValue.Value>, tags: seq<string>, archived: bool, totalTokenUsage: TokenUsage)

  /** Field-wise sum of two usages. */
  function AddUsage(a: TokenUsage, b: TokenUsage): (r: TokenUsage)
    ensures r.inputTokens == a.inputTokens + b.inputTokens
    ensures r.outputTokens == a.outputTokens + b.outputTokens
    ensures r.totalTokens == a.totalTokens + b.totalTokens
  {
    TokenUsage(a.inputTokens + b.inputTokens, a.outputTokens + b.outputTokens, a.totalTokens + b.totalTokens)
  }

  /** The usage of the messages that carry one, summed. */
  function SumUsage(msgs: seq<Message>): TokenUsage {
    if msgs == [] then ZeroUsage
    else
      var rest := SumUsage(msgs[..|msgs| - 1]);
      var last := msgs[|msgs| - 1];
      if last.tokenUsage.Some? then AddUsage(rest, last.tokenUsage.value) else rest
  }

  /** The running totals equal the usage of the messages held. */
  predicate UsageMatches(c: Conversation) {
    c.totalTokenUsage == SumUsage(c.messages)
  }

  // ----------------------------------------------------------- compaction

  /** A message compaction always keeps: a system message or one over 1000 bytes. */
  predicate Important(m: Message) {
    m.role == "system" || Utf8Len(m.content) > 1000
  }

  predicate UniqueIds(msgs: seq<Message>) {
    forall i, j :: 0 <= i < j < |msgs| ==> msgs[i].id != msgs[j].id
  }

  predicate SortedByTime(msgs: seq<Message>) {
    forall i, j :: 0 <= i < j < |msgs| ==> msgs[i].timestamp <= msgs[j].timestamp
  }

  /** Inserts before the first message that is not earlier, so equal times keep their order. */
  function InsertByTime(m: Message, msgs: seq<Message>): seq<Message>
    decreases |msgs|
  {
    if msgs == [] || m.timestamp <= msgs[0].timestamp then [m] + msgs
    else [msgs[0]] + InsertByTime(m, msgs[1..])
  }

  lemma {:induction false} InsertByTimeMultiset(m: Message, msgs: seq<Message>)
    ensures multiset(InsertByTime(m, msgs)) == multiset(msgs) + multiset{m}
    decreases |msgs|
  {
    if msgs != [] && m.timestamp > msgs[0].timestamp {
      InsertByTimeMultiset(m, msgs[1..]);
      assert msgs == [msgs[0]] + msgs[1..];
    }
  }

  lemma {:induction false} InsertByTimeSorted(m: Message, msgs: seq<Message>)
    requires SortedByTime(msgs)
    ensures SortedByTime(InsertByTime(m, msgs))
    decreases |msgs|
  {
    if msgs != [] && m.timestamp > msgs[0].timestamp {
      var rest := InsertByTime(m, msgs[1..]);
      InsertByTimeSorted(m, msgs[1..]);
      InsertByTimeMultiset(m, msgs[1..]);
      forall x | x in rest
        ensures msgs[0].timestamp <= x.timestamp
      {
        assert x in multiset(rest);
        if x != m {
          assert x in multiset(msgs[1..]);
        }
      }
    }
  }

  /** Inserting a message adds exactly its id. */
  lemma {:induction false} InsertByTimeIds(m: Message, msgs: seq<Message>)
    ensures forall id :: HasId(InsertByTime(m, msgs), id) <==> HasId(msgs, id) || id == m.id
    decreases |msgs|
  {
    var r := InsertByTime(m, msgs);
    if msgs == [] || m.timestamp <= msgs[0].timestamp {
      forall id
        ensures HasId(r, id) <==> HasId(msgs, id) || id == m.id
      {
        HasIdCons(m, msgs, id);
      }
    } else {
      var rest := InsertByTime(m, msgs[1..]);
      InsertByTimeIds(m, msgs[1..]);
      assert r == [msgs[0]] + rest;
      forall id
        ensures HasId(r, id) <==> HasId(msgs, id) || id == m.id
      {
        HasIdCons(msgs[0], rest, id);
        HasIdCons(msgs[0], msgs[1..], id);
        assert msgs == [msgs[0]] + msgs[1..];
      }
    }
  }

  /** Inserting a message whose id is new keeps ids unique. */
  lemma {:induction false} InsertByTimeUnique(m: Message, msgs: seq<Message>)
    requires UniqueIds(msgs) && !HasId(msgs, m.id)
    ensures UniqueIds(InsertByTime(m, msgs))
    decreases |msgs|
  {
    if msgs == [] || m.timestamp <= msgs[0].timestamp {
      UniqueCons(m, msgs);
    } else {
      var rest := InsertByTime(m, msgs[1..]);
      assert msgs == [msgs[0]] + msgs[1..];
      UniqueTail(msgs);
      HasIdCons(msgs[0], msgs[1..], m.id);
      InsertByTimeUnique(m, msgs[1..]);
      InsertByTimeIds(m, msgs[1..]);
      HasIdCons(msgs[0], msgs[1..], msgs[0].id);
      UniqueCons(msgs[0], rest);
    }
  }

  /** Dropping the first message keeps ids unique, and the first id does not recur. */
  lemma UniqueTail(msgs: seq<Message>)
    requires msgs != [] && UniqueIds(msgs)
    ensures UniqueIds(msgs[1..]) && !HasId(msgs[1..], msgs[0].id)
  {
    forall i, j | 0 <= i < j < |msgs[1..]|
      ensures msgs[1..][i].id != msgs[1..][j].id
    {
      assert msgs[1..][i] == msgs[i + 1] && msgs[1..][j] == msgs[j + 1];
    }
  }

  lemma HasIdCons(x: Message, rest: seq<Message>, id: string)
    ensures HasId([x] + rest, id) <==> x.id == id || HasId(rest, id)
  {
    var r := [x] + rest;
    assert r[0] == x;
    if HasId(r, id) && x.id != id {
      var i :| 0 <= i < |r| && r[i].id == id;
      assert rest[i - 1].id == id;
    }
    if HasId(rest, id) {
      var i :| 0 <= i < |rest| && rest[i].id == id;
      assert r[i + 1].id == id;
    }
  }

  lemma UniqueCons(x: Message, rest: seq<Message>)
    requires UniqueIds(rest) && !HasId(rest, x.id)
    ensures UniqueIds([x] + rest)
  {
    var r := [x] + rest;
    forall i, j | 0 <= i < j < |r|
      ensures r[i].id != r[j].id
    {
      if i == 0 {
        assert r[j] == rest[j - 1];
      } else {
        assert r[i] == rest[i - 1] && r[j] == rest[j - 1];
      }
    }
  }

  /** `sort_by` on timestamps. */
  function SortByTime(msgs: seq<Message>): seq<Message> {
    if msgs == [] then [] else InsertByTime(msgs[0], SortByTime(msgs[1..]))
  }

  lemma {:induction false} SortByTimeSpec(msgs: seq<Message>)
    ensures SortedByTime(SortByTime(msgs))
    ensures multiset(SortByTime(msgs)) == multiset(msgs)
  {
    if msgs != [] {
      SortByTimeSpec(msgs[1..]);
      InsertByTimeSorted(msgs[0], SortByTime(msgs[1..]));
      InsertByTimeMultiset(msgs[0], SortByTime(msgs[1..]));
      assert msgs == [msgs[0]] + msgs[1..];
    }
  }

  /** Sorting keeps the set of ids and their uniqueness. */
  lemma {:induction false} SortByTimeIds(msgs: seq<Message>)
    ensures forall id :: HasId(SortByTime(msgs), id) <==> HasId(msgs, id)
    ensures UniqueIds(msgs) ==> UniqueIds(SortByTime(msgs))
  {
    if msgs != [] {
      var rest := SortByTime(msgs[1..]);
      SortByTimeIds(msgs[1..]);
      InsertByTimeIds(msgs[0], rest);
      assert msgs == [msgs[0]] + msgs[1..];
      forall id
        ensures HasId(SortByTime(msgs), id) <==> HasId(msgs, id)
      {
        HasIdCons(msgs[0], msgs[1..], id);
      }
      if UniqueIds(msgs) {
        UniqueTail(msgs);
        InsertByTimeUnique(msgs[0], rest);
      }
    }
  }

  /** Some message of the list carries the id. */
  predicate HasId(msgs: seq<Message>, id: string) {
    exists i :: 0 <= i < |msgs| && msgs[i].id == id
  }

  /** The last twenty messages (or all, when there are fewer). */
  function Recent(msgs: seq<Message>): (r: seq<Message>)
    ensures |r| == if |msgs| < 20 then |msgs| else 20
    ensures forall i :: 0 <= i < |r| ==> r[i] == msgs[|msgs| - |r| + i]
  {
    msgs[|msgs| - (if |msgs| < 20 then |msgs| else 20)..]
  }

  /**
   * `compact_conversation` on a message list: the important messages and
   * the last twenty, each id once, sorted by time. The two loops of the
   * source are the two loops here.
   */
  method Compact(msgs: seq<Message>) returns (r: seq<Message>)
    ensures SortedByTime(r)
    ensures forall m :: m in r ==> m in msgs
    ensures forall m :: m in msgs && Important(m) ==> m in r
    ensures forall m :: m in r ==> Important(m) || m in Recent(msgs)
    ensures forall m :: m in Recent(msgs) ==> HasId(r, m.id)
    ensures UniqueIds(msgs) ==> UniqueIds(r) && forall m :: m in Recent(msgs) ==> m in r
  {
    var kept := KeepImportant(msgs);
    var merged := MergeRecent(msgs, kept);
    SortByTimeSpec(merged);
    SortByTimeIds(merged);
    r := SortByTime(merged);
    assert forall m :: m in r <==> m in multiset(r);
    assert forall m :: m in merged <==> m in multiset(merged);
  }

  /** The first loop: the important messages, in order. */
  method KeepImportant(msgs: seq<Message>) returns (kept: seq<Message>)
    ensures forall m :: m in kept ==> m in msgs && Important(m)
    ensures forall m :: m in msgs && Important(m) ==> m in kept
    ensures UniqueIds(msgs) ==> UniqueIds(kept)
  {
    kept := [];
    var i := 0;
    while i < |msgs|
      invariant 0 <= i <= |msgs|
      invariant forall m :: m in kept ==> m in msgs[..i] && Important(m)
      invariant forall j :: 0 <= j < i && Important(msgs[j]) ==> msgs[j] in kept
      invariant UniqueIds(msgs) ==> UniqueIds(kept)
    {
      if Important(msgs[i]) {
        UniqueAppend(msgs, kept, i);
        kept := kept + [msgs[i]];
      }
      assert msgs[..i + 1] == msgs[..i] + [msgs[i]];
      i := i + 1;
    }
    assert msgs[..|msgs|] == msgs;
  }

  /** The second loop: each recent message whose id is not yet kept is appended. */
  method MergeRecent(msgs: seq<Message>, kept: seq<Message>) returns (merged: seq<Message>)
    requires forall m :: m in kept ==> m in msgs
    requires UniqueIds(msgs) ==> UniqueIds(kept)
    ensures forall m :: m in merged ==> m in msgs
    ensures forall m :: m in kept ==> m in merged
    ensures forall m :: m in merged ==> m in kept || m in Recent(msgs)
    ensures forall m :: m in Recent(msgs) ==> HasId(merged, m.id)
    ensures UniqueIds(msgs) ==> UniqueIds(merged) && forall m :: m in Recent(msgs) ==> m in merged
  {
    var recent := Recent(msgs);
    merged := kept;
    var k := 0;
    while k < |recent|
      invariant MergedSoFar(msgs, kept, recent, k, merged)
    {
      merged := MergeOne(msgs, kept, recent, k, merged);
      k := k + 1;
    }
  }

  /** The loop invariant of the merge after the first `k` recent messages. */
  predicate MergedSoFar(msgs: seq<Message>, kept: seq<Message>, recent: seq<Message>, k: nat, merged: seq<Message>) {
    && k <= |recent|
    && (forall m :: m in merged ==> m in msgs)
    && (forall m :: m in kept ==> m in merged)
    && (forall m :: m in merged ==> m in kept || m in recent)
    && (forall j :: 0 <= j < k ==> HasId(merged, recent[j].id))
    && (UniqueIds(msgs) ==> UniqueIds(merged) && forall j :: 0 <= j < k ==> recent[j] in merged)
  }

  /** One iteration of the merge loop: the `k`-th recent message is appended unless its id is present. */
  method MergeOne(msgs: seq<Message>, kept: seq<Message>, recent: seq<Message>, k: nat, merged: seq<Message>)
    returns (next: seq<Message>)
    requires k < |recent| && recent[k] in msgs
    requires MergedSoFar(msgs, kept, recent, k, merged)
    ensures MergedSoFar(msgs, kept, recent, k + 1, next)
  {
    var m := recent[k];
    HasIdsStep(merged, recent, k);
    if !HasId(merged, m.id) {
      AppendNewId(merged, m);
      next := merged + [m];
    } else {
      KeptUnderSameId(msgs, merged, m);
      next := merged;
    }
  }

  /** One step of the merge: the ids seen so far, and the next one, are all present afterwards. */
  lemma HasIdsStep(merged: seq<Message>, recent: seq<Message>, k: nat)
    requires k < |recent|
    requires forall j :: 0 <= j < k ==> HasId(merged, recent[j].id)
    ensures HasId(merged, recent[k].id) ==> forall j :: 0 <= j <= k ==> HasId(merged, recent[j].id)
    ensures !HasId(merged, recent[k].id) ==> forall j :: 0 <= j <= k ==> HasId(merged + [recent[k]], recent[j].id)
  {
    if !HasId(merged, recent[k].id) {
      AppendNewId(merged, recent[k]);
    }
  }

  lemma AppendNewId(merged: seq<Message>, m: Message)
    requires !HasId(merged, m.id)
    ensures forall id :: HasId(merged, id) ==> HasId(merged + [m], id)
    ensures HasId(merged + [m], m.id)
    ensures UniqueIds(merged) ==> UniqueIds(merged + [m])
  {
    var r := merged + [m];
    assert r[|merged|] == m;
    forall id | HasId(merged, id)
      ensures HasId(r, id)
    {
      var i :| 0 <= i < |merged| && merged[i].id == id;
      assert r[i] == merged[i];
    }
  }

  /** Appending a message of a list with unique ids to a sub-list that lacks it keeps ids unique. */
  lemma UniqueAppend(msgs: seq<Message>, kept: seq<Message>, i: nat)
    requires i < |msgs|
    requires forall m :: m in kept ==> m in msgs[..i]
    ensures UniqueIds(msgs) && UniqueIds(kept) ==> UniqueIds(kept + [msgs[i]])
  {
    if UniqueIds(msgs) && UniqueIds(kept) {
      forall a | 0 <= a < |kept|
        ensures kept[a].id != msgs[i].id
      {
        assert kept[a] in msgs[..i];
        var b :| 0 <= b < i && msgs[..i][b] == kept[a];
        assert msgs[b] == kept[a];
      }
    }
  }

  /** With unique ids, a message whose id is already kept is itself kept. */
  lemma KeptUnderSameId(msgs: seq<Message>, merged: seq<Message>, m: Message)
    requires m in msgs && HasId(merged, m.id)
    requires forall x :: x in merged ==> x in msgs
    ensures UniqueIds(msgs) ==> m in merged
  {
    var x :| 0 <= x < |merged| && merged[x].id == m.id;
    assert merged[x] in msgs;
  }

  // -------------------------------------------------------------- manager

  /** `add_to_cache`: a full cache first loses one key the map happens to yield. */
  predicate CacheBounded(cache: map<string, Conversation>, max: nat) {
    |cache| <= max
  }

  class ConversationManager {
    var current: Option<Conversation>
    var cache: map<string, Conversation>
    const maxCacheSize: nat

    predicate Valid()
      reads this
    {
      maxCacheSize >= 1 && CacheBounded(cache, maxCacheSize)
    }

    /** `new`: no active conversation, an empty cache holding at most 100 conversations. */
    constructor()
      ensures Valid() && current.None? && cache == map[] && maxCacheSize == 100
    {
      current := None;
      cache := map[];
      maxCacheSize := 100;
    }

    method AddToCache(c: Conversation)
      requires Valid()
      modifies this
      ensures Valid() && current == old(current)
      ensures c.id in cache && cache[c.id] == c
      ensures forall id :: id in cache && id != c.id ==> id in old(cache) && cache[id] == old(cache)[id]
      ensures |old(cache)| < maxCacheSize ==> cache == old(cache)[c.id := c]
    {
      if |cache| >= maxCacheSize {
        var oldest :| oldest in cache;
        cache := cache - {oldest};
      }
      cache := cache[c.id := c];
    }

    /**
     * `save_conversation`: a failed write is an error; a successful one
     * refreshes the conversation in the cache.
     */
    method Save(c: Conversation, written: Option<string>) returns (r: Result<(), ClaudeError>)
      requires Valid()
      modifies this
      ensures Valid() && current == old(current)
      ensures written.Some? <==> r.Err?
      ensures written.Some? ==> r.error == General("Failed to write conversation file: " + written.value) && cache == old(cache)
      ensures written.None? ==> c.id in cache && cache[c.id] == c
      ensures written.None? ==> forall k :: k in cache && k != c.id ==> k in old(cache) && cache[k] == old(cache)[k]
      ensures written.None? && |old(cache)| < maxCacheSize ==> cache == old(cache)[c.id := c]
    {
      if written.Some? {
        return Err(General("Failed to write conversation file: " + written.value));
      }
      AddToCache(c);
      r := Ok(());
    }

    /**
     * `create_conversation`: a new empty conversation, titled as given or
     * after the time, is saved and becomes the active one.
     */
    method CreateConversation(id: string, title: Option<string>, now: nat, formattedNow: string, written: Option<string>)
      returns (r: Result<string, ClaudeError>)
      requires Valid()
      modifies this
      ensures Valid()
      ensures written.Some? ==>
        r == Err(General("Failed to write conversation file: " + written.value)) && current == old(current) && cache == old(cache)
      ensures written.None? ==> forall k :: k in cache && k != id ==> k in old(cache) && cache[k] == old(cache)[k]
      ensures written.None? && |old(cache)| + 1 < maxCacheSize ==> current.Some? && cache == old(cache)[id := current.value]
      ensures written.None? ==> (r == Ok(id) && current.Some? && current.value.id == id
        && current.value.messages == [] && current.value.totalTokenUsage == ZeroUsage
        && current.value.title == (if title.Some? then title.value else "Conversation " + formattedNow)
        && id in cache && cache[id] == current.value)
    {
      var c := Conversation(id, if title.Some? then title.value else "Conversation " + formattedNow,
                            now, now, [], map[], [], false, ZeroUsage);
      var s := Save(c, written);
      if s.Err? {
        return Err(s.error);
      }
      current := Some(c);
      AddToCache(c);
      r := Ok(id);
    }

    /** `load_conversation`: from the cache when there, else the file's outcome. */
    method LoadConversation(id: string, fromFile: Result<Conversation, ClaudeError>) returns (r: Result<(), ClaudeError>)
      requires Valid()
      modifies this
      ensures Valid()
      ensures id in old(cache) ==> r.Ok? && current == Some(old(cache)[id]) && cache == old(cache)
      ensures id !in old(cache) && fromFile.Err? ==> r == Err(fromFile.error) && current == old(current) && cache == old(cache)
      ensures id !in old(cache) && fromFile.Ok? ==> (r.Ok? && current == Some(fromFile.value)
        && fromFile.value.id in cache && cache[fromFile.value.id] == fromFile.value
        && (forall k :: k in cache && k != fromFile.value.id ==> k in old(cache) && cache[k] == old(cache)[k])
        && (|old(cache)| < maxCacheSize ==> cache == old(cache)[fromFile.value.id := fromFile.value]))
    {
      if id in cache {
        current := Some(cache[id]);
        return Ok(());
      }
      if fromFile.Err? {
        return Err(fromFile.error);
      }
      current := Some(fromFile.value);
      AddToCache(fromFile.value);
      r := Ok(());
    }

    /**
     * `add_message`: without an active conversation, an error and no
     * change; otherwise the message is appended and its usage (if any) is
     * added to the totals, field by field. A failed write is reported
     * after the conversation has changed.
     */
    method AddMessage(messageId: string, role: string, content: string, usage: Option<TokenUsage>,
                      now: nat, written: Option<string>)
      returns (r: Result<string, ClaudeError>)
      requires Valid()
      modifies this
      ensures Valid()
      ensures old(current).None? ==> r == Err(General("No active conversation")) && current.None? && cache == old(cache)
      ensures old(current).Some? ==> (current.Some?
        && current.value.messages == old(current).value.messages + [Message(messageId, role, content, now, usage)]
        && current.value.totalTokenUsage ==
             (if usage.Some? then AddUsage(old(current).value.totalTokenUsage, usage.value) else old(current).value.totalTokenUsage)
        && current.value.id == old(current).value.id && current.value.updatedAt == now
        && (r.Ok? <==> written.None?) && (r.Ok? ==> r.value == messageId))
      ensures old(current).Some? && UsageMatches(old(current).value) ==> current.Some? && UsageMatches(current.value)
    {
      if current.None? {
        return Err(General("No active conversation"));
      }
      var c := current.value;
      var m := Message(messageId, role, content, now, usage);
      assert (c.messages + [m])[..|c.messages|] == c.messages;
      var total := if usage.Some? then AddUsage(c.totalTokenUsage, usage.value) else c.totalTokenUsage;
      c := c.(messages := c.messages + [Message(messageId, role, content, now, usage)], updatedAt := now,
              totalTokenUsage := total);
      current := Some(c);
      var s := Save(c, written);
      if s.Err? {
        return Err(s.error);
      }
      r := Ok(messageId);
    }

    /** `get_conversation_messages`: the active conversation's messages, or none. */
    function GetConversationMessages(): (r: seq<Message>)
      reads this
      ensures current.None? ==> r == []
      ensures current.Some? ==> r == current.value.messages
    {
      if current.Some? then current.value.messages else []
    }

    /** `get_message_count`: 0 without an active conversation. */
    function GetMessageCount(): (n: nat)
      reads this
      ensures current.None? ==> n == 0
      ensures n == |GetConversationMessages()|
    {
      if current.Some? then |current.value.messages| else 0
    }

    /** `clear_current_conversation`: no messages and zero totals; nothing at all without a conversation. */
    method ClearCurrentConversation(now: nat, written: Option<string>) returns (r: Result<(), ClaudeError>)
      requires Valid()
      modifies this
      ensures Valid()
      ensures old(current).None? ==> r.Ok? && current.None? && cache == old(cache)
      ensures old(current).Some? ==> (current.Some? && current.value.messages == [] && current.value.totalTokenUsage == ZeroUsage
        && current.value.id == old(current).value.id && (r.Ok? <==> written.None?) && UsageMatches(current.value))
    {
      if current.None? {
        return Ok(());
      }
      var c := current.value.(messages := [], updatedAt := now, totalTokenUsage := ZeroUsage);
      current := Some(c);
      r := Save(c, written);
    }

    /**
     * `compact_conversation`: the active conversation keeps what `Compact`
     * keeps, and records the instructions when given. Nothing happens
     * without an active conversation.
     */
    method CompactConversation(instructions: Option<string>, now: nat, written: Option<string>)
      returns (r: Result<(), ClaudeError>)
      requires Valid()
      modifies this
      ensures Valid()
      ensures old(current).None? ==> r.Ok? && current.None? && cache == old(cache)
      ensures old(current).Some? ==> (current.Some?
        && var before := old(current).value.messages;
           var after := current.value.messages;
           SortedByTime(after) && (forall m :: m in after ==> m in before)
           && (forall m :: m in after ==> Important(m) || m in Recent(before))
           && (forall m :: m in before && Important(m) ==> m in after)
           && (UniqueIds(before) ==> UniqueIds(after) && forall m :: m in Recent(before) ==> m in after)
           && (r.Ok? <==> written.None?))
      ensures old(current).Some? && instructions.Some? ==> (current.Some?
        && "last_compact_instructions" in current.value.metadata
        && current.value.metadata["last_compact_instructions"] == JsonValue.Str(instructions.value))
    {
      if current.None? {
        return Ok(());
      }
      var c := current.value;
      var kept := Compact(c.messages);
      c := c.(messages := kept, updatedAt := now);
      if instructions.Some? {
        c := c.(metadata := c.metadata["last_compact_instructions" := JsonValue.Str(instructions.value)]);
      }
      current := Some(c);
      r := Save(c, written);
    }
  }
}
