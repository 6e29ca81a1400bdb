/**
 * The line-oriented terminal interface: its line editor (an input string
 * with a cursor), the message list, the slash commands typed into it, the
 * raw-mode flag and the progress-bar arithmetic. Drawing and the terminal
 * are not part of this model; a terminal call that can fail is a
 * parameter giving its error text, and the clock is a parameter `now`.
 */
module Ui {
  import opened Wrappers
  import opened Errors
  import opened Text

  datatype MessageType = User | Assistant | System | Error | Warning | Debug

  datatype UiMessage = UiMessage(content: string, messageType: MessageType, timestamp: nat)

  datatype KeyCode = Esc | Enter | Backspace | Left | Right | Home | End | Char(c: char) | OtherKey

  /** A key press; `control` says whether the Control modifier was held. */
  datatype KeyEvent = KeyEvent(code: KeyCode, control: bool)

  const BarWidth: nat := 40

  /** `s` with `c` inserted before position `k`. */
  function InsertAt(s: string, k: nat, c: char): (r: string)
    requires k <= |s|
    ensures |r| == |s| + 1 && r[k] == c
    ensures r[..k] == s[..k] && r[k + 1..] == s[k..]
  {
    s[..k] + [c] + s[k..]
  }

  /** `s` without the character at position `k`. */
  function RemoveAt(s: string, k: nat): (r: string)
    requires k < |s|
    ensures |r| == |s| - 1
    ensures r[..k] == s[..k] && r[k..] == s[k + 1..]
  {
    s[..k] + s[k + 1..]
  }

  lemma RemoveAfterInsert(s: string, k: nat, c: char)
    requires k <= |s|
    ensures RemoveAt(InsertAt(s, k, c), k) == s
  {
    var t := InsertAt(s, k, c);
    assert RemoveAt(t, k) == s[..k] + s[k..];
    assert s[..k] + s[k..] == s;
  }

  /**
   * Where Ctrl+W stops: walking back from `k` over characters that are not
   * spaces, to the start of the input or to just after a space.
   */
  function WordStart(s: string, k: nat): (r: nat)
    requires k <= |s|
    ensures r <= k
    ensures r == 0 || s[r - 1] == ' '
    ensures forall i :: r <= i < k ==> s[i] != ' '
  {
    if k == 0 || s[k - 1] == ' ' then k else WordStart(s, k - 1)
  }

  /** The first whitespace-separated word of `s`, if there is one. */
  function FirstWord(s: string): (r: Option<string>)
    ensures r.Some? ==> r.value != [] && forall i :: 0 <= i < |r.value| ==> !IsWhitespace(r.value[i])
    ensures r.None? <==> TrimStart(s) == []
  {
    var t := TrimStart(s);
    if t == [] then None else Some(TakeWord(t))
  }

  function TakeWord(t: string): (r: string)
    requires t != [] && !IsWhitespace(t[0])
    ensures r != [] && StartsWith(t, r)
    ensures forall i :: 0 <= i < |r| ==> !IsWhitespace(r[i])
    ensures |r| < |t| ==> IsWhitespace(t[|r|])
  {
    if |t| == 1 || IsWhitespace(t[1]) then t[..1]
    else [t[0]] + TakeWord(t[1..])
  }

  /** The simulated memory figure in the status reply: 10 MB plus one per ten messages. */
  function MemoryUsage(messageCount: nat): nat {
    10 + messageCount / 10
  }

  lemma DivAtMost(x: nat, d: nat, c: nat)
    requires d > 0 && x <= c * d
    ensures x / d <= c
  {
    var q := x / d;
    assert q * d <= x;
    assert (q - c) * d <= 0;
  }

  lemma DivAtLeast(x: nat, d: nat, c: nat)
    requires d > 0 && x >= c * d
    ensures x / d >= c
  {
    var q := x / d;
    assert x < (q + 1) * d;
    assert (c - q - 1) * d < 0;
  }

  /** `x * scale / d` against `c` when `x` is at most or at least `c * d / scale`. */
  lemma ScaledBounds(x: nat, scale: nat, d: nat, c: nat)
    requires d > 0
    ensures x * scale <= c * d ==> (x * scale) / d <= c
    ensures x * scale >= c * d ==> (x * scale) / d >= c
  {
    if x * scale <= c * d {
      DivAtMost(x * scale, d, c);
    }
    if x * scale >= c * d {
      DivAtLeast(x * scale, d, c);
    }
  }

  /** The percentage `show_progress` reports, 0 for an empty total. */
  function Percentage(current: nat, total: nat): (p: nat)
    ensures total == 0 ==> p == 0
    ensures current <= total ==> p <= 100
    ensures 0 < total <= current ==> p >= 100
  {
    if total > 0 then
      ScaledBounds(current, 100, total, 100);
      (current * 100) / total
    else 0
  }

  /** The number of '=' cells out of `BarWidth` for a percentage. */
  function Filled(percentage: nat): (f: nat)
    ensures percentage <= 100 ==> f <= BarWidth
    ensures percentage >= 100 ==> f >= BarWidth
  {
    ScaledBounds(percentage, BarWidth, 100, BarWidth);
    (percentage * BarWidth) / 100
  }

  function Repeat(c: char, n: nat): (r: string)
    ensures |r| == n && forall i :: 0 <= i < n ==> r[i] == c
  {
    if n == 0 then [] else [c] + Repeat(c, n - 1)
  }

  /**
   * `show_progress`'s bar line. The empty part is `BarWidth - filled` in
   * unsigned arithmetic, so a current beyond the total, which fills more
   * than the width, has no bar (the subtraction fails).
   */
  function ProgressBar(current: nat, total: nat, message: string): (r: Option<string>)
    ensures r.Some? <==> Filled(Percentage(current, total)) <= BarWidth
    ensures current <= total ==> r.Some?
    ensures r.Some? ==> |r.value| > 1 + BarWidth && StartsWith(r.value, "[") && r.value[1 + BarWidth] == ']'
    ensures r.Some? ==> forall i :: 1 <= i <= Filled(Percentage(current, total)) ==> r.value[i] == '='
  {
    var p := Percentage(current, total);
    var f := Filled(p);
    if f > BarWidth then None
    else Some("[" + Repeat('=', f) + Repeat(' ', BarWidth - f) + "] " + NatToString(p) + "% - " + message)
  }

  /** A full bar: a current equal to a non-zero total fills every cell. */
  lemma CompleteProgressIsFull(total: nat, message: string)
    requires total > 0
    ensures Percentage(total, total) == 100 && Filled(100) == BarWidth
    ensures ProgressBar(total, total, message).Some?
  {
  }

  // The line editor as written, with the cursor counted in bytes.

  /**
   * The character index at which the UTF-8 byte offset `b` falls, or None
   * when `b` is inside a character or past the end (where Rust's string
   * insert and remove panic).
   */
  function CharAtByte(s: string, b: nat): (r: Option<nat>)
    ensures r.Some? ==> r.value <= |s| && Utf8Len(s[..r.value]) == b
  {
    if b == 0 then Some(0)
    else if s == [] || Utf8Width(s[0]) > b then None
    else match CharAtByte(s[1..], b - Utf8Width(s[0])) {
      case None => None
      case Some(k) =>
        assert s[..k + 1] == [s[0]] + s[1..][..k];
        Some(k + 1)
    }
  }

  /**
   * A typed character as written: the cursor is a byte offset into the
   * input and moves on by one, whatever the character's width. None is a
   * panic.
   */
  function TypeAsWritten(input: string, cursor: nat, c: char): Option<(string, nat)> {
    match CharAtByte(input, cursor)
    case None => None
    case Some(k) => Some((InsertAt(input, k, c), cursor + 1))
  }

  predicate AllAscii(s: string) {
    forall i :: 0 <= i < |s| ==> Utf8Width(s[i]) == 1
  }

  lemma {:induction false} AsciiCharAtByte(s: string, k: nat)
    requires AllAscii(s) && k <= |s|
    ensures CharAtByte(s, k) == Some(k)
  {
    if k > 0 {
      assert AllAscii(s[1..]) by {
        forall i | 0 <= i < |s[1..]| ensures Utf8Width(s[1..][i]) == 1 {
          assert s[1..][i] == s[i + 1];
        }
      }
      AsciiCharAtByte(s[1..], k - 1);
    }
  }

  /** On ASCII input the byte cursor and the character cursor agree. */
  lemma TypeAgreesOnAscii(input: string, cursor: nat, c: char)
    requires AllAscii(input) && cursor <= |input|
    ensures TypeAsWritten(input, cursor, c) == Some((InsertAt(input, cursor, c), cursor + 1))
  {
    AsciiCharAtByte(input, cursor);
  }

  /**
   * Typing 'é' (two bytes) into an empty input leaves the cursor at byte 1,
   * inside it, so the next typed character panics.
   */
  lemma TypeAfterWideCharPanics()
    ensures TypeAsWritten("", 0, '\U{E9}') == Some(("\U{E9}", 1))
    ensures TypeAsWritten("\U{E9}", 1, 'a') == None
  {
    assert Utf8Width('\U{E9}') == 2;
    assert InsertAt("", 0, '\U{E9}') == "\U{E9}";
  }

  // ---------------------------------------------------------------------
  // Slash commands
  // ---------------------------------------------------------------------

  /**
   * What `handle_tui_command` does to the message list and the quit flag:
   * "/clear" starts the list afresh, "/quit" and "/exit" only raise the
   * flag, and every other command appends exactly one reply.
   */
  function TuiCommandEffect(command: string, msgs: seq<UiMessage>, quit: bool, now: nat): (r: (seq<UiMessage>, bool))
    requires StartsWith(command, "/")
    ensures FirstWord(command[1..]) == Some("clear") ==> r.0 == [UiMessage("Messages cleared.", System, now)]
    ensures FirstWord(command[1..]) != Some("clear") ==> msgs <= r.0 && |r.0| <= |msgs| + 1
    ensures FirstWord(command[1..]) != Some("clear") ==>
      (|r.0| == |msgs| + 1 <==> FirstWord(command[1..]) !in {Some("quit"), Some("exit")})
    ensures FirstWord(command[1..]) != Some("clear") && |r.0| == |msgs| + 1 ==>
      (r.0[|msgs|].timestamp == now
       && (r.0[|msgs|].messageType == Error <==> FirstWord(command[1..]) !in {Some("help"), Some("status")}))
    ensures r.1 <==> quit || FirstWord(command[1..]) in {Some("quit"), Some("exit")}
  {
    var word := FirstWord(command[1..]);
    if word == Some("help") then
      (msgs + [UiMessage("Available commands: /help, /clear, /status, /quit", System, now)], quit)
    else if word == Some("clear") then
      ([UiMessage("Messages cleared.", System, now)], quit)
    else if word == Some("status") then
      (msgs + [UiMessage("Status: " + NatToString(|msgs|) + " messages, " + NatToString(MemoryUsage(|msgs|)) + "MB memory", System, now)], quit)
    else if word == Some("quit") || word == Some("exit") then
      (msgs, true)
    else
      (msgs + [UiMessage("Unknown command: " + command + ". Type /help for available commands.", Error, now)], quit)
  }

  class TerminalUi {
    var rawModeEnabled: bool
    var messages: seq<UiMessage>
    var currentInput: string
    var cursorPosition: nat
    var shouldQuit: bool

    /** The cursor is a character position within the input. */
    predicate Valid()
      reads this
    {
      cursorPosition <= |currentInput|
    }

    constructor()
      ensures Valid()
      ensures !rawModeEnabled && messages == [] && currentInput == [] && cursorPosition == 0 && !shouldQuit
    {
      rawModeEnabled := false;
      messages := [];
      currentInput := [];
      cursorPosition := 0;
      shouldQuit := false;
    }

    /** `enable_raw_mode`: asks the terminal only when not already raw; `failure` is the terminal's error, if any. */
    method EnableRawMode(failure: Option<string>) returns (r: Result<(), ClaudeError>)
      modifies this
      ensures old(rawModeEnabled) ==> r.Ok? && rawModeEnabled
      ensures !old(rawModeEnabled) && failure.Some? ==>
        r == Err(General("Failed to enable raw mode: " + failure.value)) && !rawModeEnabled
      ensures !old(rawModeEnabled) && failure.None? ==> r.Ok? && rawModeEnabled
      ensures messages == old(messages) && currentInput == old(currentInput)
      ensures cursorPosition == old(cursorPosition) && shouldQuit == old(shouldQuit)
    {
      if !rawModeEnabled {
        if failure.Some? {
          return Err(General("Failed to enable raw mode: " + failure.value));
        }
        rawModeEnabled := true;
      }
      return Ok(());
    }

    /** `disable_raw_mode`: asks the terminal only when raw. */
    method DisableRawMode(failure: Option<string>) returns (r: Result<(), ClaudeError>)
      modifies this
      ensures !old(rawModeEnabled) ==> r.Ok? && !rawModeEnabled
      ensures old(rawModeEnabled) && failure.Some? ==>
        r == Err(General("Failed to disable raw mode: " + failure.value)) && rawModeEnabled
      ensures old(rawModeEnabled) && failure.None? ==> r.Ok? && !rawModeEnabled
      ensures messages == old(messages) && currentInput == old(currentInput)
      ensures cursorPosition == old(cursorPosition) && shouldQuit == old(shouldQuit)
    {
      if rawModeEnabled {
        if failure.Some? {
          return Err(General("Failed to disable raw mode: " + failure.value));
        }
        rawModeEnabled := false;
      }
      return Ok(());
    }

    method AddMessage(content: string, t: MessageType, now: nat)
      modifies this
      ensures messages == old(messages) + [UiMessage(content, t, now)]
      ensures currentInput == old(currentInput) && cursorPosition == old(cursorPosition)
      ensures shouldQuit == old(shouldQuit) && rawModeEnabled == old(rawModeEnabled)
    {
      messages := messages + [UiMessage(content, t, now)];
    }

    method ClearMessages()
      modifies this
      ensures messages == []
      ensures currentInput == old(currentInput) && cursorPosition == old(cursorPosition)
      ensures shouldQuit == old(shouldQuit) && rawModeEnabled == old(rawModeEnabled)
    {
      messages := [];
    }

    /** Ctrl+W: deletes the characters before the cursor back to the previous space. */
    method DeleteWord()
      requires Valid()
      modifies this
      ensures Valid()
      ensures var j := WordStart(old(currentInput), old(cursorPosition));
        currentInput == old(currentInput)[..j] + old(currentInput)[old(cursorPosition)..]
        && cursorPosition == j
      ensures messages == old(messages) && shouldQuit == old(shouldQuit) && rawModeEnabled == old(rawModeEnabled)
    {
      ghost var s := currentInput;
      ghost var k := cursorPosition;
      while cursorPosition > 0 && currentInput[cursorPosition - 1] != ' '
        invariant cursorPosition <= k
        invariant currentInput == s[..cursorPosition] + s[k..]
        invariant WordStart(s, k) == WordStart(s, cursorPosition)
        invariant messages == old(messages) && shouldQuit == old(shouldQuit) && rawModeEnabled == old(rawModeEnabled)
        decreases cursorPosition
      {
        assert currentInput[cursorPosition - 1] == s[cursorPosition - 1];
        currentInput := RemoveAt(currentInput, cursorPosition - 1);
        cursorPosition := cursorPosition - 1;
        assert currentInput == s[..cursorPosition] + s[k..];
      }
      assert cursorPosition > 0 ==> currentInput[cursorPosition - 1] == s[cursorPosition - 1];
    }

    /** `handle_tui_command`: dispatches on the first word after the '/'. */
    method HandleTuiCommand(command: string, now: nat)
      requires StartsWith(command, "/")
      modifies this
      ensures FirstWord(command[1..]) == Some("clear") ==> messages == [UiMessage("Messages cleared.", System, now)]
      ensures FirstWord(command[1..]) == Some("help") ==>
        messages == old(messages) + [UiMessage("Available commands: /help, /clear, /status, /quit", System, now)]
      ensures FirstWord(command[1..]) == Some("status") ==>
        messages == old(messages) + [UiMessage("Status: " + NatToString(|old(messages)|) + " messages, "
          + NatToString(MemoryUsage(|old(messages)|)) + "MB memory", System, now)]
      ensures FirstWord(command[1..]) in {Some("quit"), Some("exit")} ==> shouldQuit && messages == old(messages)
      ensures FirstWord(command[1..]) !in {Some("help"), Some("clear"), Some("status"), Some("quit"), Some("exit")} ==>
        messages == old(messages) + [UiMessage("Unknown command: " + command + ". Type /help for available commands.", Error, now)]
      ensures !(FirstWord(command[1..]) in {Some("quit"), Some("exit")}) ==> shouldQuit == old(shouldQuit)
      ensures FirstWord(command[1..]) != Some("clear") ==> old(messages) <= messages
      ensures (messages, shouldQuit) == TuiCommandEffect(command, old(messages), old(shouldQuit), now)
      ensures currentInput == old(currentInput) && cursorPosition == old(cursorPosition) && rawModeEnabled == old(rawModeEnabled)
    {
      var word := FirstWord(command[1..]);
      if word == Some("help") {
        AddMessage("Available commands: /help, /clear, /status, /quit", System, now);
      } else if word == Some("clear") {
        ClearMessages();
        AddMessage("Messages cleared.", System, now);
      } else if word == Some("status") {
        var n := |messages|;
        AddMessage("Status: " + NatToString(n) + " messages, " + NatToString(MemoryUsage(n)) + "MB memory", System, now);
      } else if word == Some("quit") || word == Some("exit") {
        shouldQuit := true;
      } else {
        AddMessage("Unknown command: " + command + ". Type /help for available commands.", Error, now);
      }
    }

    /** Enter: a non-blank input becomes a user message, the input empties, and it is run or echoed. */
    method Submit(now: nat)
      requires Valid()
      modifies this
      ensures Valid()
      ensures Trim(old(currentInput)) == [] ==>
        currentInput == old(currentInput) && cursorPosition == old(cursorPosition) && messages == old(messages)
      ensures Trim(old(currentInput)) != [] ==> currentInput == [] && cursorPosition == 0
      ensures Trim(old(currentInput)) != [] && !StartsWith(old(currentInput), "/") ==>
        messages == old(messages) + [UiMessage(old(currentInput), User, now), UiMessage("Echo: " + old(currentInput), Assistant, now)]
      ensures Trim(old(currentInput)) != [] && StartsWith(old(currentInput), "/") ==>
        if FirstWord(old(currentInput)[1..]) == Some("clear")
        then messages == [UiMessage("Messages cleared.", System, now)]
        else old(messages) + [UiMessage(old(currentInput), User, now)] <= messages
      ensures Trim(old(currentInput)) != [] && StartsWith(old(currentInput), "/") ==>
        (messages, shouldQuit) == TuiCommandEffect(old(currentInput), old(messages) + [UiMessage(old(currentInput), User, now)], old(shouldQuit), now)
      ensures !(Trim(old(currentInput)) != [] && StartsWith(old(currentInput), "/")) ==> shouldQuit == old(shouldQuit)
      ensures rawModeEnabled == old(rawModeEnabled)
    {
      if Trim(currentInput) != [] {
        var input := currentInput;
        AddMessage(input, User, now);
        currentInput := [];
        cursorPosition := 0;
        if StartsWith(input, "/") {
          HandleTuiCommand(input, now);
        } else {
          AddMessage("Echo: " + input, Assistant, now);
        }
      }
    }

    /**
     * `handle_key_event` (with the cursor counted in characters). Returns
     * whether the interface should stop: Esc and Ctrl+C.
     */
    method HandleKeyEvent(key: KeyEvent, now: nat) returns (stop: bool)
      requires Valid()
      modifies this
      ensures Valid()
      ensures stop <==> key.code.Esc? || (key.code == Char('c') && key.control)
      ensures stop ==> shouldQuit
      ensures key.code == Char('l') && key.control ==> messages == [UiMessage("Screen cleared.", System, now)]
      ensures key.code == Char('u') && key.control ==> currentInput == [] && cursorPosition == 0
      ensures key.code == Char('w') && key.control ==>
        var j := WordStart(old(currentInput), old(cursorPosition));
        currentInput == old(currentInput)[..j] + old(currentInput)[old(cursorPosition)..] && cursorPosition == j
      ensures key.code.Enter? && Trim(old(currentInput)) == [] ==>
        currentInput == old(currentInput) && cursorPosition == old(cursorPosition) && messages == old(messages)
      ensures key.code.Enter? && Trim(old(currentInput)) != [] ==>
        currentInput == [] && cursorPosition == 0
        && (!StartsWith(old(currentInput), "/") ==>
              messages == old(messages) + [UiMessage(old(currentInput), User, now), UiMessage("Echo: " + old(currentInput), Assistant, now)])
        && (StartsWith(old(currentInput), "/") && FirstWord(old(currentInput)[1..]) == Some("clear") ==>
              messages == [UiMessage("Messages cleared.", System, now)])
        && (StartsWith(old(currentInput), "/") && FirstWord(old(currentInput)[1..]) != Some("clear") ==>
              old(messages) + [UiMessage(old(currentInput), User, now)] <= messages)
        && (StartsWith(old(currentInput), "/") ==>
              (messages, shouldQuit) == TuiCommandEffect(old(currentInput), old(messages) + [UiMessage(old(currentInput), User, now)], old(shouldQuit), now))
      ensures key.code.Enter? && !(Trim(old(currentInput)) != [] && StartsWith(old(currentInput), "/")) ==> shouldQuit == old(shouldQuit)
      ensures key.code.Char? && !(key.control && key.code.c in "clwu") ==>
        currentInput == InsertAt(old(currentInput), old(cursorPosition), key.code.c)
        && cursorPosition == old(cursorPosition) + 1
      ensures key.code.Backspace? ==>
        (if old(cursorPosition) > 0
         then currentInput == RemoveAt(old(currentInput), old(cursorPosition) - 1) && cursorPosition == old(cursorPosition) - 1
         else currentInput == old(currentInput) && cursorPosition == 0)
      ensures key.code.Left? ==> currentInput == old(currentInput) && cursorPosition == if old(cursorPosition) > 0 then old(cursorPosition) - 1 else 0
      ensures key.code.Right? ==>
        (currentInput == old(currentInput)
         && cursorPosition == if old(cursorPosition) < |old(currentInput)| then old(cursorPosition) + 1 else old(cursorPosition))
      ensures key.code.Home? ==> currentInput == old(currentInput) && cursorPosition == 0
      ensures key.code.End? ==> currentInput == old(currentInput) && cursorPosition == |currentInput|
      ensures !key.code.Enter? && !(key.code == Char('l') && key.control) ==> messages == old(messages)
      ensures rawModeEnabled == old(rawModeEnabled)
    {
      stop := false;
      if key.code == Char('c') && key.control {
        shouldQuit := true;
        stop := true;
      } else if key.code.Esc? {
        shouldQuit := true;
        stop := true;
      } else if key.code == Char('l') && key.control {
        ClearMessages();
        AddMessage("Screen cleared.", System, now);
      } else if key.code == Char('w') && key.control {
        DeleteWord();
      } else if key.code == Char('u') && key.control {
        currentInput := [];
        cursorPosition := 0;
      } else if key.code.Enter? {
        Submit(now);
      } else if key.code.Char? {
        currentInput := InsertAt(currentInput, cursorPosition, key.code.c);
        cursorPosition := cursorPosition + 1;
      } else if key.code.Backspace? {
        if cursorPosition > 0 {
          currentInput := RemoveAt(currentInput, cursorPosition - 1);
          cursorPosition := cursorPosition - 1;
        }
      } else if key.code.Left? {
        if cursorPosition > 0 {
          cursorPosition := cursorPosition - 1;
        }
      } else if key.code.Right? {
        if cursorPosition < |currentInput| {
          cursorPosition := cursorPosition + 1;
        }
      } else if key.code.Home? {
        cursorPosition := 0;
      } else if key.code.End? {
        cursorPosition := |currentInput|;
      }
    }
  }
}
