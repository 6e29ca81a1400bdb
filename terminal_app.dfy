/**
 * The full-screen terminal application: its modes, the chat input with
 * its history, the message list that scrolls to the newest message, and
 * the slash commands. Drawing, the event loop, the terminal itself and
 * the loading animation are not part of this model; the clock is a
 * parameter (`now`). The line editor behind the input box is modelled as
 * editing at the end of the input: a typed character is appended and
 * Backspace removes the last character.
 */
module TerminalApplication {
  import opened Wrappers
  import opened Text

  datatype AppMode = Chat | Help | ExitConfirm

  datatype MessageType = User | Assistant | System | Error

  datatype ChatMessage = ChatMessage(content: string, messageType: MessageType, timestamp: nat, isStreaming: bool)

  datatype KeyCode = Esc | Enter | Up | Down | Backspace | Char(c: char) | OtherKey

  datatype KeyEvent = KeyEvent(code: KeyCode, noModifiers: bool)

  const ReadyStatus := "Claude Code - Rust Edition | Ready to chat"
  const AssistantGreeting := "I'm Claude, your AI assistant. How can I help you today?"
  const HelloReply := "Hello! I'm Claude, your AI assistant. How can I help you today?"
  const HelpReply := "I can help you with coding, writing, analysis, and many other tasks. What would you like to work on?"
  const RustReply := "Rust is a great systems programming language! It offers memory safety without garbage collection. What would you like to know about Rust?"
  const DefaultReply := "I understand your message. This is a demo response from the Claude Code Rust edition terminal UI!"
  const ClearedReply := "Conversation cleared! Ready for a fresh start."

  /** The input box's line editor: characters are appended, Backspace drops the last one. */
  function EditInput(input: string, key: KeyEvent): (r: string)
    ensures key.code.Char? ==> r == input + [key.code.c]
    ensures key.code.Backspace? && input != [] ==> r == input[..|input| - 1]
    ensures !key.code.Char? && !key.code.Backspace? ==> r == input
  {
    match key.code
    case Char(c) => input + [c]
    case Backspace => if input == [] then input else input[..|input| - 1]
    case _ => input
  }

  /** `generate_ai_response`: a canned reply chosen by words in the lower-cased message. */
  function Reply(message: string): (r: string)
    ensures var m := ToLowerAscii(message);
      (r == HelloReply <==> Contains(m, "hello") || Contains(m, "hi"))
      && (r == HelpReply <==> !Contains(m, "hello") && !Contains(m, "hi") && Contains(m, "help"))
  {
    var m := ToLowerAscii(message);
    if Contains(m, "hello") || Contains(m, "hi") then HelloReply
    else if Contains(m, "help") then HelpReply
    else if Contains(m, "rust") then RustReply
    else DefaultReply
  }

  /**
   * The index Up moves to: from no selection to the newest entry, from an
   * entry to the one before it, and it stays at the oldest.
   */
  function HistoryUp(n: nat, index: Option<nat>): (r: nat)
    requires n > 0 && (index.Some? ==> index.value < n)
    ensures r < n
    ensures index.None? ==> r == n - 1
    ensures index.Some? ==> r == if index.value > 0 then index.value - 1 else 0
  {
    match index
    case None => n - 1
    case Some(i) => if i > 0 then i - 1 else 0
  }

  /** The history invariant: a selected entry is shown in the input, and entries are never blank. */
  predicate HistoryShown(input: string, history: seq<string>, index: Option<nat>) {
    (index.Some? ==> index.value < |history| && input == history[index.value])
    && forall i :: 0 <= i < |history| ==> Trim(history[i]) != []
  }

  /**
   * Up in chat mode as written: it browses only while the input is empty,
   * and every other press clears the selection and leaves the input as it
   * is (the editor ignores Up). Returns the new input and selection.
   */
  function UpAsWritten(input: string, history: seq<string>, index: Option<nat>): (string, Option<nat>)
    requires index.Some? ==> index.value < |history|
  {
    if input == [] then
      if history == [] then (input, index)
      else
        var i := HistoryUp(|history|, index);
        (history[i], Some(i))
    else (input, None)
  }

  /** Up as evidently intended: it also browses while an entry is selected. */
  function UpStep(input: string, history: seq<string>, index: Option<nat>): (r: (string, Option<nat>))
    requires index.Some? ==> index.value < |history|
    ensures r.1.Some? ==> r.1.value < |history| && r.0 == history[r.1.value]
  {
    if input == [] || index.Some? then
      if history == [] then (input, index)
      else
        var i := HistoryUp(|history|, index);
        (history[i], Some(i))
    else (input, None)
  }

  /** Up `k` times from an empty input. */
  function Ups(history: seq<string>, k: nat): (r: (string, Option<nat>))
    ensures r.1.Some? ==> r.1.value < |history|
  {
    if k == 0 then ("", None) else UpStep(Ups(history, k - 1).0, history, Ups(history, k - 1).1)
  }

  /** With the guard corrected, the k-th press of Up shows the k-th newest entry, and then stays at the oldest. */
  lemma {:induction false} UpsWalkBack(history: seq<string>, k: nat)
    requires 1 <= k && history != []
    ensures Ups(history, k) == if k <= |history| then (history[|history| - k], Some(|history| - k)) else (history[0], Some(0))
  {
    if k > 1 {
      UpsWalkBack(history, k - 1);
    }
  }

  /**
   * As written, the second press of Up after a two-entry history finds the
   * newest entry in the input, so it drops the selection instead of
   * showing the older entry.
   */
  lemma SecondUpAsWritten()
    ensures var first := UpAsWritten("", ["a", "b"], None);
      first == ("b", Some(1)) && UpAsWritten(first.0, ["a", "b"], first.1) == ("b", None)
    ensures Ups(["a", "b"], 2) == ("a", Some(0))
  {
    UpsWalkBack(["a", "b"], 2);
  }

  /** As written, whenever an entry is selected the Up branch that steps back is never taken. */
  lemma UpNeverStepsBackAsWritten(input: string, history: seq<string>, index: Option<nat>)
    requires HistoryShown(input, history, index) && index.Some?
    ensures UpAsWritten(input, history, index) == (input, None)
  {
    assert Trim(history[index.value]) != [];
    assert input != [];
  }

  /** "System Status:" with the mode, the message count and the history count. */
  function StatusText(mode: AppMode, messages: nat, history: nat): string {
    "System Status:\n\n\U{2022} Application: Claude Code - Rust Edition\n\U{2022} Mode: "
      + (match mode case Chat => "Chat" case Help => "Help" case ExitConfirm => "Exit Confirm")
      + "\n\U{2022} Messages: " + NatToString(messages)
      + "\n\U{2022} Memory: OK\n\U{2022} Input History: " + NatToString(history)
      + " entries\n\U{2022} Uptime: Demo mode"
  }

  function UnknownCommandText(cmd: string): string {
    "Unknown command: '" + cmd + "'\n\nType '/help' to see all available commands.\nPress ESC to return to chat mode."
  }

  /** The commands with a fixed demonstration text. */
  predicate IsDemoCommand(name: string) {
    name in {"add-dir", "bug", "compact", "config", "cost", "doctor", "version"}
  }

  /** The fixed text of a demonstration command. */
  function DemoText(name: string): string {
    match name
    case "add-dir" =>
      "Add Directory Command\n\nThis command would add a new working directory to Claude Code.\n"
      + "In the full implementation, this would:\n\U{2022} Browse for a directory\n\U{2022} Add it to the workspace\n"
      + "\U{2022} Index files for context\n\n[Demo mode - command not fully implemented]"
    case "bug" =>
      "Bug Report\n\nThis command would open a bug report interface.\n"
      + "In the full implementation, this would:\n\U{2022} Collect system information\n\U{2022} Open a feedback form\n"
      + "\U{2022} Submit to the development team\n\n[Demo mode - command not fully implemented]"
    case "compact" =>
      "Compact Command\n\nThis command would clear conversation history but keep a summary.\n"
      + "In the full implementation, this would:\n\U{2022} Analyze conversation context\n\U{2022} Create a summary\n"
      + "\U{2022} Clear detailed history\n\U{2022} Preserve important context\n\n[Demo mode - command not fully implemented]"
    case "config" =>
      "Configuration Panel\n\nThis command would open the configuration interface.\nAvailable settings:\n"
      + "\U{2022} Theme selection\n\U{2022} API keys\n\U{2022} Model preferences\n\U{2022} File permissions\n\n"
      + "[Demo mode - command not fully implemented]"
    case "cost" =>
      "Session Cost Information\n\nCurrent Session:\n\U{2022} Duration: Demo mode\n\U{2022} API calls: Demo mode\n"
      + "\U{2022} Estimated cost: Demo mode\n\U{2022} Tokens used: Demo mode\n\n[Demo mode - cost tracking not implemented]"
    case "doctor" =>
      "System Diagnostics\n\n\U{2705} Claude Code - Rust Edition\n\U{2705} Terminal UI functional\n"
      + "\U{2705} Input/Output working\n\U{2705} Command system active\n\U{2705} Memory management OK\n\n"
      + "All systems operational!"
    case _ => // "version"
      "Claude Code - Rust Edition v0.1.0\n\nBuilt with:\n\U{2022} Rust \U{1F980}\n\U{2022} ratatui for terminal UI\n"
      + "\U{2022} crossterm for cross-platform terminal handling\n\U{2022} tokio for async runtime\n\n"
      + "A high-performance reimplementation of Claude Code in Rust."
  }

  /** How `execute_command` treats a lower-cased command name. */
  datatype CommandKind = ClearCommand | HelpCommand | ExitCommand | ReplyCommand

  function KindOf(name: string): (k: CommandKind)
    ensures k == ClearCommand <==> name == "clear"
    ensures k == HelpCommand <==> name == "help" || name == "h"
    ensures k == ExitCommand <==> name == "exit" || name == "quit"
  {
    if name == "clear" then ClearCommand
    else if name == "help" || name == "h" then HelpCommand
    else if name == "exit" || name == "quit" then ExitCommand
    else ReplyCommand
  }

  /**
   * The system reply to a command other than "clear", "help", "exit" and
   * "quit": the status report, a demonstration text, or the unknown-command
   * message quoting the command as typed.
   */
  function CommandReply(name: string, cmd: string, mode: AppMode, messageCount: nat, historyCount: nat): (r: string)
    ensures name == "status" ==> r == StatusText(mode, messageCount, historyCount)
    ensures IsDemoCommand(name) ==> r == DemoText(name)
    ensures name != "status" && !IsDemoCommand(name) ==> r == UnknownCommandText(cmd)
  {
    if name == "status" then StatusText(mode, messageCount, historyCount)
    else if IsDemoCommand(name) then DemoText(name)
    else UnknownCommandText(cmd)
  }

  class TerminalApp {
    var mode: AppMode
    var shouldQuit: bool
    var input: string
    var messages: seq<ChatMessage>
    var statusMessage: string
    var isLoading: bool
    var messageScroll: nat
    var showWelcome: bool
    var inputHistory: seq<string>
    var historyIndex: Option<nat>

    /** The list is scrolled to its newest message, and the history invariant holds. */
    predicate Valid()
      reads this
    {
      messageScroll == (if messages == [] then 0 else |messages| - 1)
      && HistoryShown(input, inputHistory, historyIndex)
    }

    constructor()
      ensures Valid()
      ensures mode == Chat && !shouldQuit && input == [] && messages == []
      ensures statusMessage == ReadyStatus && !isLoading && messageScroll == 0 && showWelcome
      ensures inputHistory == [] && historyIndex == None
    {
      mode := Chat;
      shouldQuit := false;
      input := [];
      messages := [];
      statusMessage := ReadyStatus;
      isLoading := false;
      messageScroll := 0;
      showWelcome := true;
      inputHistory := [];
      historyIndex := None;
    }

    /** `add_message`: appended at the end, and the list scrolls to it. */
    method AddMessage(content: string, t: MessageType, now: nat)
      modifies this
      ensures messages == old(messages) + [ChatMessage(content, t, now, false)]
      ensures messageScroll == |messages| - 1
      ensures mode == old(mode) && shouldQuit == old(shouldQuit) && input == old(input)
      ensures statusMessage == old(statusMessage) && isLoading == old(isLoading) && showWelcome == old(showWelcome)
      ensures inputHistory == old(inputHistory) && historyIndex == old(historyIndex)
    {
      messages := messages + [ChatMessage(content, t, now, false)];
      messageScroll := |messages| - 1;
    }

    /** The welcome messages `run` adds once, before the event loop starts. */
    method Welcome(now: nat)
      requires Valid()
      modifies this
      ensures Valid()
      ensures old(showWelcome) ==> |messages| == |old(messages)| + 3 && !showWelcome
      ensures !old(showWelcome) ==> messages == old(messages)
      ensures mode == old(mode) && input == old(input) && inputHistory == old(inputHistory)
    {
      if showWelcome {
        AddMessage("Welcome to Claude Code - Rust Edition! \U{1F980}", System, now);
        AddMessage("I'm Claude, your AI assistant. I can help you with coding, writing, analysis, and more.", Assistant, now);
        AddMessage("Type your message below and press Enter to start our conversation.", System, now);
        showWelcome := false;
      }
    }

    /** `send_message`: the user's message, then the canned reply; loading is over afterwards. */
    method SendMessage(message: string, now: nat)
      requires Valid()
      modifies this
      ensures Valid()
      ensures messages == old(messages) + [ChatMessage(message, User, now, false), ChatMessage(Reply(message), Assistant, now, false)]
      ensures !isLoading && statusMessage == "Ready for your next message"
      ensures mode == old(mode) && shouldQuit == old(shouldQuit) && input == old(input)
      ensures inputHistory == old(inputHistory) && historyIndex == old(historyIndex)
    {
      AddMessage(message, User, now);
      isLoading := true;
      statusMessage := "Claude is thinking...";
      AddMessage(Reply(message), Assistant, now);
      isLoading := false;
      statusMessage := "Ready for your next message";
    }

    /** `handle_key_event`: Esc without modifiers toggles between chat and leaving it; other keys go to the mode's handler. */
    method HandleKeyEvent(key: KeyEvent, now: nat)
      requires Valid()
      modifies this
      ensures Valid()
      ensures key.code.Esc? && key.noModifiers ==>
        mode == (if old(mode) == Chat then ExitConfirm else Chat)
        && messages == old(messages) && input == old(input) && !shouldQuit == !old(shouldQuit)
      ensures old(mode) == Help && !(key.code.Esc? && key.noModifiers) ==>
        mode == (if key.code.Esc? || key.code == Char('q') || key.code.Enter? then Chat else Help)
      ensures old(mode) == ExitConfirm && !(key.code.Esc? && key.noModifiers) ==>
        shouldQuit == (old(shouldQuit) || key.code in {Char('y'), Char('Y')})
        && mode == (if key.code in {Char('n'), Char('N'), Esc} then Chat else ExitConfirm)
      ensures old(mode) == Chat && key.code.Enter? && Trim(old(input)) != [] ==>
        inputHistory == old(inputHistory) + [old(input)] && historyIndex == None && input == []
        && messages == old(messages) + [ChatMessage(old(input), User, now, false), ChatMessage(Reply(old(input)), Assistant, now, false)]
      ensures old(mode) == Chat && key.code.Enter? && Trim(old(input)) == [] ==>
        input == old(input) && messages == old(messages) && inputHistory == old(inputHistory)
      ensures old(mode) == Chat && key.code.Up? ==>
        (input, historyIndex) == UpStep(old(input), old(inputHistory), old(historyIndex))
        && inputHistory == old(inputHistory) && messages == old(messages)
      ensures old(mode) == Chat && key.code.Backspace? ==>
        input == (if old(input) == [] then [] else old(input)[..|old(input)| - 1])
        && inputHistory == old(inputHistory) && messages == old(messages)
      ensures old(mode) == Chat && key.code.Char? && !(key.code.c == '?' && old(input) == []) ==>
        input == old(input) + [key.code.c] && inputHistory == old(inputHistory) && messages == old(messages)
      ensures old(mode) == Chat && key.code == Char('?') && old(input) == [] ==>
        mode == Help && input == [] && historyIndex == old(historyIndex)
      ensures old(mode) == Chat && key.code.Down? && old(historyIndex).Some? ==>
        var i := old(historyIndex).value;
        historyIndex == (if i < |inputHistory| - 1 then Some(i + 1) else None)
        && input == (if i < |inputHistory| - 1 then inputHistory[i + 1] else [])
      ensures old(mode) == Chat && key.code == Char('/') && old(input) == [] ==> historyIndex == old(historyIndex)
      ensures (old(mode) == Chat && !(key.code.Esc? && key.noModifiers)
               && (key.code.Backspace? || key.code.Esc? || key.code.OtherKey? || (key.code.Down? && old(historyIndex).None?)
                   || (key.code.Char? && !(key.code.c in "/?" && old(input) == [])))) ==>
        historyIndex == None
      ensures key.code.Esc? && key.noModifiers ==> historyIndex == old(historyIndex)
    {
      if key.code.Esc? && key.noModifiers {
        mode := if mode == Chat then ExitConfirm else Chat;
        return;
      }
      match mode {
        case Chat => HandleChatKey(key, now);
        case Help => HandleHelpKey(key);
        case ExitConfirm => HandleExitConfirmKey(key);
      }
    }

    /** Enter in chat mode: a non-blank input goes to the history and is sent, and the input is emptied. */
    method SubmitInput(now: nat)
      requires Valid()
      modifies this
      ensures Valid()
      ensures Trim(old(input)) != [] ==>
        inputHistory == old(inputHistory) + [old(input)] && historyIndex == None && input == []
        && messages == old(messages) + [ChatMessage(old(input), User, now, false), ChatMessage(Reply(old(input)), Assistant, now, false)]
      ensures Trim(old(input)) == [] ==>
        input == old(input) && messages == old(messages) && inputHistory == old(inputHistory) && historyIndex == old(historyIndex)
      ensures mode == old(mode) && shouldQuit == old(shouldQuit)
    {
      var message := input;
      if Trim(message) != [] {
        inputHistory := inputHistory + [message];
        historyIndex := None;
        SendMessage(message, now);
        input := [];
      }
    }

    /** Down in chat mode while an entry is selected: the next newer entry, or back to an empty input after the newest. */
    method HistoryDown()
      requires Valid() && historyIndex.Some?
      modifies this
      ensures Valid()
      ensures var i := old(historyIndex).value;
        historyIndex == (if i < |inputHistory| - 1 then Some(i + 1) else None)
        && input == (if i < |inputHistory| - 1 then inputHistory[i + 1] else [])
      ensures mode == old(mode) && shouldQuit == old(shouldQuit)
      ensures messages == old(messages) && messageScroll == old(messageScroll) && inputHistory == old(inputHistory)
    {
      var current := historyIndex.value;
      if current < |inputHistory| - 1 {
        historyIndex := Some(current + 1);
        input := inputHistory[current + 1];
      } else {
        historyIndex := None;
        input := [];
      }
    }

    /** `handle_chat_keys` (with the corrected Up guard). */
    method HandleChatKey(key: KeyEvent, now: nat)
      requires Valid()
      modifies this
      ensures Valid()
      ensures key.code.Enter? && Trim(old(input)) != [] ==>
        inputHistory == old(inputHistory) + [old(input)] && historyIndex == None && input == []
        && messages == old(messages) + [ChatMessage(old(input), User, now, false), ChatMessage(Reply(old(input)), Assistant, now, false)]
      ensures key.code.Enter? && Trim(old(input)) == [] ==>
        input == old(input) && messages == old(messages) && inputHistory == old(inputHistory)
      ensures key.code.Up? ==>
        (input, historyIndex) == UpStep(old(input), old(inputHistory), old(historyIndex))
        && inputHistory == old(inputHistory) && messages == old(messages)
      ensures key.code.Down? && old(historyIndex).Some? ==>
        var i := old(historyIndex).value;
        historyIndex == (if i < |inputHistory| - 1 then Some(i + 1) else None)
        && input == (if i < |inputHistory| - 1 then inputHistory[i + 1] else [])
      ensures key.code == Char('?') && old(input) == [] ==> mode == Help && input == [] && historyIndex == old(historyIndex)
      ensures key.code.Char? && !(key.code.c == '?' && old(input) == []) ==> input == old(input) + [key.code.c]
      ensures key.code.Backspace? ==> input == (if old(input) == [] then [] else old(input)[..|old(input)| - 1])
      ensures key.code == Char('/') && old(input) == [] ==> historyIndex == old(historyIndex)
      ensures (key.code.Backspace? || key.code.Esc? || key.code.OtherKey? || (key.code.Down? && old(historyIndex).None?)
               || (key.code.Char? && !(key.code.c in "/?" && old(input) == []))) ==>
        historyIndex == None
      ensures key.code.Esc? || key.code.OtherKey? || (key.code.Down? && old(historyIndex).None?) ==> input == old(input)
      ensures !key.code.Enter? ==> inputHistory == old(inputHistory) && messages == old(messages)
      ensures !(key.code == Char('?') && old(input) == []) ==> mode == old(mode)
      ensures shouldQuit == old(shouldQuit)
    {
      if key.code.Enter? {
        SubmitInput(now);
      } else if key.code.Up? {
        var (i, x) := UpStep(input, inputHistory, historyIndex);
        input := i;
        historyIndex := x;
      } else if key.code.Down? && historyIndex.Some? {
        HistoryDown();
      } else if key.code == Char('/') && input == [] {
        input := EditInput(input, key);
      } else if key.code == Char('?') && input == [] {
        mode := Help;
      } else {
        historyIndex := None;
        input := EditInput(input, key);
      }
    }

    /** `handle_help_keys`: Esc, 'q' or Enter return to chat. */
    method HandleHelpKey(key: KeyEvent)
      modifies this
      ensures mode == (if key.code.Esc? || key.code == Char('q') || key.code.Enter? then Chat else old(mode))
      ensures shouldQuit == old(shouldQuit) && input == old(input) && messages == old(messages)
      ensures messageScroll == old(messageScroll) && inputHistory == old(inputHistory) && historyIndex == old(historyIndex)
    {
      if key.code.Esc? || key.code == Char('q') || key.code.Enter? {
        mode := Chat;
      }
    }

    /** `handle_exit_confirm_keys`: 'y' quits; 'n' or Esc goes back to chat. */
    method HandleExitConfirmKey(key: KeyEvent)
      modifies this
      ensures shouldQuit == (old(shouldQuit) || key.code in {Char('y'), Char('Y')})
      ensures mode == (if key.code in {Char('n'), Char('N'), Esc} then Chat else old(mode))
      ensures key.code in {Char('n'), Char('N'), Esc} ==> statusMessage == "Exit cancelled"
      ensures input == old(input) && messages == old(messages)
      ensures messageScroll == old(messageScroll) && inputHistory == old(inputHistory) && historyIndex == old(historyIndex)
    {
      if key.code in {Char('y'), Char('Y')} {
        shouldQuit := true;
      } else if key.code in {Char('n'), Char('N'), Esc} {
        mode := Chat;
        statusMessage := "Exit cancelled";
      }
    }

    /** "/clear": only the confirmation remains, and the list scrolls back to the top. */
    method ClearConversation(cmd: string, now: nat)
      requires Valid()
      modifies this
      ensures Valid()
      ensures messages == [ChatMessage(ClearedReply, System, now, false)] && messageScroll == 0
      ensures statusMessage == "Command '" + cmd + "' executed"
      ensures mode == old(mode) && shouldQuit == old(shouldQuit) && input == old(input)
      ensures inputHistory == old(inputHistory) && historyIndex == old(historyIndex)
    {
      messages := [];
      messageScroll := 0;
      AddMessage(ClearedReply, System, now);
      statusMessage := "Command '" + cmd + "' executed";
    }

    /**
     * `execute_command`: text not starting with '/' is answered as a chat
     * message; a command is echoed as a user message and answered with a
     * system message, except "help" (the command list) and "exit"/"quit"
     * (which ask for confirmation).
     */
    method ExecuteCommand(command: string, now: nat, commandList: string)
      requires Valid()
      modifies this
      ensures Valid()
      ensures var cmd := Trim(command);
        !StartsWith(cmd, "/") ==>
          messages == old(messages) + [ChatMessage(cmd, User, now, false), ChatMessage(AssistantGreeting, Assistant, now, false)]
      ensures var cmd := Trim(command);
        StartsWith(cmd, "/") && KindOf(ToLowerAscii(cmd[1..])) == ClearCommand ==>
          messages == [ChatMessage(ClearedReply, System, now, false)] && messageScroll == 0
      ensures var cmd := Trim(command);
        StartsWith(cmd, "/") && KindOf(ToLowerAscii(cmd[1..])) == HelpCommand ==>
          messages == old(messages) + [ChatMessage(cmd, User, now, false), ChatMessage(commandList, System, now, false)]
      ensures var cmd := Trim(command);
        StartsWith(cmd, "/") && KindOf(ToLowerAscii(cmd[1..])) == ExitCommand ==>
          mode == ExitConfirm && messages == old(messages) + [ChatMessage(cmd, User, now, false)]
      ensures var cmd := Trim(command);
        StartsWith(cmd, "/") && KindOf(ToLowerAscii(cmd[1..])) == ReplyCommand ==>
          messages == old(messages) + [ChatMessage(cmd, User, now, false),
            ChatMessage(CommandReply(ToLowerAscii(cmd[1..]), cmd, old(mode), |old(messages)| + 1, |old(inputHistory)|), System, now, false)]
          && statusMessage == "Command '" + cmd + "' executed"
      ensures var cmd := Trim(command);
        !(StartsWith(cmd, "/") && KindOf(ToLowerAscii(cmd[1..])) == ExitCommand) ==> mode == old(mode)
      ensures inputHistory == old(inputHistory) && input == old(input) && historyIndex == old(historyIndex)
    {
      var cmd := Trim(command);
      if !StartsWith(cmd, "/") {
        AddMessage(cmd, User, now);
        AddMessage(AssistantGreeting, Assistant, now);
        return;
      }
      var name := ToLowerAscii(cmd[1..]);
      RunCommand(cmd, name, CommandReply(name, cmd, mode, |messages| + 1, |inputHistory|), now, commandList);
    }

    /**
     * The slash-command part of `execute_command`, given the lower-cased
     * command name and the reply a command other than "clear", "help",
     * "exit" and "quit" receives.
     */
    method RunCommand(cmd: string, name: string, reply: string, now: nat, commandList: string)
      requires Valid()
      modifies this
      ensures Valid()
      ensures KindOf(name) == ClearCommand ==> messages == [ChatMessage(ClearedReply, System, now, false)] && messageScroll == 0
      ensures KindOf(name) == HelpCommand ==>
        messages == old(messages) + [ChatMessage(cmd, User, now, false), ChatMessage(commandList, System, now, false)]
      ensures KindOf(name) == ExitCommand ==> mode == ExitConfirm && messages == old(messages) + [ChatMessage(cmd, User, now, false)]
      ensures KindOf(name) == ReplyCommand ==>
        messages == old(messages) + [ChatMessage(cmd, User, now, false), ChatMessage(reply, System, now, false)]
        && statusMessage == "Command '" + cmd + "' executed"
      ensures KindOf(name) != ExitCommand ==> mode == old(mode)
      ensures inputHistory == old(inputHistory) && input == old(input) && historyIndex == old(historyIndex)
    {
      AddMessage(cmd, User, now);
      match KindOf(name) {
        case ClearCommand => ClearConversation(cmd, now);
        case HelpCommand => AddMessage(commandList, System, now);
        case ExitCommand => mode := ExitConfirm;
        case ReplyCommand =>
          AddMessage(reply, System, now);
          statusMessage := "Command '" + cmd + "' executed";
      }
    }
  }
}
