/**
 * The agent loop: a status machine driven by steering messages, a response
 * channel to the caller, a message-count based compression check and the
 * system prompt built from the configured tools.
 *
 * The response channel is a sequence of sent responses plus a flag saying
 * whether the caller still holds the receiving end. The conversation is
 * represented by its message count, the only thing the loop reads from it.
 * The 100 ms waits are not modelled; a steering read that would wait
 * returns nothing, as the timeout makes it do.
 */
module Agent {
  import opened Wrappers
  import opened Errors
  import opened Text
  import JsonValue
  import Steering

  datatype AgentStatus =
    | NotStarted
    | Initializing
    | Running
    | WaitingForInput
    | ExecutingTool
    | Paused
    | Completed
    | Error(message: string)

  datatype AgentResponse =
    | StreamRequestStart
    | TextContent(content: string, isPartial: bool)
    | ToolCall(toolName: string, toolInput: JsonValue.Value, callId: string)
    | ToolResult(callId: string, result: JsonValue.Value, isError: bool)
    | StatusUpdate(status: AgentStatus, message: Option<string>)
    | ErrorResponse(error: string, errorCode: Option<string>)
    | CompletedResponse(finalResponse: string, metadata: map<string, JsonValue.Value>)

  /** The agent's execution context; the agent id is the caller-supplied UUID text. */
  datatype AgentContext = AgentContext(
    agentId: string,
    sessionId: string,
    toolsConfig: map<string, JsonValue.Value>,
    environment: map<string, string>,
    maxThinkingTokens: Option<nat>,
    fallbackModel: Option<string>)

  /** `AgentContext::new`: no tools, no environment, no token budget, no fallback model. */
  function NewContext(sessionId: string, agentId: string): (c: AgentContext)
    ensures c.sessionId == sessionId && c.agentId == agentId
    ensures c.toolsConfig == map[] && c.environment == map[]
    ensures c.maxThinkingTokens.None? && c.fallbackModel.None?
  {
    AgentContext(agentId, sessionId, map[], map[], None, None)
  }

  /** `with_tools_config`: replace the tool configuration and nothing else. */
  function WithToolsConfig(c: AgentContext, tools: map<string, JsonValue.Value>): (r: AgentContext)
    ensures r.toolsConfig == tools && r.(toolsConfig := c.toolsConfig) == c
  {
    c.(toolsConfig := tools)
  }

  /** `with_environment`: replace the environment and nothing else. */
  function WithEnvironment(c: AgentContext, env: map<string, string>): (r: AgentContext)
    ensures r.environment == env && r.(environment := c.environment) == c
  {
    c.(environment := env)
  }

  const CompressionThresholdPercent: nat := 92
  /** The fixed token budget and per-message token estimate of the compression check. */
  const AssumedMaxTokens: nat := 100000
  const TokensPerMessage: nat := 100

  const SendFailedMessage: string := "Failed to send agent response"
  const StopReason: string := "System stop command"
  const LoopErrorCode: string := "AGENT_LOOP_ERROR"
  const FinalResponse: string := "Agent execution completed"
  const CompressedMessage: string := "Context compressed successfully"
  const PromptBase: string := "You are Claude, an AI assistant created by Anthropic."
  const ToolsHeading: string := "\n\nAvailable tools:"
  const ToolPrefix: string := "\n- "

  /**
   * `check_compression_needed`: the estimated usage (100 tokens per message
   * out of 100000) strictly exceeds 92%, compared exactly.
   */
  function CompressionNeeded(enabled: bool, messageCount: nat): bool {
    enabled && 100 * (messageCount * TokensPerMessage) > CompressionThresholdPercent * AssumedMaxTokens
  }

  /** Compression is needed exactly when it is enabled and more than 920 messages are held. */
  lemma CompressionNeededAbove920(enabled: bool, messageCount: nat)
    ensures CompressionNeeded(enabled, messageCount) <==> enabled && messageCount > 920
    ensures !CompressionNeeded(enabled, 920)
  {
  }

  /** What a system control command does. */
  datatype ControlAction = ToStatus(status: AgentStatus) | RequestStop | Ignore

  /** `handle_system_control`: "pause", "resume" and "stop" act; anything else is ignored. */
  function ControlEffect(command: string): (a: ControlAction)
    ensures a.ToStatus? ==> a.status == Paused || a.status == Running
    ensures a.Ignore? <==> command != "pause" && command != "resume" && command != "stop"
  {
    if command == "pause" then ToStatus(Paused)
    else if command == "resume" then ToStatus(Running)
    else if command == "stop" then RequestStop
    else Ignore
  }

  /** One "\n- name" line per tool, in the given order. */
  function ToolLines(names: seq<string>): string {
    if names == [] then "" else ToolPrefix + names[0] + ToolLines(names[1..])
  }

  /** `generate_system_prompt`, with the tool names in the map's iteration order. */
  function SystemPrompt(names: seq<string>): string {
    PromptBase + (if names == [] then "" else ToolsHeading + ToolLines(names))
  }

  /** Every listed tool name appears on its own "- name" line. */
  lemma {:induction false} ToolLinesList(names: seq<string>, i: nat)
    requires i < |names|
    ensures Text.Contains(ToolLines(names), ToolPrefix + names[i])
  {
    if i == 0 {
      ContainsAt(ToolLines(names), ToolPrefix + names[0], 0);
    } else {
      ToolLinesList(names[1..], i - 1);
      ContainsInSuffix(ToolPrefix + names[0], ToolLines(names[1..]), ToolPrefix + names[i]);
    }
  }

  /**
   * The prompt starts with the base sentence; with no tools it is exactly
   * that sentence; otherwise it lists every tool.
   */
  lemma SystemPromptListsTools(names: seq<string>)
    ensures StartsWith(SystemPrompt(names), PromptBase)
    ensures names == [] ==> SystemPrompt(names) == PromptBase
    ensures forall i :: 0 <= i < |names| ==> Text.Contains(SystemPrompt(names), ToolPrefix + names[i])
  {
    var p := SystemPrompt(names);
    var tail := if names == [] then "" else ToolsHeading + ToolLines(names);
    assert p == PromptBase + tail;
    assert p[..|PromptBase|] == PromptBase;
    if names != [] {
      var lines := ToolLines(names);
      assert p == (PromptBase + ToolsHeading) + lines;
      forall i | 0 <= i < |names|
        ensures Text.Contains(p, ToolPrefix + names[i])
      {
        ToolLinesList(names, i);
        ContainsInSuffix(PromptBase + ToolsHeading, lines, ToolPrefix + names[i]);
      }
    }
  }

  /** `names` enumerates the keys of `m`, each once: a possible iteration order of the map. */
  ghost predicate Enumerates<V>(names: seq<string>, m: map<string, V>) {
    && (forall i, j :: 0 <= i < j < |names| ==> names[i] != names[j])
    && (forall k :: k in m <==> k in names)
  }

  /** A map is empty exactly when its enumeration is. */
  lemma EnumeratesEmpty<V>(names: seq<string>, m: map<string, V>)
    requires Enumerates(names, m)
    ensures names == [] <==> |m| == 0
  {
    if names != [] {
      assert names[0] in m;
    } else {
      assert m.Keys == {};
    }
  }

  /** What a cycle reads and changes: the status, the responses sent, the steering queue and the interrupt signals. */
  datatype LoopState = LoopState(
    status: AgentStatus,
    responses: seq<AgentResponse>,
    queue: Steering.QueueState<Steering.SteeringMessage>,
    pending: nat)

  /** `send_response`: appended while the receiver is held, else refused. */
  function SendStep(s: LoopState, open: bool, r: AgentResponse): (LoopState, Result<(), ClaudeError>) {
    if open then (s.(responses := s.responses + [r]), Ok(())) else (s, Err(General(SendFailedMessage)))
  }

  /** `set_status`: the status is stored and reported; a refused report is ignored. */
  function StatusStep(s: LoopState, open: bool, st: AgentStatus): LoopState {
    SendStep(s.(status := st), open, StatusUpdate(st, None)).0
  }

  /** `send_interrupt`: the interrupt is queued and, once accepted, signalled. */
  function InterruptStep(s: LoopState, reason: string): (LoopState, Result<(), ClaudeError>) {
    var (q, r) := Steering.EnqueueStep(s.queue, Steering.Interrupt(reason));
    (s.(queue := q, pending := s.pending + (if r.Ok? then 1 else 0)), r)
  }

  /** `handle_steering_message` on the loop's state. */
  function HandleStep(s: LoopState, open: bool, m: Steering.SteeringMessage): (LoopState, Result<(), ClaudeError>) {
    match m
    case UserInput(content, _) => SendStep(s, open, TextContent("Processing user input: " + content, false))
    case SystemControl(command, _) =>
      (match ControlEffect(command)
       case ToStatus(st) => (StatusStep(s, open, st), Ok(()))
       case RequestStop => InterruptStep(s, StopReason)
       case Ignore => (s, Ok(())))
    case Interrupt(reason) => InterruptStep(s, reason)
    case StatusUpdate(_, _) => (s, Ok(()))
  }

  /** The steering step of a cycle: take at most one message without waiting and handle it. */
  function SteerStep(s: LoopState, open: bool): (LoopState, Result<(), ClaudeError>) {
    var (q, got) := Steering.DequeueTimeoutStep(s.queue);
    if got.Err? then (s.(queue := q), Err(got.error))
    else if got.value.None? then (s.(queue := q), Ok(()))
    else HandleStep(s.(queue := q), open, got.value.value)
  }

  /** `generate_conversation_stream`: a partial text and a final one; a refused send stops it. */
  function StreamStep(s: LoopState, open: bool): (LoopState, Result<(), ClaudeError>) {
    var (s1, g) := SendStep(s, open, TextContent("Generating response...", true));
    if g.Err? then (s1, g) else SendStep(s1, open, TextContent("Response generated successfully.", false))
  }

  /**
   * `execute_cycle`: report Running, compress when `compress` holds, steer,
   * stream, and ask to continue; the first failing step ends the cycle.
   */
  function CycleStep(s: LoopState, open: bool, compress: bool): (LoopState, Result<bool, ClaudeError>) {
    var s1 := StatusStep(s, open, Running);
    var (s2, c) := if compress then SendStep(s1, open, StatusUpdate(Running, Some(CompressedMessage))) else (s1, Ok(()));
    if c.Err? then (s2, Err(c.error))
    else
      var (s3, h) := SteerStep(s2, open);
      if h.Err? then (s3, Err(h.error))
      else
        var (s4, g) := StreamStep(s3, open);
        if g.Err? then (s4, Err(g.error)) else (s4, Ok(true))
  }

  /**
   * What a cycle promises: responses only grow, interrupts are only added, a
   * successful cycle leaves the loop Running or Paused and asks to go on, a
   * stored error ends it with that error, and an interrupt at the head of
   * the queue is signalled unless the cycle fails.
   */
  lemma CycleOutcome(s: LoopState, open: bool, compress: bool)
    ensures var (t, r) := CycleStep(s, open, compress);
      && (r.Ok? ==> r.value && (t.status == Running || t.status == Paused))
      && s.responses <= t.responses
      && t.pending >= s.pending
      && (open && s.queue.error.None? && !s.queue.done ==> r.Ok?)
      && (open && s.queue.error.Some? ==> r == Err(Clone(s.queue.error.value)))
      && (s.queue.error.Some? ==> r.Err?)
      && (s.queue.error.None? && s.queue.items != [] && RaisesInterrupt(s.queue.items[0]) ==> r.Err? || t.pending > s.pending)
  {
    var s1 := StatusStep(s, open, Running);
    var (s2, c) := if compress then SendStep(s1, open, StatusUpdate(Running, Some(CompressedMessage))) else (s1, Ok(()));
    SteerOutcome(s2, open);
  }

  /** The steering step: the same promises for at most one message. */
  lemma SteerOutcome(s: LoopState, open: bool)
    ensures var (t, r) := SteerStep(s, open);
      && (r.Ok? ==> t.status == s.status || t.status == Running || t.status == Paused)
      && s.responses <= t.responses
      && t.pending >= s.pending
      && (open && s.queue.error.None? && !s.queue.done ==> r.Ok?)
      && (s.queue.error.Some? ==> r == Err(Clone(s.queue.error.value)))
      && (s.queue.error.None? && s.queue.items != [] && RaisesInterrupt(s.queue.items[0]) ==> r.Err? || t.pending > s.pending)
  {
  }

  /**
   * One turn of `run`'s loop on the loop's state: a failed cycle reports
   * the error status and an error response and stops; a successful one
   * stops when an interrupt is signalled, consuming the signal.
   */
  function TurnStep(s: LoopState, open: bool, compress: bool): (LoopState, bool) {
    var (t, c) := CycleStep(s, open, compress);
    if c.Err? then
      var failed := Error(Display(c.error));
      (SendStep(StatusStep(t, open, failed), open, ErrorResponse(Display(c.error), Some(LoopErrorCode))).0, true)
    else if t.pending > 0 then (t.(pending := t.pending - 1), true)
    else (t, false)
  }

  /** A turn stops at once when the queue holds an error, a signal is pending or an interrupt is next. */
  lemma TurnOutcome(s: LoopState, open: bool, compress: bool)
    ensures var (t, stopped) := TurnStep(s, open, compress);
      && s.responses <= t.responses
      && (StopsAtOnce(s.queue, s.pending) ==> stopped)
  {
    CycleOutcome(s, open, compress);
  }

  /** `AgentLoop`. */
  class AgentLoop {
    const context: AgentContext
    const steering: Steering.SteeringController
    var status: AgentStatus
    /** Responses sent so far, and whether the receiving end is still held. */
    var responses: seq<AgentResponse>
    var receiverOpen: bool
    var compressionEnabled: bool
    /** The message count of the conversation the loop consults. */
    var conversationLength: nat

    /** `AgentLoop::new`: not started, compression on, a fresh steering controller. */
    constructor (context: AgentContext, conversationLength: nat)
      ensures this.context == context && this.conversationLength == conversationLength
      ensures status == NotStarted && compressionEnabled
      ensures responses == [] && receiverOpen
      ensures fresh(steering) && fresh(steering.queue)
      ensures steering.queue.State() == Steering.EmptyQueue<Steering.SteeringMessage>()
      ensures steering.pendingInterrupts == 0 && !steering.queue.hasCleanup
    {
      this.context := context;
      this.conversationLength := conversationLength;
      steering := new Steering.SteeringController();
      status := NotStarted;
      responses := [];
      receiverOpen := true;
      compressionEnabled := true;
    }

    /** The part of the loop a cycle reads and changes. */
    function Snapshot(): LoopState
      reads this, steering, steering.queue
    {
      LoopState(status, responses, steering.queue.State(), steering.pendingInterrupts)
    }

    method GetStatus() returns (s: AgentStatus)
      ensures s == status
    {
      s := status;
    }

    /** `send_response`: fails only when the receiver is gone. */
    method SendResponse(r: AgentResponse) returns (res: Result<(), ClaudeError>)
      modifies this`responses
      ensures (Snapshot(), res) == SendStep(old(Snapshot()), receiverOpen, r)
      ensures res.Ok? <==> receiverOpen
      ensures res.Err? ==> res.error == General(SendFailedMessage)
      ensures responses == if receiverOpen then old(responses) + [r] else old(responses)
    {
      if receiverOpen {
        responses := responses + [r];
        res := Ok(());
      } else {
        res := Err(General(SendFailedMessage));
      }
    }

    /** `set_status`: store the status and report it, ignoring a closed channel. */
    method SetStatus(s: AgentStatus)
      modifies this`status, this`responses
      ensures Snapshot() == StatusStep(old(Snapshot()), receiverOpen, s)
      ensures status == s
      ensures responses == if receiverOpen then old(responses) + [StatusUpdate(s, None)] else old(responses)
    {
      status := s;
      var _ := SendResponse(StatusUpdate(s, None));
    }

    method CheckCompressionNeeded() returns (r: Result<bool, ClaudeError>)
      ensures r == Ok(CompressionNeeded(compressionEnabled, conversationLength))
    {
      if !compressionEnabled {
        return Ok(false);
      }
      var tokenUsage := conversationLength * TokensPerMessage;
      r := Ok(100 * tokenUsage > CompressionThresholdPercent * AssumedMaxTokens);
    }

    /** `perform_compression`: only reports the compression. */
    method PerformCompression() returns (r: Result<(), ClaudeError>)
      modifies this`responses
      ensures (Snapshot(), r) == SendStep(old(Snapshot()), receiverOpen, StatusUpdate(Running, Some(CompressedMessage)))
      ensures r.Ok? <==> receiverOpen
      ensures responses == if receiverOpen then old(responses) + [StatusUpdate(Running, Some(CompressedMessage))] else old(responses)
    {
      r := SendResponse(StatusUpdate(Running, Some(CompressedMessage)));
    }

    method HandleSystemControl(command: string, params: JsonValue.Value) returns (r: Result<(), ClaudeError>)
      modifies this`status, this`responses, steering.queue`items, steering`pendingInterrupts
      ensures (Snapshot(), r) == HandleStep(old(Snapshot()), receiverOpen, Steering.SystemControl(command, params))
      ensures match ControlEffect(command)
        case ToStatus(s) =>
          && r.Ok? && status == s
          && responses == (if receiverOpen then old(responses) + [StatusUpdate(s, None)] else old(responses))
          && steering.queue.items == old(steering.queue.items)
          && steering.pendingInterrupts == old(steering.pendingInterrupts)
        case RequestStop =>
          && status == old(status) && responses == old(responses)
          && (steering.queue.State(), r) == Steering.EnqueueStep(old(steering.queue.State()), Steering.Interrupt(StopReason))
          && steering.pendingInterrupts == old(steering.pendingInterrupts) + (if r.Ok? then 1 else 0)
        case Ignore =>
          && r.Ok? && status == old(status) && responses == old(responses)
          && steering.queue.items == old(steering.queue.items)
          && steering.pendingInterrupts == old(steering.pendingInterrupts)
    {
      if command == "pause" {
        SetStatus(Paused);
        r := Ok(());
      } else if command == "resume" {
        SetStatus(Running);
        r := Ok(());
      } else if command == "stop" {
        r := steering.SendInterrupt(StopReason);
      } else {
        r := Ok(());
      }
    }

    /**
     * `handle_steering_message`: user input is echoed, control commands are
     * applied, an interrupt is sent on (queued again and signalled), status
     * updates are only logged.
     */
    method HandleSteeringMessage(m: Steering.SteeringMessage) returns (r: Result<(), ClaudeError>)
      modifies this`status, this`responses, steering.queue`items, steering`pendingInterrupts
      ensures (Snapshot(), r) == HandleStep(old(Snapshot()), receiverOpen, m)
      ensures old(responses) <= responses
      ensures m.UserInput? ==>
        && (r.Ok? <==> receiverOpen) && status == old(status)
        && responses == (if receiverOpen then old(responses) + [TextContent("Processing user input: " + m.content, false)] else old(responses))
        && steering.queue.items == old(steering.queue.items)
        && steering.pendingInterrupts == old(steering.pendingInterrupts)
      ensures (m.Interrupt? || (m.SystemControl? && ControlEffect(m.command).RequestStop?)) ==>
        && status == old(status) && responses == old(responses)
        && (steering.queue.State(), r) == Steering.EnqueueStep(old(steering.queue.State()),
             Steering.Interrupt(if m.Interrupt? then m.reason else StopReason))
        && steering.pendingInterrupts == old(steering.pendingInterrupts) + (if r.Ok? then 1 else 0)
      ensures m.SystemControl? && ControlEffect(m.command).ToStatus? ==>
        && r.Ok? && status == ControlEffect(m.command).status
        && steering.queue.items == old(steering.queue.items)
        && steering.pendingInterrupts == old(steering.pendingInterrupts)
      ensures (m.StatusUpdate? || (m.SystemControl? && ControlEffect(m.command).Ignore?)) ==>
        && r.Ok? && status == old(status) && responses == old(responses)
        && steering.queue.items == old(steering.queue.items)
        && steering.pendingInterrupts == old(steering.pendingInterrupts)
    {
      match m
      case UserInput(content, _) =>
        r := SendResponse(TextContent("Processing user input: " + content, false));
      case SystemControl(command, params) =>
        r := HandleSystemControl(command, params);
      case Interrupt(reason) =>
        r := steering.SendInterrupt(reason);
      case StatusUpdate(_, _) =>
        r := Ok(());
    }

    /** `generate_system_prompt`, given the iteration order of the tool map. */
    method GenerateSystemPrompt(order: seq<string>) returns (r: Result<string, ClaudeError>)
      requires Enumerates(order, context.toolsConfig)
      ensures r == Ok(SystemPrompt(order))
    {
      EnumeratesEmpty(order, context.toolsConfig);
      var prompt := PromptBase;
      if |context.toolsConfig| != 0 {
        prompt := prompt + ToolsHeading;
        var i := 0;
        assert order[i..] == order;
        assert prompt + ToolLines(order) == PromptBase + (ToolsHeading + ToolLines(order));
        while i < |order|
          invariant 0 <= i <= |order|
          invariant prompt + ToolLines(order[i..]) == SystemPrompt(order)
        {
          assert order[i..][1..] == order[i + 1..];
          prompt := prompt + ToolPrefix + order[i];
          i := i + 1;
        }
        assert order[i..] == [];
        assert prompt + "" == prompt;
      } else {
        assert SystemPrompt(order) == PromptBase + "";
        assert PromptBase + "" == PromptBase;
      }
      r := Ok(prompt);
    }

    /** `generate_conversation_stream`: two text responses, the first partial; a failed send stops it. */
    method GenerateConversationStream() returns (r: Result<(), ClaudeError>)
      modifies this`responses
      ensures (Snapshot(), r) == StreamStep(old(Snapshot()), receiverOpen)
      ensures r.Ok? <==> receiverOpen
      ensures responses == if receiverOpen
        then old(responses) + [TextContent("Generating response...", true), TextContent("Response generated successfully.", false)]
        else old(responses)
    {
      r := SendResponse(TextContent("Generating response...", true));
      if r.Err? {
        return;
      }
      r := SendResponse(TextContent("Response generated successfully.", false));
    }

    /** The steering step of a cycle: read at most one message without waiting and handle it. */
    method ProcessSteering() returns (r: Result<(), ClaudeError>)
      modifies this`status, this`responses, steering.queue`items, steering`pendingInterrupts
      ensures (Snapshot(), r) == SteerStep(old(Snapshot()), receiverOpen)
      ensures old(responses) <= responses
      ensures steering.pendingInterrupts >= old(steering.pendingInterrupts)
      ensures r.Ok? ==> status == old(status) || status == Running || status == Paused
      ensures receiverOpen && old(steering.queue.errorState).None? && !steering.queue.isDone ==> r.Ok?
      ensures old(steering.queue.errorState).Some? ==> r == Err(Clone(old(steering.queue.errorState).value))
      ensures old(steering.queue.errorState).None? && old(steering.queue.items) != [] && RaisesInterrupt(old(steering.queue.items)[0]) ==>
        r.Err? || steering.pendingInterrupts > old(steering.pendingInterrupts)
    {
      var received := steering.ReceiveMessageTimeout();
      if received.Err? {
        return Err(received.error);
      }
      r := Ok(());
      if received.value.Some? {
        r := HandleSteeringMessage(received.value.value);
      }
    }

    /**
     * `execute_cycle`: set Running, compress if needed, handle at most one
     * steering message, build the prompt, stream, and ask to continue. The
     * first failing step ends the cycle with its error.
     */
    method ExecuteCycle(order: seq<string>) returns (r: Result<bool, ClaudeError>)
      requires Enumerates(order, context.toolsConfig)
      modifies this`status, this`responses, steering.queue`items, steering`pendingInterrupts
      ensures (Snapshot(), r) == CycleStep(old(Snapshot()), receiverOpen, CompressionNeeded(compressionEnabled, conversationLength))
      ensures r.Ok? ==> r.value
      ensures old(responses) <= responses
      ensures steering.pendingInterrupts >= old(steering.pendingInterrupts)
      ensures r.Ok? ==> status == Running || status == Paused
      ensures old(receiverOpen) && old(steering.queue.errorState).None? && !old(steering.queue.isDone) ==> r.Ok?
      ensures old(receiverOpen) && old(steering.queue.errorState).Some? ==>
        r == Err(Clone(old(steering.queue.errorState).value))
      ensures old(steering.queue.errorState).Some? ==> r.Err?
      ensures old(steering.queue.errorState).None? && old(steering.queue.items) != [] && RaisesInterrupt(old(steering.queue.items)[0]) ==>
        r.Err? || steering.pendingInterrupts > old(steering.pendingInterrupts)
    {
      CycleOutcome(Snapshot(), receiverOpen, CompressionNeeded(compressionEnabled, conversationLength));
      SetStatus(Running);
      var needs := CheckCompressionNeeded();
      if needs.value {
        var c := PerformCompression();
        if c.Err? {
          return Err(c.error);
        }
      }
      var steered := ProcessSteering();
      if steered.Err? {
        return Err(steered.error);
      }
      var prompt := GenerateSystemPrompt(order);
      var s := GenerateConversationStream();
      if s.Err? {
        return Err(s.error);
      }
      r := Ok(true);
    }

    /**
     * `run`, bounded to `maxCycles` cycles: `Pending` means the loop was
     * still going when the bound was reached. Otherwise the loop ended on an
     * error (reported with code AGENT_LOOP_ERROR) or on an interrupt, and
     * the status ends as Completed unless a response could not be sent.
     * When the first cycle meets a stored error, a pending interrupt or an
     * interrupt or "stop" at the head of the queue, one cycle is enough.
     */
    method Run(order: seq<string>, maxCycles: nat) returns (r: Steering.Poll<Result<(), ClaudeError>>)
      requires Enumerates(order, context.toolsConfig)
      modifies this`status, this`responses, steering.queue`items, steering`pendingInterrupts
      ensures !receiverOpen ==> r == Steering.Ready(Err(General(SendFailedMessage))) && responses == old(responses)
      ensures receiverOpen && r.Ready? ==>
        && r.value == Ok(())
        && status == Completed
        && old(responses) + [StreamRequestStart] <= responses
        && responses[|responses| - 1] == CompletedResponse(FinalResponse, map[])
      ensures receiverOpen && maxCycles > 0 && StopsAtOnce(old(steering.queue.State()), old(steering.pendingInterrupts)) ==>
        r.Ready?
    {
      var start := SendResponse(StreamRequestStart);
      if start.Err? {
        return Steering.Ready(Err(start.error));
      }
      SetStatus(Initializing);
      var cycles := 0;
      var stopped := false;
      while !stopped && cycles < maxCycles
        invariant cycles <= maxCycles
        invariant old(responses) + [StreamRequestStart] <= responses
        invariant cycles == 0 ==>
          (!stopped
           && steering.queue.State() == old(steering.queue.State())
           && steering.pendingInterrupts == old(steering.pendingInterrupts))
        invariant cycles > 0 && StopsAtOnce(old(steering.queue.State()), old(steering.pendingInterrupts)) ==> stopped
        decreases maxCycles - cycles, !stopped
      {
        stopped := RunCycle(order);
        cycles := cycles + 1;
      }
      if !stopped {
        return Steering.Pending;
      }
      SetStatus(Completed);
      var done := SendResponse(CompletedResponse(FinalResponse, map[]));
      r := Steering.Ready(Ok(()));
    }

    /**
     * One turn of `run`'s loop: a cycle, then a failed cycle is reported as
     * an error and ends the loop, and a successful one ends it when an
     * interrupt is signalled.
     */
    method RunCycle(order: seq<string>) returns (stopped: bool)
      requires Enumerates(order, context.toolsConfig)
      modifies this`status, this`responses, steering.queue`items, steering`pendingInterrupts
      ensures old(responses) <= responses
      ensures StopsAtOnce(old(steering.queue.State()), old(steering.pendingInterrupts)) ==> stopped
      ensures (Snapshot(), stopped) == TurnStep(old(Snapshot()), receiverOpen, CompressionNeeded(compressionEnabled, conversationLength))
    {
      TurnOutcome(Snapshot(), receiverOpen, CompressionNeeded(compressionEnabled, conversationLength));
      var outcome := ExecuteCycle(order);
      if outcome.Err? {
        SetStatus(Error(Display(outcome.error)));
        var sent := SendResponse(ErrorResponse(Display(outcome.error), Some(LoopErrorCode)));
        stopped := true;
      } else {
        stopped := steering.CheckInterrupt();
      }
    }
  }

  /** Messages whose handling raises the interrupt signal: an interrupt, or the "stop" command. */
  predicate RaisesInterrupt(m: Steering.SteeringMessage) {
    m.Interrupt? || (m.SystemControl? && ControlEffect(m.command).RequestStop?)
  }

  /**
   * A run whose first cycle ends it: the queue holds an error, an interrupt
   * is already signalled, or the next message raises one.
   */
  predicate StopsAtOnce(s: Steering.QueueState<Steering.SteeringMessage>, pending: nat) {
    pending > 0 || s.error.Some? || (s.items != [] && RaisesInterrupt(s.items[0]))
  }

  /**
   * A queued "stop" command ends the loop after one cycle: the cycle sends
   * the interrupt, the check after it sees the signal, and the run completes.
   */
  method StopCommandScenario() returns (r: Steering.Poll<Result<(), ClaudeError>>, final: AgentStatus)
    ensures r == Steering.Ready(Ok(())) && final == Completed
  {
    var a := new AgentLoop(NewContext("test-session", "agent"), 0);
    var q := a.steering.SendSystemControl("stop", JsonValue.Null);
    assert a.steering.queue.items == [Steering.SystemControl("stop", JsonValue.Null)];
    assert StopsAtOnce(a.steering.queue.State(), a.steering.pendingInterrupts);
    r := a.Run([], 1);
    final := a.status;
  }
}
