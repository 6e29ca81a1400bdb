/**
 * The steering layer: an asynchronous FIFO message queue with a done flag
 * and a sticky error, the controller that feeds it (user input, system
 * control, interrupts with a separate interrupt signal) and the session that
 * owns a controller.
 *
 * A `dequeue` that would wait for a notification is modelled as `Pending`;
 * the timeout variant turns that wait into `Ok(None)`.
 */
module Steering {
  import opened Wrappers
  import opened Errors
  import JsonValue

  /** The outcome of one attempt to read: a value, or a wait for a notification. */
  datatype Poll<T> = Ready(value: T) | Pending

  datatype SteeringMessage =
    | UserInput(content: string, timestamp: nat)
    | SystemControl(command: string, params: JsonValue.Value)
    | Interrupt(reason: string)
    | StatusUpdate(status: string, data: JsonValue.Value)

  const QueueDoneMessage: string := "Queue is already done"

  /** The abstract state of a queue: the buffered items, the done flag, the stored error. */
  datatype QueueState<T> = QueueState(items: seq<T>, done: bool, error: Option<ClaudeError>)

  function EmptyQueue<T>(): QueueState<T> {
    QueueState([], false, None)
  }

  /**
   * `enqueue`: refused once done, then refused with a clone of the stored
   * error, else appended.
   */
  function EnqueueStep<T>(s: QueueState<T>, m: T): (QueueState<T>, Result<(), ClaudeError>) {
    if s.done then (s, Err(General(QueueDoneMessage)))
    else if s.error.Some? then (s, Err(Clone(s.error.value)))
    else (s.(items := s.items + [m]), Ok(()))
  }

  /**
   * One round of the `dequeue` loop: the stored error first, then the front
   * item, then `None` if done; otherwise the reader waits.
   */
  function DequeueStep<T>(s: QueueState<T>): (QueueState<T>, Poll<Result<Option<T>, ClaudeError>>) {
    if s.error.Some? then (s, Ready(Err(Clone(s.error.value))))
    else if s.items != [] then (s.(items := s.items[1..]), Ready(Ok(Some(s.items[0]))))
    else if s.done then (s, Ready(Ok(None)))
    else (s, Pending)
  }

  /** `dequeue_timeout`: a wait that the timeout cuts short yields `Ok(None)`. */
  function DequeueTimeoutStep<T>(s: QueueState<T>): (QueueState<T>, Result<Option<T>, ClaudeError>) {
    var (s', p) := DequeueStep(s);
    (s', if p.Pending? then Ok(None) else p.value)
  }

  /** Enqueue every message in order, stopping the effect at the first refusal. */
  function EnqueueAll<T>(s: QueueState<T>, ms: seq<T>): QueueState<T>
    decreases |ms|
  {
    if ms == [] then s else EnqueueAll(EnqueueStep(s, ms[0]).0, ms[1..])
  }

  /** Dequeue `n` times, collecting what each round returned. */
  function DequeueN<T>(s: QueueState<T>, n: nat): (seq<Poll<Result<Option<T>, ClaudeError>>>, QueueState<T>)
    decreases n
  {
    if n == 0 then ([], s)
    else
      var (s', p) := DequeueStep(s);
      var (rest, s'') := DequeueN(s', n - 1);
      ([p] + rest, s'')
  }

  /** What a reader receives for each item, in order. */
  function Received<T>(ms: seq<T>): (r: seq<Poll<Result<Option<T>, ClaudeError>>>)
    ensures |r| == |ms|
    ensures forall i :: 0 <= i < |ms| ==> r[i] == Ready(Ok(Some(ms[i])))
  {
    if ms == [] then [] else [Ready(Ok(Some(ms[0])))] + Received(ms[1..])
  }

  /** Enqueueing is refused exactly when the queue is done or holds an error, and a refusal changes nothing. */
  lemma EnqueueRefusal<T>(s: QueueState<T>, m: T)
    ensures EnqueueStep(s, m).1.Err? <==> s.done || s.error.Some?
    ensures s.done ==> EnqueueStep(s, m) == (s, Err(General(QueueDoneMessage)))
    ensures EnqueueStep(s, m).1.Ok? ==> EnqueueStep(s, m).0.items == s.items + [m]
  {
  }

  /** On a healthy queue, enqueueing a list appends it. */
  lemma {:induction false} EnqueueAllAppends<T>(s: QueueState<T>, ms: seq<T>)
    requires !s.done && s.error.None?
    ensures EnqueueAll(s, ms) == s.(items := s.items + ms)
    decreases |ms|
  {
    if ms != [] {
      var s1 := EnqueueStep(s, ms[0]).0;
      EnqueueAllAppends(s1, ms[1..]);
      assert s.items + [ms[0]] + ms[1..] == s.items + ms;
    }
  }

  /** Dequeueing from a healthy queue returns its items front to back. */
  lemma {:induction false} DequeueDrains<T>(s: QueueState<T>)
    requires s.error.None?
    ensures DequeueN(s, |s.items|) == (Received(s.items), s.(items := []))
    decreases |s.items|
  {
    if s.items != [] {
      var s' := s.(items := s.items[1..]);
      DequeueDrains(s');
    }
  }

  /** FIFO: what is enqueued into an empty healthy queue is dequeued in the same order. */
  lemma Fifo<T>(ms: seq<T>)
    ensures var s := EnqueueAll(EmptyQueue<T>(), ms);
      s.items == ms && DequeueN(s, |ms|).0 == Received(ms)
  {
    EnqueueAllAppends(EmptyQueue<T>(), ms);
    DequeueDrains(EnqueueAll(EmptyQueue<T>(), ms));
  }

  /** A done queue with no items and no error answers `None` at once. */
  lemma DoneEmptyGivesNone<T>(s: QueueState<T>)
    requires s.done && s.items == [] && s.error.None?
    ensures DequeueStep(s) == (s, Ready(Ok(None)))
    ensures DequeueTimeoutStep(s) == (s, Ok(None))
  {
  }

  /** A stored error (cloned) is reported before any queued item, and consumes nothing. */
  lemma ErrorHasPriority<T>(s: QueueState<T>)
    requires s.error.Some?
    ensures DequeueStep(s) == (s, Ready(Err(Clone(s.error.value))))
  {
  }

  /** The reader waits exactly when the queue is empty, not done and healthy. */
  lemma PendingExactly<T>(s: QueueState<T>)
    ensures DequeueStep(s).1.Pending? <==> s.items == [] && !s.done && s.error.None?
  {
  }

  /** Enqueue and dequeue never clear the done flag or the stored error. */
  lemma FlagsAreSticky<T>(s: QueueState<T>, m: T)
    ensures EnqueueStep(s, m).0.done == s.done && EnqueueStep(s, m).0.error == s.error
    ensures DequeueStep(s).0.done == s.done && DequeueStep(s).0.error == s.error
  {
  }

  /** `AsyncMessageQueue`. */
  class AsyncMessageQueue<T> {
    var items: seq<T>
    var isDone: bool
    var errorState: Option<ClaudeError>
    /** Whether a cleanup callback is installed, and how often `done` has run it. */
    var hasCleanup: bool
    var cleanupRuns: nat

    function State(): QueueState<T>
      reads this
    {
      QueueState(items, isDone, errorState)
    }

    /** `AsyncMessageQueue::new`: empty, not done, no error, no callback. */
    constructor ()
      ensures State() == EmptyQueue<T>()
      ensures !hasCleanup && cleanupRuns == 0
    {
      items := [];
      isDone := false;
      errorState := None;
      hasCleanup := false;
      cleanupRuns := 0;
    }

    /** `with_cleanup`: install the callback `done` will run. */
    method WithCleanup()
      modifies this`hasCleanup
      ensures hasCleanup
    {
      hasCleanup := true;
    }

    method Enqueue(m: T) returns (r: Result<(), ClaudeError>)
      modifies this`items
      ensures (State(), r) == EnqueueStep(old(State()), m)
    {
      if isDone {
        return Err(General(QueueDoneMessage));
      }
      if errorState.Some? {
        return Err(Clone(errorState.value));
      }
      items := items + [m];
      r := Ok(());
    }

    method Dequeue() returns (r: Poll<Result<Option<T>, ClaudeError>>)
      modifies this`items
      ensures (State(), r) == DequeueStep(old(State()))
    {
      if errorState.Some? {
        return Ready(Err(Clone(errorState.value)));
      }
      if items != [] {
        var m := items[0];
        items := items[1..];
        return Ready(Ok(Some(m)));
      }
      if isDone {
        return Ready(Ok(None));
      }
      r := Pending;
    }

    method DequeueTimeout() returns (r: Result<Option<T>, ClaudeError>)
      modifies this`items
      ensures (State(), r) == DequeueTimeoutStep(old(State()))
    {
      var p := Dequeue();
      r := if p.Pending? then Ok(None) else p.value;
    }

    /** `done`: set the flag and run the cleanup callback if one is installed. */
    method Done()
      modifies this`isDone, this`cleanupRuns
      ensures State() == old(State()).(done := true)
      ensures cleanupRuns == old(cleanupRuns) + (if hasCleanup then 1 else 0)
    {
      isDone := true;
      if hasCleanup {
        cleanupRuns := cleanupRuns + 1;
      }
    }

    /** `set_error`: store the error, replacing any earlier one. */
    method SetError(e: ClaudeError)
      modifies this`errorState
      ensures State() == old(State()).(error := Some(e))
    {
      errorState := Some(e);
    }

    method IsEmpty() returns (r: bool)
      ensures r <==> |State().items| == 0
    {
      r := items == [];
    }

    method Len() returns (n: nat)
      ensures n == |State().items|
    {
      n := |items|;
    }

    method IsDone() returns (r: bool)
      ensures r == State().done
    {
      r := isDone;
    }
  }

  /** `SteeringController`: the queue, the interrupt signal channel and the real-time switch. */
  class SteeringController {
    const queue: AsyncMessageQueue<SteeringMessage>
    /** Interrupt signals sent and not yet received (an unbounded channel). */
    var pendingInterrupts: nat
    var realTimeEnabled: bool

    /** `SteeringController::new`: a fresh queue, no signals, real-time mode on. */
    constructor ()
      ensures fresh(queue) && queue.State() == EmptyQueue<SteeringMessage>()
      ensures !queue.hasCleanup && pendingInterrupts == 0 && realTimeEnabled
    {
      queue := new AsyncMessageQueue<SteeringMessage>();
      pendingInterrupts := 0;
      realTimeEnabled := true;
    }

    method SetRealTimeMode(enabled: bool)
      modifies this`realTimeEnabled
      ensures realTimeEnabled == enabled
    {
      realTimeEnabled := enabled;
    }

    /** `send_user_input`, with the clock reading passed in as `now`. */
    method SendUserInput(content: string, now: nat) returns (r: Result<(), ClaudeError>)
      modifies queue`items
      ensures (queue.State(), r) == EnqueueStep(old(queue.State()), UserInput(content, now))
    {
      r := queue.Enqueue(UserInput(content, now));
    }

    method SendSystemControl(command: string, params: JsonValue.Value) returns (r: Result<(), ClaudeError>)
      modifies queue`items
      ensures (queue.State(), r) == EnqueueStep(old(queue.State()), SystemControl(command, params))
    {
      r := queue.Enqueue(SystemControl(command, params));
    }

    /**
     * `send_interrupt`: enqueue an `Interrupt` message; only if that succeeds,
     * send one interrupt signal. The receiver lives as long as the sender,
     * so sending the signal cannot fail.
     */
    method SendInterrupt(reason: string) returns (r: Result<(), ClaudeError>)
      modifies queue`items, this`pendingInterrupts
      ensures (queue.State(), r) == EnqueueStep(old(queue.State()), Interrupt(reason))
      ensures pendingInterrupts == old(pendingInterrupts) + (if r.Ok? then 1 else 0)
    {
      r := queue.Enqueue(Interrupt(reason));
      if r.Ok? {
        pendingInterrupts := pendingInterrupts + 1;
      }
    }

    method ReceiveMessage() returns (r: Poll<Result<Option<SteeringMessage>, ClaudeError>>)
      modifies queue`items
      ensures (queue.State(), r) == DequeueStep(old(queue.State()))
    {
      r := queue.Dequeue();
    }

    method ReceiveMessageTimeout() returns (r: Result<Option<SteeringMessage>, ClaudeError>)
      modifies queue`items
      ensures (queue.State(), r) == DequeueTimeoutStep(old(queue.State()))
    {
      r := queue.DequeueTimeout();
    }

    /** `check_interrupt`: take one pending signal if there is one. */
    method CheckInterrupt() returns (r: bool)
      modifies this`pendingInterrupts
      ensures r <==> old(pendingInterrupts) > 0
      ensures pendingInterrupts == if r then old(pendingInterrupts) - 1 else old(pendingInterrupts)
    {
      r := pendingInterrupts > 0;
      if r {
        pendingInterrupts := pendingInterrupts - 1;
      }
    }

    /** `wait_for_interrupt`: take one signal, or wait; the channel never closes while the controller lives. */
    method WaitForInterrupt() returns (r: Poll<Result<(), ClaudeError>>)
      modifies this`pendingInterrupts
      ensures r.Ready? <==> old(pendingInterrupts) > 0
      ensures r.Ready? ==> r.value == Ok(()) && pendingInterrupts == old(pendingInterrupts) - 1
      ensures r.Pending? ==> pendingInterrupts == old(pendingInterrupts)
    {
      if pendingInterrupts > 0 {
        pendingInterrupts := pendingInterrupts - 1;
        r := Ready(Ok(()));
      } else {
        r := Pending;
      }
    }

    /** `shutdown`: mark the queue done. */
    method Shutdown()
      modifies queue`isDone, queue`cleanupRuns
      ensures queue.State() == old(queue.State()).(done := true)
      ensures queue.cleanupRuns == old(queue.cleanupRuns) + (if queue.hasCleanup then 1 else 0)
    {
      queue.Done();
    }
  }

  /**
   * The test scenario of the controller: on a fresh controller an interrupt
   * is accepted, queued as an `Interrupt` message, and signalled.
   */
  method InterruptScenario() returns (accepted: bool, signalled: bool, queued: seq<SteeringMessage>)
    ensures accepted && signalled
    ensures queued == [Interrupt("Test interrupt")]
  {
    var c := new SteeringController();
    var r := c.SendInterrupt("Test interrupt");
    accepted := r.Ok?;
    queued := c.queue.items;
    signalled := c.CheckInterrupt();
  }

  /** `SteeringSession`. */
  class SteeringSession {
    const controller: SteeringController
    const sessionId: string
    var isActive: bool

    /** `SteeringSession::new`: active, with a fresh controller. */
    constructor (sessionId: string)
      ensures this.sessionId == sessionId && isActive
      ensures fresh(controller) && fresh(controller.queue)
      ensures controller.queue.State() == EmptyQueue<SteeringMessage>() && !controller.queue.hasCleanup
    {
      this.sessionId := sessionId;
      controller := new SteeringController();
      isActive := true;
    }

    /** `close`: deactivate the session and mark its queue done. */
    method Close()
      modifies this`isActive, controller.queue`isDone, controller.queue`cleanupRuns
      ensures !isActive
      ensures controller.queue.State() == old(controller.queue.State()).(done := true)
    {
      isActive := false;
      controller.Shutdown();
    }
  }

  /** The session test scenario: a new session is active, closing it deactivates it and finishes its queue. */
  method SessionScenario() returns (activeBefore: bool, activeAfter: bool, doneAfter: bool, id: string)
    ensures activeBefore && !activeAfter && doneAfter
    ensures id == "test-session"
  {
    var s := new SteeringSession("test-session");
    id := s.sessionId;
    activeBefore := s.isActive;
    s.Close();
    activeAfter := s.isActive;
    doneAfter := s.controller.queue.isDone;
  }
}
