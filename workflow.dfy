/**
 * The workflow engine: registered definitions, the instances started from
 * them, the event bus they publish on, and the scheduler's queue of
 * workflows waiting for their start time.
 *
 * Identifiers (UUIDs) and the clock are parameters. Times are whole
 * seconds since an epoch.
 */
module Workflow {
  import opened Wrappers
  import opened Errors
  import JsonValue

  type Parameters = map<string, JsonValue.Value>

  /** A definition, with the task graph reduced to the ids of its tasks. */
  datatype WorkflowDefinition = WorkflowDefinition(id: string, name: string, version: string, description: string, taskIds: seq<string>)

  datatype WorkflowStatus = Pending | Running | Completed | Failed | Cancelled | Paused

  datatype WorkflowInstance = WorkflowInstance(
    id: string,
    workflowId: string,
    status: WorkflowStatus,
    inputParameters: Parameters,
    outputParameters: Parameters,
    createdAt: int,
    startedAt: Option<int>,
    completedAt: Option<int>,
    error: Option<string>)

  datatype WorkflowEventType =
    | WorkflowCreated | WorkflowStarted | WorkflowCompleted | WorkflowFailed | WorkflowCancelled
    | WorkflowPaused | WorkflowResumed | TaskStarted | TaskCompleted | TaskFailed | TaskRetried | TaskSkipped

  datatype WorkflowEvent = WorkflowEvent(id: string, eventType: WorkflowEventType, workflowInstanceId: string, taskInstanceId: Option<string>, timestamp: int)

  datatype WorkflowPriority = Low | Normal | High | Critical

  /** The priority's declared discriminant. */
  function PriorityRank(p: WorkflowPriority): (r: nat)
    ensures 1 <= r <= 4
    ensures p == Low <==> r == 1
    ensures p == Critical <==> r == 4
  {
    match p
    case Low => 1
    case Normal => 2
    case High => 3
    case Critical => 4
  }

  datatype RepeatType = Once | Interval | Cron(expression: string)

  datatype RepeatConfig = RepeatConfig(repeatType: RepeatType, intervalSeconds: int, endTime: Option<int>, maxRepeats: Option<nat>)

  datatype ScheduledWorkflow = ScheduledWorkflow(
    workflowId: string,
    scheduledTime: int,
    inputParameters: Parameters,
    priority: WorkflowPriority,
    repeatConfig: Option<RepeatConfig>)

  datatype SchedulerConfig = SchedulerConfig(scheduleInterval: nat, maxQueueSize: nat, lookaheadSeconds: nat)

  /** The scheduler's configuration as the engine creates it. */
  function EngineSchedulerConfig(): (c: SchedulerConfig)
    ensures c.scheduleInterval == 60 && c.maxQueueSize == 10000 && c.lookaheadSeconds == 300
  {
    SchedulerConfig(60, 10000, 300)
  }

  datatype TaskExecutionResult = TaskExecutionResult(success: bool, outputData: Parameters, error: Option<string>, executionTimeMs: nat)

  /** `TaskExecutor::execute_task` is a stand-in that reports every task as a success after 100 ms. */
  function ExecuteTask(taskInstanceId: string): (r: TaskExecutionResult)
    ensures r.success && r.error.None? && r.outputData == map[] && r.executionTimeMs == 100
  {
    TaskExecutionResult(true, map[], None, 100)
  }

  // ---------------------------------------------------------------------
  // The schedule queue
  // ---------------------------------------------------------------------

  /** The queue is ordered by scheduled time. */
  predicate Sorted(q: seq<ScheduledWorkflow>) {
    forall i, j :: 0 <= i < j < |q| ==> q[i].scheduledTime <= q[j].scheduledTime
  }

  /**
   * Pushing `w` and then stably sorting a sorted queue: `w` lands after
   * every entry scheduled no later than it.
   */
  function Insert(q: seq<ScheduledWorkflow>, w: ScheduledWorkflow): (r: seq<ScheduledWorkflow>)
    ensures |r| == |q| + 1
    ensures multiset(r) == multiset(q) + multiset{w}
  {
    if q == [] || q[|q| - 1].scheduledTime <= w.scheduledTime then q + [w]
    else
      var p := q[..|q| - 1];
      assert q == p + [q[|q| - 1]];
      Insert(p, w) + [q[|q| - 1]]
  }

  /** One step of the scheduler's backward scan: an entry later than `w` moves behind it. */
  lemma InsertStep(q: seq<ScheduledWorkflow>, w: ScheduledWorkflow, i: nat)
    requires 0 < i <= |q| && q[i - 1].scheduledTime > w.scheduledTime
    ensures Insert(q[..i], w) + q[i..] == Insert(q[..i - 1], w) + q[i - 1..]
  {
    assert q[..i][..i - 1] == q[..i - 1];
    assert q[i - 1..] == [q[i - 1]] + q[i..];
  }

  /** `r` is `q` with `w` placed at `k`, after every entry scheduled no later and before every later one. */
  ghost predicate PlacedAt(q: seq<ScheduledWorkflow>, w: ScheduledWorkflow, k: nat, r: seq<ScheduledWorkflow>) {
    k <= |q| && r == q[..k] + [w] + q[k..]
    && (forall i :: 0 <= i < k ==> q[i].scheduledTime <= w.scheduledTime)
    && (forall i :: k <= i < |q| ==> q[i].scheduledTime > w.scheduledTime)
  }

  /** The insert splits the queue at one point: no later entries before `w`, later ones after it. */
  lemma {:induction false} InsertPosition(q: seq<ScheduledWorkflow>, w: ScheduledWorkflow) returns (k: nat)
    requires Sorted(q)
    ensures PlacedAt(q, w, k, Insert(q, w))
    decreases |q|
  {
    if q == [] || q[|q| - 1].scheduledTime <= w.scheduledTime {
      k := |q|;
      assert q[..|q|] + [w] + q[|q|..] == q + [w];
    } else {
      var p := q[..|q| - 1];
      var last := q[|q| - 1];
      k := InsertPosition(p, w);
      InsertUnfold(q, w);
      assert q == p + [last];
      PlacedSnoc(p, last, w, k, Insert(p, w));
    }
  }

  /** A later entry at the end of the queue stays behind `w`. */
  lemma PlacedSnoc(p: seq<ScheduledWorkflow>, last: ScheduledWorkflow, w: ScheduledWorkflow, k: nat, r: seq<ScheduledWorkflow>)
    requires PlacedAt(p, w, k, r) && last.scheduledTime > w.scheduledTime
    ensures PlacedAt(p + [last], w, k, r + [last])
  {
    var q := p + [last];
    SplitSnoc(p, last, k);
    assert r + [last] == q[..k] + [w] + q[k..];
    forall i | 0 <= i < k
      ensures q[i].scheduledTime <= w.scheduledTime
    {
      assert q[i] == p[i];
    }
    forall i | k <= i < |q|
      ensures q[i].scheduledTime > w.scheduledTime
    {
      if i < |p| {
        assert q[i] == p[i];
      }
    }
  }

  /** Cutting a sequence with one more element at its end, at a point inside the original. */
  lemma SplitSnoc<T>(p: seq<T>, x: T, k: nat)
    requires k <= |p|
    ensures (p + [x])[..k] == p[..k] && (p + [x])[k..] == p[k..] + [x]
  {
  }

  /** A queue whose last entry is later than `w` inserts `w` before that entry. */
  lemma InsertUnfold(q: seq<ScheduledWorkflow>, w: ScheduledWorkflow)
    requires q != [] && q[|q| - 1].scheduledTime > w.scheduledTime
    ensures Insert(q, w) == Insert(q[..|q| - 1], w) + [q[|q| - 1]]
  {
  }

  /** Inserting keeps the queue sorted. */
  lemma InsertKeepsSorted(q: seq<ScheduledWorkflow>, w: ScheduledWorkflow)
    requires Sorted(q)
    ensures Sorted(Insert(q, w))
  {
    var k := InsertPosition(q, w);
    var r := Insert(q, w);
    forall i, j | 0 <= i < j < |r|
      ensures r[i].scheduledTime <= r[j].scheduledTime
    {
      if j < k {
        assert r[i] == q[i] && r[j] == q[j];
      } else if j == k {
        assert r[i] == q[i];
      } else if i < k {
        assert r[i] == q[i] && r[j] == q[j - 1];
      } else if i == k {
        assert r[j] == q[j - 1];
      } else {
        assert r[i] == q[i - 1] && r[j] == q[j - 1];
      }
    }
  }

  /** The entries due at `now`, in queue order. */
  function Due(q: seq<ScheduledWorkflow>, now: int): (r: seq<ScheduledWorkflow>)
    ensures |r| <= |q|
  {
    if q == [] then []
    else Due(q[..|q| - 1], now) + (if q[|q| - 1].scheduledTime <= now then [q[|q| - 1]] else [])
  }

  /** The entries still waiting at `now`, in queue order. */
  function Waiting(q: seq<ScheduledWorkflow>, now: int): (r: seq<ScheduledWorkflow>)
    ensures |r| <= |q|
  {
    if q == [] then []
    else Waiting(q[..|q| - 1], now) + (if q[|q| - 1].scheduledTime > now then [q[|q| - 1]] else [])
  }

  /** Every entry goes to exactly one side. */
  lemma {:induction false} DuePartition(q: seq<ScheduledWorkflow>, now: int)
    ensures multiset(Due(q, now)) + multiset(Waiting(q, now)) == multiset(q)
    decreases |q|
  {
    if q != [] {
      var p := q[..|q| - 1];
      DuePartition(p, now);
      assert q == p + [q[|q| - 1]];
    }
  }

  /** The due entries are scheduled at or before `now`. */
  lemma {:induction false} DueAreDue(q: seq<ScheduledWorkflow>, now: int)
    ensures forall i :: 0 <= i < |Due(q, now)| ==> Due(q, now)[i].scheduledTime <= now
    decreases |q|
  {
    if q != [] {
      DueAreDue(q[..|q| - 1], now);
    }
  }

  /** The waiting entries are scheduled after `now`. */
  lemma {:induction false} WaitingAreLater(q: seq<ScheduledWorkflow>, now: int)
    ensures forall i :: 0 <= i < |Waiting(q, now)| ==> Waiting(q, now)[i].scheduledTime > now
    decreases |q|
  {
    if q != [] {
      WaitingAreLater(q[..|q| - 1], now);
    }
  }

  /** Every waiting entry comes from the queue. */
  lemma {:induction false} WaitingFromQueue(q: seq<ScheduledWorkflow>, now: int)
    ensures forall x :: x in Waiting(q, now) ==> x in q
    decreases |q|
  {
    if q != [] {
      WaitingFromQueue(q[..|q| - 1], now);
    }
  }

  /** What stays in a sorted queue is still sorted. */
  lemma {:induction false} WaitingSorted(q: seq<ScheduledWorkflow>, now: int)
    requires Sorted(q)
    ensures Sorted(Waiting(q, now))
    decreases |q|
  {
    if q != [] {
      var p := q[..|q| - 1];
      var e := q[|q| - 1];
      WaitingSorted(p, now);
      WaitingFromQueue(p, now);
      var w := Waiting(p, now);
      if e.scheduledTime > now {
        forall i | 0 <= i < |w|
          ensures w[i].scheduledTime <= e.scheduledTime
        {
          assert w[i] in p;
          var k :| 0 <= k < |p| && p[k] == w[i];
          assert q[k] == p[k];
        }
      }
    }
  }

  /** In a sorted queue the due entries are a prefix and the waiting ones the rest. */
  lemma {:induction false} SortedDueIsPrefix(q: seq<ScheduledWorkflow>, now: int)
    requires Sorted(q)
    ensures Due(q, now) + Waiting(q, now) == q
    decreases |q|
  {
    if q != [] {
      var p := q[..|q| - 1];
      var e := q[|q| - 1];
      SortedDueIsPrefix(p, now);
      if e.scheduledTime <= now {
        AllDue(p, now);
        assert Due(q, now) == p + [e];
        assert q == p + [e];
      } else {
        assert q == p + [e];
      }
    }
  }

  /** A queue whose every entry is due gives all of it and leaves nothing. */
  lemma {:induction false} AllDue(q: seq<ScheduledWorkflow>, now: int)
    requires forall i :: 0 <= i < |q| ==> q[i].scheduledTime <= now
    ensures Due(q, now) == q && Waiting(q, now) == []
    decreases |q|
  {
    if q != [] {
      AllDue(q[..|q| - 1], now);
      assert q == q[..|q| - 1] + [q[|q| - 1]];
    }
  }

  class WorkflowScheduler {
    var scheduleQueue: seq<ScheduledWorkflow>
    const config: SchedulerConfig

    ghost predicate Valid()
      reads this
    {
      Sorted(scheduleQueue)
    }

    constructor(config: SchedulerConfig)
      ensures Valid() && scheduleQueue == [] && this.config == config
    {
      scheduleQueue := [];
      this.config := config;
    }

    /** `schedule_workflow`: push, then stable sort by scheduled time. */
    method ScheduleWorkflow(w: ScheduledWorkflow) returns (r: Result<(), ClaudeError>)
      requires Valid()
      modifies this
      ensures Valid() && r.Ok?
      ensures scheduleQueue == Insert(old(scheduleQueue), w)
    {
      var q := scheduleQueue;
      var i := |q|;
      assert q[..i] == q && q[i..] == [];
      while i > 0 && q[i - 1].scheduledTime > w.scheduledTime
        invariant 0 <= i <= |q|
        invariant Insert(q, w) == Insert(q[..i], w) + q[i..]
      {
        InsertStep(q, w, i);
        i := i - 1;
      }
      assert Insert(q[..i], w) == q[..i] + [w];
      scheduleQueue := q[..i] + [w] + q[i..];
      InsertKeepsSorted(q, w);
      return Ok(());
    }

    /** `get_due_workflows`: removes the entries due at `now` and returns them in queue order. */
    method GetDueWorkflows(now: int) returns (r: Result<seq<ScheduledWorkflow>, ClaudeError>)
      requires Valid()
      modifies this
      ensures Valid() && r.Ok?
      ensures r.value == Due(old(scheduleQueue), now)
      ensures scheduleQueue == Waiting(old(scheduleQueue), now)
    {
      var q := scheduleQueue;
      var due: seq<ScheduledWorkflow> := [];
      var kept: seq<ScheduledWorkflow> := [];
      for i := 0 to |q|
        invariant due == Due(q[..i], now) && kept == Waiting(q[..i], now)
      {
        assert q[..i + 1][..i] == q[..i];
        if q[i].scheduledTime <= now {
          due := due + [q[i]];
        } else {
          kept := kept + [q[i]];
        }
      }
      assert q[..|q|] == q;
      scheduleQueue := kept;
      WaitingSorted(q, now);
      return Ok(due);
    }
  }

  // ---------------------------------------------------------------------
  // The event bus and the engine
  // ---------------------------------------------------------------------

  /**
   * The event bus. Its receiver is held by the bus itself and never
   * taken, so a send never fails; the events sent so far are `sent`.
   */
  class WorkflowEventBus {
    var sent: seq<WorkflowEvent>
    var listeners: set<string>

    constructor()
      ensures sent == [] && listeners == {}
    {
      sent := [];
      listeners := {};
    }

    method PublishEvent(event: WorkflowEvent) returns (r: Result<(), ClaudeError>)
      modifies this
      ensures r.Ok? && sent == old(sent) + [event] && listeners == old(listeners)
    {
      sent := sent + [event];
      return Ok(());
    }

    /** `subscribe`: listeners are keyed by name, so a second one with a name replaces the first. */
    method Subscribe(name: string) returns (r: Result<(), ClaudeError>)
      modifies this
      ensures r.Ok? && listeners == old(listeners) + {name} && sent == old(sent)
    {
      listeners := listeners + {name};
      return Ok(());
    }
  }

  /** The instance `start_workflow` creates. */
  function NewInstance(instanceId: string, workflowId: string, input: Parameters, now: int): (inst: WorkflowInstance)
    ensures inst.status == Pending && inst.id == instanceId && inst.workflowId == workflowId
    ensures inst.inputParameters == input && inst.outputParameters == map[]
    ensures inst.startedAt.None? && inst.completedAt.None? && inst.error.None?
  {
    WorkflowInstance(instanceId, workflowId, Pending, input, map[], now, None, None, None)
  }

  /** `get_workflow_status` on a map of instances. */
  function StatusOf(instances: map<string, WorkflowInstance>, instanceId: string): (r: Result<WorkflowStatus, ClaudeError>)
    ensures r.Ok? <==> instanceId in instances
    ensures r.Ok? ==> r.value == instances[instanceId].status
    ensures r.Err? ==> r.error == ConfigError("Workflow instance not found")
  {
    if instanceId in instances then Ok(instances[instanceId].status)
    else Err(ConfigError("Workflow instance not found"))
  }

  /** `cancel_workflow` on a map of instances: a known instance is cancelled and stamped, others are left alone. */
  function Cancel(instances: map<string, WorkflowInstance>, instanceId: string, now: int): (r: map<string, WorkflowInstance>)
    ensures r.Keys == instances.Keys
    ensures instanceId in instances ==>
      r[instanceId] == instances[instanceId].(status := Cancelled, completedAt := Some(now))
    ensures forall k :: k in instances && k != instanceId ==> r[k] == instances[k]
  {
    if instanceId in instances then
      instances[instanceId := instances[instanceId].(status := Cancelled, completedAt := Some(now))]
    else instances
  }

  /** After a cancel the status query answers Cancelled, or still reports the instance unknown. */
  lemma CancelThenStatus(instances: map<string, WorkflowInstance>, instanceId: string, now: int)
    ensures instanceId in instances ==> StatusOf(Cancel(instances, instanceId, now), instanceId) == Ok(Cancelled)
    ensures instanceId !in instances ==> StatusOf(Cancel(instances, instanceId, now), instanceId).Err?
  {
  }

  class WorkflowEngine {
    var definitions: map<string, WorkflowDefinition>
    var instances: map<string, WorkflowInstance>
    const eventBus: WorkflowEventBus
    const scheduler: WorkflowScheduler

    constructor()
      ensures definitions == map[] && instances == map[]
      ensures fresh(eventBus) && fresh(scheduler)
      ensures eventBus.sent == [] && scheduler.scheduleQueue == [] && scheduler.Valid()
      ensures scheduler.config == EngineSchedulerConfig()
    {
      definitions := map[];
      instances := map[];
      eventBus := new WorkflowEventBus();
      scheduler := new WorkflowScheduler(EngineSchedulerConfig());
    }

    /** `register_workflow`: stores the definition under its id, replacing any earlier one. */
    method RegisterWorkflow(definition: WorkflowDefinition) returns (r: Result<(), ClaudeError>)
      modifies this
      ensures r.Ok? && definitions == old(definitions)[definition.id := definition] && instances == old(instances)
    {
      definitions := definitions[definition.id := definition];
      return Ok(());
    }

    /**
     * `start_workflow`: for a registered definition, stores a new Pending
     * instance under `instanceId`, publishes WorkflowCreated (with event id
     * `eventId`) and returns the instance id.
     */
    method StartWorkflow(workflowId: string, input: Parameters, instanceId: string, eventId: string, now: int)
      returns (r: Result<string, ClaudeError>)
      modifies this, eventBus
      ensures workflowId !in old(definitions) ==>
        r == Err(ConfigError("Workflow definition not found"))
        && instances == old(instances) && eventBus.sent == old(eventBus.sent)
      ensures workflowId in old(definitions) ==>
        r == Ok(instanceId)
        && instances == old(instances)[instanceId := NewInstance(instanceId, workflowId, input, now)]
        && eventBus.sent == old(eventBus.sent) + [WorkflowEvent(eventId, WorkflowCreated, instanceId, None, now)]
      ensures definitions == old(definitions) && eventBus.listeners == old(eventBus.listeners)
    {
      if workflowId !in definitions {
        return Err(ConfigError("Workflow definition not found"));
      }
      instances := instances[instanceId := NewInstance(instanceId, workflowId, input, now)];
      var published := eventBus.PublishEvent(WorkflowEvent(eventId, WorkflowCreated, instanceId, None, now));
      return Ok(instanceId);
    }

    /** `get_workflow_status`. */
    function GetWorkflowStatus(instanceId: string): (r: Result<WorkflowStatus, ClaudeError>)
      reads this
      ensures r.Ok? <==> instanceId in instances
      ensures r.Ok? ==> r.value == instances[instanceId].status
    {
      StatusOf(instances, instanceId)
    }

    /** `cancel_workflow`: succeeds whether or not the instance exists. */
    method CancelWorkflow(instanceId: string, now: int) returns (r: Result<(), ClaudeError>)
      modifies this
      ensures r.Ok? && instances == Cancel(old(instances), instanceId, now) && definitions == old(definitions)
    {
      if instanceId in instances {
        var inst := instances[instanceId];
        instances := instances[instanceId := inst.(status := Cancelled, completedAt := Some(now))];
      }
      return Ok(());
    }
  }

  /** A workflow just started reports Pending. */
  lemma StartedIsPending(instances: map<string, WorkflowInstance>, instanceId: string, workflowId: string, input: Parameters, now: int)
    ensures StatusOf(instances[instanceId := NewInstance(instanceId, workflowId, input, now)], instanceId) == Ok(Pending)
  {
  }
}
