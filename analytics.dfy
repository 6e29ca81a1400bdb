/**
 * The analytics data collector: events are appended to an event store
 * and indexed by the display name of their type, and metric data points
 * are appended to named time series. The analytics engine forwards to
 * the collector; its analysis, insight and report stages are stubs.
 *
 * Times are parameters (seconds since the Unix epoch); floating-point
 * values are reals.
 */
module Analytics {
  import opened Wrappers
  import JsonValue

  datatype EventType =
    | UserAction
    | SystemEvent
    | PerformanceEvent
    | ErrorEvent
    | BusinessEvent
    | Custom(name: string)

  datatype EventContext = EventContext(
    userAgent: Option<string>,
    ipAddress: Option<string>,
    appVersion: Option<string>)

  datatype AnalyticsEvent = AnalyticsEvent(
    id: string,
    eventType: EventType,
    timestamp: int,
    userId: Option<string>,
    sessionId: Option<string>,
    properties: map<string, JsonValue.Value>,
    context: EventContext)

  datatype DataPoint = DataPoint(timestamp: int, value: real, labels: map<string, string>)

  datatype AggregationType = Sum | Average | Count | Min | Max | Percentile(p: real)

  datatype TimeSeries = TimeSeries(name: string, dataPoints: seq<DataPoint>, aggregation: AggregationType)

  datatype AnalyticsConfig = AnalyticsConfig(
    enableRealtime: bool,
    dataRetentionDays: nat,
    analysisInterval: nat,
    enablePrediction: bool,
    enableAnomalyDetection: bool,
    reportIntervalHours: nat)

  /** The `Display` form of an event type, the key of the event index. */
  function TypeName(t: EventType): (s: string)
    ensures |s| > 0 && (s[0] == 'c' <==> t.Custom?)
    ensures t.Custom? ==> s == "custom_" + t.name
  {
    match t
    case UserAction => "user_action"
    case SystemEvent => "system_event"
    case PerformanceEvent => "performance_event"
    case ErrorEvent => "error_event"
    case BusinessEvent => "business_event"
    case Custom(name) => "custom_" + name
  }

  /** Different event types never share an index entry. */
  lemma TypeNameInjective(a: EventType, b: EventType)
    requires TypeName(a) == TypeName(b)
    ensures a == b
  {
    if a.Custom? && b.Custom? {
      assert a.name == TypeName(a)[7..];
      assert b.name == TypeName(b)[7..];
    } else if !a.Custom? && !b.Custom? {
      var s := TypeName(a);
      assert s[0] == TypeName(b)[0];
      assert |s| == |TypeName(b)|;
    }
  }

  /** The positions of the events whose type is named `key`, in increasing order. */
  function Positions(events: seq<AnalyticsEvent>, key: string): (r: seq<nat>)
    ensures forall j :: 0 <= j < |r| ==> r[j] < |events| && TypeName(events[r[j]].eventType) == key
    ensures forall j, k :: 0 <= j < k < |r| ==> r[j] < r[k]
  {
    if events == [] then []
    else
      var n := |events| - 1;
      Positions(events[..n], key) + (if TypeName(events[n].eventType) == key then [n] else [])
  }

  /** Every event of the type is listed. */
  lemma {:induction false} PositionsComplete(events: seq<AnalyticsEvent>, key: string, i: nat)
    requires i < |events| && TypeName(events[i].eventType) == key
    ensures i in Positions(events, key)
    decreases |events|
  {
    var n := |events| - 1;
    assert events == events[..n] + [events[n]];
    PositionsAppend(events[..n], events[n], key);
    if i < n {
      assert events[..n][i] == events[i];
      PositionsComplete(events[..n], key, i);
    }
  }

  /** Appending an event extends only its own type's positions, by its index. */
  lemma PositionsAppend(events: seq<AnalyticsEvent>, e: AnalyticsEvent, key: string)
    ensures Positions(events + [e], key)
      == Positions(events, key) + (if TypeName(e.eventType) == key then [|events|] else [])
  {
    assert (events + [e])[..|events|] == events;
  }

  /** The positions an index lists under `key`; none when the key is absent. */
  function Bucket(index: map<string, seq<nat>>, key: string): seq<nat> {
    if key in index then index[key] else []
  }

  /** `index` lists, for each type name that has occurred, exactly the positions of its events. */
  ghost predicate Indexes(events: seq<AnalyticsEvent>, index: map<string, seq<nat>>) {
    forall key :: Positions(events, key) == Bucket(index, key)
  }

  /** Appending an event and its position under its type name keeps the index exact. */
  lemma IndexAppend(events: seq<AnalyticsEvent>, index: map<string, seq<nat>>, e: AnalyticsEvent)
    requires Indexes(events, index)
    ensures var key := TypeName(e.eventType);
      Indexes(events + [e], index[key := Bucket(index, key) + [|events|]])
  {
    var key := TypeName(e.eventType);
    var index' := index[key := Bucket(index, key) + [|events|]];
    forall k
      ensures Positions(events + [e], k) == Bucket(index', k)
    {
      PositionsAppend(events, e, k);
    }
  }

  class DataCollector {
    var events: seq<AnalyticsEvent>
    var eventIndex: map<string, seq<nat>>
    var timeSeries: map<string, TimeSeries>

    ghost predicate Valid()
      reads this
    {
      Indexes(events, eventIndex)
    }

    constructor()
      ensures Valid()
      ensures events == [] && eventIndex == map[] && timeSeries == map[]
    {
      events := [];
      eventIndex := map[];
      timeSeries := map[];
    }

    /** The positions recorded under a type name; none when the name never occurred. */
    function Lookup(key: string): (r: seq<nat>)
      reads this
      requires Valid()
      ensures r == Positions(events, key)
      ensures forall j :: 0 <= j < |r| ==> r[j] < |events| && TypeName(events[r[j]].eventType) == key
    {
      Bucket(eventIndex, key)
    }

    /** `collect_event`: the event goes last and its position is added under its type name. */
    method CollectEvent(event: AnalyticsEvent) returns (r: Result<(), string>)
      requires Valid()
      modifies this
      ensures Valid() && r.Ok?
      ensures events == old(events) + [event]
      ensures var key := TypeName(event.eventType);
        eventIndex == old(eventIndex)[key := Bucket(old(eventIndex), key) + [|old(events)|]]
      ensures timeSeries == old(timeSeries)
    {
      var index := |events|;
      var key := TypeName(event.eventType);
      var bucket := Bucket(eventIndex, key);
      IndexAppend(events, eventIndex, event);
      eventIndex := eventIndex[key := bucket + [index]];
      events := events + [event];
      return Ok(());
    }

    /** `collect_metric`: the point goes last in the named series, created empty with average aggregation if absent. */
    method CollectMetric(name: string, point: DataPoint) returns (r: Result<(), string>)
      requires Valid()
      modifies this
      ensures Valid() && r == Ok(())
      ensures name in old(timeSeries) ==>
        timeSeries == old(timeSeries)[name := old(timeSeries)[name].(dataPoints := old(timeSeries)[name].dataPoints + [point])]
      ensures name !in old(timeSeries) ==>
        timeSeries == old(timeSeries)[name := TimeSeries(name, [point], Average)]
      ensures events == old(events) && eventIndex == old(eventIndex)
    {
      var series := if name in timeSeries then timeSeries[name] else TimeSeries(name, [], Average);
      assert series.dataPoints == [] ==> series.dataPoints + [point] == [point];
      timeSeries := timeSeries[name := series.(dataPoints := series.dataPoints + [point])];
      return Ok(());
    }
  }

  /** After recording an event, its own position is found under its type name and under no other. */
  lemma EventFoundUnderItsType(events: seq<AnalyticsEvent>, e: AnalyticsEvent, other: EventType)
    ensures |events| in Positions(events + [e], TypeName(e.eventType))
    ensures other != e.eventType ==> |events| !in Positions(events + [e], TypeName(other))
  {
    PositionsAppend(events, e, TypeName(e.eventType));
    PositionsAppend(events, e, TypeName(other));
    if other != e.eventType {
      if TypeName(other) == TypeName(e.eventType) {
        TypeNameInjective(other, e.eventType);
      }
      assert forall j :: j in Positions(events, TypeName(other)) ==> j < |events|;
    }
  }

  /** `get_realtime_metrics`: fixed sample readings. */
  function RealtimeMetrics(): (m: map<string, real>)
    ensures m.Keys == {"active_users", "requests_per_second", "error_rate"}
  {
    map["active_users" := 100.0, "requests_per_second" := 50.0, "error_rate" := 0.01]
  }

  class AnalyticsEngine {
    const collector: DataCollector
    const config: AnalyticsConfig

    constructor(config: AnalyticsConfig)
      ensures fresh(collector) && this.config == config
      ensures collector.Valid() && collector.events == [] && collector.timeSeries == map[]
    {
      collector := new DataCollector();
      this.config := config;
    }

    /**
     * `track_event`: collects the event; with real-time analysis on, the
     * anomaly detection and insight stages run, and both report success
     * without changing anything.
     */
    method TrackEvent(event: AnalyticsEvent) returns (r: Result<(), string>)
      requires collector.Valid()
      modifies collector
      ensures collector.Valid() && r.Ok?
      ensures collector.events == old(collector.events) + [event]
      ensures collector.timeSeries == old(collector.timeSeries)
    {
      r := collector.CollectEvent(event);
    }

    /** `track_metric`: a data point stamped `now` goes into the named series. */
    method TrackMetric(name: string, value: real, labels: map<string, string>, now: int) returns (r: Result<(), string>)
      requires collector.Valid()
      modifies collector
      ensures collector.Valid() && r == Ok(())
      ensures name in collector.timeSeries
      ensures var s := collector.timeSeries[name].dataPoints;
        s != [] && s[|s| - 1] == DataPoint(now, value, labels)
      ensures name in old(collector.timeSeries) ==>
        collector.timeSeries[name].dataPoints == old(collector.timeSeries)[name].dataPoints + [DataPoint(now, value, labels)]
        && collector.timeSeries[name].aggregation == old(collector.timeSeries)[name].aggregation
      ensures forall other :: other != name ==>
        (other in collector.timeSeries <==> other in old(collector.timeSeries))
        && (other in collector.timeSeries ==> collector.timeSeries[other] == old(collector.timeSeries)[other])
      ensures collector.events == old(collector.events)
    {
      r := collector.CollectMetric(name, DataPoint(now, value, labels));
    }
  }
}
