/**
 * The API gateway: exact-or-wildcard route matching, healthy-instance
 * selection, a per-service circuit breaker and the request pipeline that
 * ties them together. Time is whole seconds supplied by the caller; the
 * upstream's status and body for a forwarded request are parameters,
 * since forwarding is network I/O.
 */
module Gateway {
  import opened Wrappers

  datatype HttpMethod = GET | POST | PUT | DELETE | PATCH | HEAD | OPTIONS

  datatype InstanceStatus = Healthy | Unhealthy | Draining | Disabled

  datatype ServiceInstance = ServiceInstance(id: string, host: string, port: nat, weight: nat, status: InstanceStatus)

  datatype UpstreamService = UpstreamService(name: string, instances: seq<ServiceInstance>)

  datatype Route = Route(id: string, pathPattern: string, methods: seq<HttpMethod>, upstream: UpstreamService)

  datatype GatewayRequest = GatewayRequest(id: string, httpMethod: HttpMethod, path: string)

  datatype UpstreamInfo = UpstreamInfo(serviceName: string, instanceId: string)

  datatype GatewayResponse = GatewayResponse(statusCode: nat, body: string, upstreamInfo: Option<UpstreamInfo>)

  // ---------------------------------------------------------------- routes

  /** `RouteMatcher::matches`: the pattern is the path itself or the catch-all pattern (slash, star). */
  predicate PathMatches(pattern: string, path: string) {
    pattern == path || pattern == "/*"
  }

  /** A route serves a request when its pattern matches and it lists the method. */
  predicate Serves(route: Route, req: GatewayRequest) {
    PathMatches(route.pathPattern, req.path) && req.httpMethod in route.methods
  }

  /** The route table, keyed by route id; its iteration order is unspecified. */
  class Router {
    var routes: map<string, Route>

    constructor()
      ensures routes == map[]
    {
      routes := map[];
    }

    /** `add_route`: a route replaces any route with the same id. */
    method AddRoute(route: Route)
      modifies this
      ensures routes == old(routes)[route.id := route]
    {
      routes := routes[route.id := route];
    }

    /**
     * `match_route`: some route that serves the request, or none when no
     * route does; which of several is found depends on the table's order.
     */
    method MatchRoute(req: GatewayRequest) returns (r: Option<Route>)
      ensures r.None? <==> forall id :: id in routes ==> !Serves(routes[id], req)
      ensures r.Some? ==> r.value in routes.Values && Serves(r.value, req)
    {
      if id :| id in routes && Serves(routes[id], req) {
        r := Some(routes[id]);
      } else {
        r := None;
      }
    }
  }

  // ----------------------------------------------------- instance selection

  /** The healthy instances of an upstream, in their order. */
  function HealthyInstances(instances: seq<ServiceInstance>): (r: seq<ServiceInstance>)
    ensures forall x :: x in r <==> x in instances && x.status == Healthy
    ensures |r| <= |instances|
  {
    if instances == [] then []
    else (if instances[0].status == Healthy then [instances[0]] else []) + HealthyInstances(instances[1..])
  }

  /**
   * `select_instance`: none when no instance is healthy; otherwise the
   * healthy instance at the request id's length modulo their number.
   */
  function SelectInstance(upstream: UpstreamService, req: GatewayRequest): (r: Option<ServiceInstance>)
    ensures r.None? <==> forall x :: x in upstream.instances ==> x.status != Healthy
    ensures r.Some? ==> r.value in upstream.instances && r.value.status == Healthy
  {
    var healthy := HealthyInstances(upstream.instances);
    if healthy == [] then None
    else
      assert healthy[|req.id| % |healthy|] in healthy;
      Some(healthy[|req.id| % |healthy|])
  }

  /** Requests whose ids have the same length go to the same instance. */
  lemma SelectionDependsOnIdLength(upstream: UpstreamService, a: GatewayRequest, b: GatewayRequest)
    requires |a.id| == |b.id|
    ensures SelectInstance(upstream, a) == SelectInstance(upstream, b)
  {
  }

  // -------------------------------------------------------- circuit breaker

  datatype CircuitState = Closed | Open | HalfOpen

  datatype BreakerConfig = BreakerConfig(failureThreshold: nat, successThreshold: nat, timeout: nat, halfOpenMaxRequests: nat)

  datatype BreakerState = BreakerState(
    state: CircuitState, failureCount: nat, successCount: nat,
    lastFailureTime: Option<nat>, halfOpenRequests: nat)

  /** The state a service gets on its first recorded outcome. */
  const FreshBreaker := BreakerState(Closed, 0, 0, None, 0)

  /** Seconds since `since`; a clock reading before it counts as no time. */
  function Elapsed(now: nat, since: nat): nat {
    if now >= since then now - since else 0
  }

  function Entry(states: map<string, BreakerState>, name: string): BreakerState {
    if name in states then states[name] else FreshBreaker
  }

  /**
   * `can_execute`: an unknown service or a closed breaker lets requests
   * through; an open one only once the timeout has passed since its last
   * failure; a half-open one while fewer than the maximum trial requests
   * have been made.
   */
  function CanExecute(states: map<string, BreakerState>, config: BreakerConfig, name: string, now: nat): (r: bool)
    ensures name !in states ==> r
    ensures name in states && states[name].state == Closed ==> r
    ensures name in states && states[name].state == Open ==>
      (r <==> states[name].lastFailureTime.Some? && Elapsed(now, states[name].lastFailureTime.value) >= config.timeout)
    ensures name in states && states[name].state == HalfOpen ==>
      (r <==> states[name].halfOpenRequests < config.halfOpenMaxRequests)
  {
    if name !in states then true
    else
      var s := states[name];
      match s.state
      case Closed => true
      case Open => s.lastFailureTime.Some? && Elapsed(now, s.lastFailureTime.value) >= config.timeout
      case HalfOpen => s.halfOpenRequests < config.halfOpenMaxRequests
  }

  /**
   * `record_success`: the failure count is reset and the success count
   * grows; a half-open breaker with enough successes closes. No other
   * service's state changes.
   */
  function RecordSuccessStep(states: map<string, BreakerState>, config: BreakerConfig, name: string)
    : (r: map<string, BreakerState>)
    ensures name in r && r[name].failureCount == 0
    ensures r[name].successCount == Entry(states, name).successCount + 1
    ensures r[name].lastFailureTime == Entry(states, name).lastFailureTime
    ensures r[name].state ==
      if Entry(states, name).state == HalfOpen && r[name].successCount >= config.successThreshold then Closed
      else Entry(states, name).state
    ensures forall n :: n != name ==> (n in r <==> n in states) && (n in states ==> r[n] == states[n])
  {
    var s := Entry(states, name);
    var s1 := s.(successCount := s.successCount + 1, failureCount := 0);
    var s2 := if s1.state == HalfOpen && s1.successCount >= config.successThreshold
              then s1.(state := Closed, halfOpenRequests := 0) else s1;
    states[name := s2]
  }

  /**
   * `record_failure`: the failure count grows and the failure time is
   * recorded; the breaker opens once the count reaches the threshold.
   */
  function RecordFailureStep(states: map<string, BreakerState>, config: BreakerConfig, name: string, now: nat)
    : (r: map<string, BreakerState>)
    ensures name in r && r[name].failureCount == Entry(states, name).failureCount + 1
    ensures r[name].lastFailureTime == Some(now)
    ensures r[name].successCount == Entry(states, name).successCount
    ensures r[name].state == if r[name].failureCount >= config.failureThreshold then Open else Entry(states, name).state
    ensures forall n :: n != name ==> (n in r <==> n in states) && (n in states ==> r[n] == states[n])
  {
    var s := Entry(states, name);
    var s1 := s.(failureCount := s.failureCount + 1, lastFailureTime := Some(now));
    states[name := if s1.failureCount >= config.failureThreshold then s1.(state := Open) else s1]
  }

  /** No breaker is half-open. */
  predicate NoHalfOpen(states: map<string, BreakerState>) {
    forall n :: n in states ==> states[n].state != HalfOpen
  }

  /**
   * Nothing ever moves a breaker to half-open: starting from no states,
   * recording outcomes keeps every breaker closed or open.
   */
  lemma RecordingNeverHalfOpens(states: map<string, BreakerState>, config: BreakerConfig, name: string, now: nat)
    requires NoHalfOpen(states)
    ensures NoHalfOpen(RecordSuccessStep(states, config, name))
    ensures NoHalfOpen(RecordFailureStep(states, config, name, now))
  {
  }

  /** Hence an open breaker stays open whatever succeeds afterwards. */
  lemma OpenStaysOpen(states: map<string, BreakerState>, config: BreakerConfig, name: string)
    requires NoHalfOpen(states) && name in states && states[name].state == Open
    ensures RecordSuccessStep(states, config, name)[name].state == Open
  {
  }

  /** A run of failures at the given times. */
  function FailAll(states: map<string, BreakerState>, config: BreakerConfig, name: string, times: seq<nat>)
    : map<string, BreakerState>
    decreases |times|
  {
    if times == [] then states
    else FailAll(RecordFailureStep(states, config, name, times[0]), config, name, times[1..])
  }

  lemma {:induction false} FailAllSpec(states: map<string, BreakerState>, config: BreakerConfig, name: string, times: seq<nat>)
    requires times != []
    ensures var r := FailAll(states, config, name, times);
      name in r && r[name].failureCount == Entry(states, name).failureCount + |times|
      && r[name].lastFailureTime == Some(times[|times| - 1])
      && (r[name].failureCount >= config.failureThreshold ==> r[name].state == Open)
    decreases |times|
  {
    var s1 := RecordFailureStep(states, config, name, times[0]);
    if |times| > 1 {
      FailAllSpec(s1, config, name, times[1..]);
    }
  }

  /**
   * After `failureThreshold` consecutive failures (at least one) a breaker
   * is open and refuses requests until the timeout has passed since the
   * last of them.
   */
  lemma ThresholdFailuresOpen(states: map<string, BreakerState>, config: BreakerConfig, name: string, times: seq<nat>, now: nat)
    requires times != [] && |times| >= config.failureThreshold
    requires times[|times| - 1] <= now < times[|times| - 1] + config.timeout
    ensures var r := FailAll(states, config, name, times); name in r && r[name].state == Open
    ensures !CanExecute(FailAll(states, config, name, times), config, name, now)
  {
    FailAllSpec(states, config, name, times);
  }

  /** The breaker of every upstream service, keyed by service name. */
  class CircuitBreaker {
    var states: map<string, BreakerState>
    const config: BreakerConfig

    constructor(config: BreakerConfig)
      ensures states == map[] && this.config == config
    {
      states := map[];
      this.config := config;
    }

    function Allows(name: string, now: nat): bool
      reads this
    {
      CanExecute(states, config, name, now)
    }

    method RecordSuccess(name: string)
      modifies this
      ensures states == RecordSuccessStep(old(states), config, name)
    {
      var s := if name in states then states[name] else FreshBreaker;
      s := s.(successCount := s.successCount + 1, failureCount := 0);
      if s.state == HalfOpen && s.successCount >= config.successThreshold {
        s := s.(state := Closed, halfOpenRequests := 0);
      }
      states := states[name := s];
    }

    method RecordFailure(name: string, now: nat)
      modifies this
      ensures states == RecordFailureStep(old(states), config, name, now)
    {
      var s := if name in states then states[name] else FreshBreaker;
      s := s.(failureCount := s.failureCount + 1, lastFailureTime := Some(now));
      if s.failureCount >= config.failureThreshold {
        s := s.(state := Open);
      }
      states := states[name := s];
    }
  }

  // --------------------------------------------------------------- monitor

  datatype GatewayMetrics = GatewayMetrics(
    totalRequests: nat, successfulRequests: nat, failedRequests: nat, errorStats: map<nat, nat>)

  /**
   * `record_response`: a status below 400 counts as a success, any other
   * as a failure, and the per-status tally grows by one.
   */
  function RecordResponseStep(m: GatewayMetrics, status: nat): (r: GatewayMetrics)
    ensures r.totalRequests == m.totalRequests
    ensures r.successfulRequests + r.failedRequests == m.successfulRequests + m.failedRequests + 1
    ensures status < 400 <==> r.successfulRequests == m.successfulRequests + 1
    ensures status in r.errorStats && r.errorStats[status] == (if status in m.errorStats then m.errorStats[status] else 0) + 1
    ensures forall s :: s != status ==> (s in r.errorStats <==> s in m.errorStats)
    ensures forall s :: s != status && s in m.errorStats ==> r.errorStats[s] == m.errorStats[s]
  {
    var tally := if status in m.errorStats then m.errorStats[status] else 0;
    var m1 := if status < 400 then m.(successfulRequests := m.successfulRequests + 1)
              else m.(failedRequests := m.failedRequests + 1);
    m1.(errorStats := m.errorStats[status := tally + 1])
  }

  class GatewayMonitor {
    var metrics: GatewayMetrics

    constructor()
      ensures metrics == GatewayMetrics(0, 0, 0, map[])
    {
      metrics := GatewayMetrics(0, 0, 0, map[]);
    }

    method RecordRequest()
      modifies this
      ensures metrics == old(metrics).(totalRequests := old(metrics).totalRequests + 1)
    {
      metrics := metrics.(totalRequests := metrics.totalRequests + 1);
    }

    method RecordResponse(status: nat)
      modifies this
      ensures metrics == RecordResponseStep(old(metrics), status)
    {
      var tally := if status in metrics.errorStats then metrics.errorStats[status] else 0;
      if status < 400 {
        metrics := metrics.(successfulRequests := metrics.successfulRequests + 1);
      } else {
        metrics := metrics.(failedRequests := metrics.failedRequests + 1);
      }
      metrics := metrics.(errorStats := metrics.errorStats[status := tally + 1]);
    }
  }

  // -------------------------------------------------------------- pipeline

  const NotFound := GatewayResponse(404, "Route not found", None)
  const Unavailable := GatewayResponse(503, "Service unavailable", None)
  const NoHealthyUpstream := GatewayResponse(503, "No healthy upstream instances", None)

  /**
   * The answer for a request whose route is known: refused by an open
   * breaker, refused without a healthy instance, or the upstream's status
   * with the chosen service and instance.
   */
  function Dispatch(states: map<string, BreakerState>, config: BreakerConfig, route: Route, req: GatewayRequest,
                    upstreamStatus: nat, upstreamBody: string, now: nat): (r: GatewayResponse)
    ensures !CanExecute(states, config, route.upstream.name, now) ==> r == Unavailable
    ensures CanExecute(states, config, route.upstream.name, now) && SelectInstance(route.upstream, req).None? ==>
      r == NoHealthyUpstream
    ensures r.upstreamInfo.Some? ==>
      r.statusCode == upstreamStatus && r.body == upstreamBody && r.upstreamInfo.value.serviceName == route.upstream.name
      && exists x :: x in route.upstream.instances && x.status == Healthy && x.id == r.upstreamInfo.value.instanceId
  {
    if !CanExecute(states, config, route.upstream.name, now) then Unavailable
    else match SelectInstance(route.upstream, req)
      case None => NoHealthyUpstream
      case Some(inst) => GatewayResponse(upstreamStatus, upstreamBody, Some(UpstreamInfo(route.upstream.name, inst.id)))
  }

  /** Whether a dispatched request reached an upstream (and so is recorded by the breaker and the monitor). */
  predicate Forwarded(states: map<string, BreakerState>, config: BreakerConfig, route: Route, req: GatewayRequest, now: nat) {
    CanExecute(states, config, route.upstream.name, now) && SelectInstance(route.upstream, req).Some?
  }

  /** The breaker states after a forwarded request: a status of 500 or more is a failure. */
  function AfterForward(states: map<string, BreakerState>, config: BreakerConfig, name: string, status: nat, now: nat)
    : (r: map<string, BreakerState>)
    ensures name in r
    ensures status >= 500 ==> r[name].failureCount == Entry(states, name).failureCount + 1
    ensures status < 500 ==> r[name].failureCount == 0
  {
    if status >= 500 then RecordFailureStep(states, config, name, now) else RecordSuccessStep(states, config, name)
  }

  class ApiGateway {
    const router: Router
    const breaker: CircuitBreaker
    const monitor: GatewayMonitor

    /** `new`: the breaker always trips after 5 failures, closes after 3 successes, waits 60 s and lets 3 probes through. */
    constructor()
      ensures fresh(router) && fresh(breaker) && fresh(monitor)
      ensures router.routes == map[] && breaker.states == map[]
      ensures breaker.config == BreakerConfig(5, 3, 60, 3)
      ensures monitor.metrics == GatewayMetrics(0, 0, 0, map[])
    {
      router := new Router();
      breaker := new CircuitBreaker(BreakerConfig(5, 3, 60, 3));
      monitor := new GatewayMonitor();
    }

    /**
     * `handle_request`: counts the request, finds a route (404 without
     * one), then dispatches it; only a forwarded request updates the
     * breaker and the response statistics. The rate limiter always allows.
     */
    method HandleRequest(req: GatewayRequest, upstreamStatus: nat, upstreamBody: string, now: nat) returns (r: GatewayResponse)
      modifies breaker, monitor
      ensures monitor.metrics.totalRequests == old(monitor.metrics.totalRequests) + 1
      ensures router.routes == old(router.routes)
      ensures (forall id :: id in router.routes ==> !Serves(router.routes[id], req)) ==>
        r == NotFound && breaker.states == old(breaker.states)
        && monitor.metrics == old(monitor.metrics).(totalRequests := old(monitor.metrics.totalRequests) + 1)
      ensures (exists id :: id in router.routes && Serves(router.routes[id], req)) ==> r != NotFound
      ensures r != NotFound ==> exists route :: (route in router.routes.Values && Serves(route, req)
        && r == Dispatch(old(breaker.states), breaker.config, route, req, upstreamStatus, upstreamBody, now)
        && (if Forwarded(old(breaker.states), breaker.config, route, req, now) then
              breaker.states == AfterForward(old(breaker.states), breaker.config, route.upstream.name, upstreamStatus, now)
              && monitor.metrics == RecordResponseStep(old(monitor.metrics).(totalRequests := old(monitor.metrics.totalRequests) + 1), upstreamStatus)
            else
              breaker.states == old(breaker.states)
              && monitor.metrics == old(monitor.metrics).(totalRequests := old(monitor.metrics.totalRequests) + 1)))
    {
      monitor.RecordRequest();
      var matched := router.MatchRoute(req);
      if matched.None? {
        return NotFound;
      }
      var route := matched.value;
      var name := route.upstream.name;
      if !breaker.Allows(name, now) {
        return Unavailable;
      }
      var inst := SelectInstance(route.upstream, req);
      if inst.None? {
        return NoHealthyUpstream;
      }
      r := GatewayResponse(upstreamStatus, upstreamBody, Some(UpstreamInfo(name, inst.value.id)));
      if upstreamStatus >= 500 {
        breaker.RecordFailure(name, now);
      } else {
        breaker.RecordSuccess(name);
      }
      monitor.RecordResponse(upstreamStatus);
    }
  }
}
