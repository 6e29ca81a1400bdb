/**
 * The performance monitor: named counters (unsigned 64-bit), histograms
 * that keep their last 1000 values, gauges, and time series that keep
 * the last 24 hours; percentiles and averages over a histogram; and the
 * request bookkeeping and summary metrics built on them.
 *
 * Floating-point values are modelled as reals (no NaN, no rounding
 * error). The wall clock (`now`, seconds since the Unix epoch) and the
 * monitor's uptime are parameters.
 */
module Monitoring {
  import opened Wrappers

  const U64Modulus: nat := 0x1_0000_0000_0000_0000
  const U64Max: nat := U64Modulus - 1

  /** How many values a histogram keeps. */
  const HistogramWindow: nat := 1000

  /** How far back a time series reaches, in seconds. */
  const SeriesRetention: nat := 24 * 60 * 60

  datatype TimeSeriesPoint = TimeSeriesPoint(timestamp: nat, value: real)

  datatype PerformanceMetrics = PerformanceMetrics(
    uptimeSeconds: nat,
    totalRequests: nat,
    successfulRequests: nat,
    failedRequests: nat,
    avgResponseTimeMs: real,
    p95ResponseTimeMs: real,
    p99ResponseTimeMs: real,
    activeConnections: nat,
    memoryUsageBytes: nat,
    cpuUsagePercent: real,
    requestsPerSecond: real,
    errorRatePercent: real)

  // ---------------------------------------------------------------------
  // Counter arithmetic
  // ---------------------------------------------------------------------

  /** `+=` on a `u64` in a build with overflow checks: an overflow panics (None). */
  function AddChecked(x: nat, v: nat): (r: Option<nat>)
    requires x < U64Modulus && v < U64Modulus
    ensures r.Some? <==> x + v < U64Modulus
    ensures r.Some? ==> r.value == x + v
  {
    if x + v < U64Modulus then Some(x + v) else None
  }

  /** `+=` on a `u64` without overflow checks: the sum wraps around. */
  function AddWrapping(x: nat, v: nat): (r: nat)
    requires x < U64Modulus && v < U64Modulus
    ensures r < U64Modulus
    ensures x + v < U64Modulus ==> r == x + v
    ensures x + v >= U64Modulus ==> r == x + v - U64Modulus
  {
    if x + v < U64Modulus then x + v else x + v - U64Modulus
  }

  /** Adding `u64::MAX` with wrap-around takes one away from a positive counter and turns zero into `u64::MAX`. */
  lemma AddMaxDecrements(x: nat)
    requires x < U64Modulus
    ensures x > 0 ==> AddWrapping(x, U64Max) == x - 1
    ensures x == 0 ==> AddWrapping(x, U64Max) == U64Max
  {
  }

  /** With overflow checks, adding `u64::MAX` to a positive counter panics. */
  lemma AddMaxPanicsWhenChecked(x: nat)
    requires 0 < x < U64Modulus
    ensures AddChecked(x, U64Max).None?
  {
  }

  // ---------------------------------------------------------------------
  // Histograms and series
  // ---------------------------------------------------------------------

  /** The last `HistogramWindow` values: `drain(0..len - 1000)` when longer. */
  function Window(values: seq<real>): (r: seq<real>)
    ensures |r| <= HistogramWindow
    ensures |values| <= HistogramWindow ==> r == values
    ensures |values| > HistogramWindow ==> r == values[|values| - HistogramWindow..]
  {
    if |values| > HistogramWindow then values[|values| - HistogramWindow..] else values
  }

  /** Recording keeps the new value last and drops only the oldest ones. */
  lemma WindowKeepsNewest(history: seq<real>, v: real)
    ensures var r := Window(history + [v]);
      r != [] && r[|r| - 1] == v && |r| == (if |history| < HistogramWindow then |history| + 1 else HistogramWindow)
      && r == (history + [v])[|history| + 1 - |r|..]
  {
  }

  /** `saturating_sub`: the cut-off time, never below zero. */
  function Cutoff(now: nat): (c: nat)
    ensures c <= now
    ensures now >= SeriesRetention ==> c == now - SeriesRetention
  {
    if now >= SeriesRetention then now - SeriesRetention else 0
  }

  /** The points stamped at or after `cutoff`, in order. */
  function Since(points: seq<TimeSeriesPoint>, cutoff: nat): (r: seq<TimeSeriesPoint>)
    ensures |r| <= |points|
    ensures forall i :: 0 <= i < |r| ==> r[i].timestamp >= cutoff
  {
    if points == [] then []
    else
      var p := points[|points| - 1];
      Since(points[..|points| - 1], cutoff) + (if p.timestamp >= cutoff then [p] else [])
  }

  /** A point is kept exactly when it is recent enough. */
  lemma {:induction false} SinceMembers(points: seq<TimeSeriesPoint>, cutoff: nat)
    ensures forall p :: p in Since(points, cutoff) <==> p in points && p.timestamp >= cutoff
    decreases |points|
  {
    if points != [] {
      var init := points[..|points| - 1];
      SinceMembers(init, cutoff);
      assert points == init + [points[|points| - 1]];
    }
  }

  /** The retain loop of `record_time_series`. */
  method Retain(points: seq<TimeSeriesPoint>, cutoff: nat) returns (kept: seq<TimeSeriesPoint>)
    ensures kept == Since(points, cutoff)
  {
    kept := [];
    for i := 0 to |points|
      invariant kept == Since(points[..i], cutoff)
    {
      assert points[..i + 1][..i] == points[..i];
      if points[i].timestamp >= cutoff {
        kept := kept + [points[i]];
      }
    }
    assert points[..|points|] == points;
  }

  /** The point just recorded is always kept, and last. */
  lemma NewestPointKept(points: seq<TimeSeriesPoint>, now: nat, v: real)
    ensures var r := Since(points + [TimeSeriesPoint(now, v)], Cutoff(now));
      r != [] && r[|r| - 1] == TimeSeriesPoint(now, v)
  {
    assert (points + [TimeSeriesPoint(now, v)])[..|points|] == points;
  }

  // ---------------------------------------------------------------------
  // Percentiles
  // ---------------------------------------------------------------------

  predicate SortedReals(s: seq<real>) {
    forall i, j :: 0 <= i < j < |s| ==> s[i] <= s[j]
  }

  function InsertReal(x: real, s: seq<real>): seq<real>
    decreases |s|
  {
    if s == [] || x <= s[0] then [x] + s else [s[0]] + InsertReal(x, s[1..])
  }

  lemma {:induction false} InsertRealMultiset(x: real, s: seq<real>)
    ensures multiset(InsertReal(x, s)) == multiset(s) + multiset{x}
    decreases |s|
  {
    if s != [] && !(x <= s[0]) {
      InsertRealMultiset(x, s[1..]);
      assert s == [s[0]] + s[1..];
    }
  }

  lemma {:induction false} InsertRealSorted(x: real, s: seq<real>)
    requires SortedReals(s)
    ensures SortedReals(InsertReal(x, s))
    decreases |s|
  {
    if s != [] && !(x <= s[0]) {
      var rest := InsertReal(x, s[1..]);
      InsertRealSorted(x, s[1..]);
      InsertRealMultiset(x, s[1..]);
      forall j | 0 <= j < |rest|
        ensures s[0] <= rest[j]
      {
        assert rest[j] in multiset(rest);
        if rest[j] != x {
          assert rest[j] in s[1..];
        }
      }
    }
  }

  /** `sort_by(partial_cmp)` on values that are all comparable. */
  function SortReals(s: seq<real>): seq<real> {
    if s == [] then [] else InsertReal(s[0], SortReals(s[1..]))
  }

  lemma {:induction false} SortRealsSpec(s: seq<real>)
    ensures SortedReals(SortReals(s))
    ensures multiset(SortReals(s)) == multiset(s)
  {
    if s != [] {
      SortRealsSpec(s[1..]);
      InsertRealMultiset(s[0], SortReals(s[1..]));
      InsertRealSorted(s[0], SortReals(s[1..]));
      assert s == [s[0]] + s[1..];
    }
  }

  /** `f64::round` (half away from zero) followed by a saturating cast to `usize`. */
  function RoundToIndex(x: real): (r: nat)
    ensures x <= 0.0 ==> r == 0
    ensures x >= 0.0 ==> (r as real) <= x + 0.5 < (r as real) + 1.0
  {
    if x <= 0.0 then 0 else (x + 0.5).Floor
  }

  /** The index of the `p`-th percentile in `n` sorted values, clamped to the last one. */
  function PercentileIndex(p: real, n: nat): (i: nat)
    requires n > 0
    ensures i <= n - 1
    ensures p <= 0.0 ==> i == 0
    ensures p >= 100.0 ==> i == n - 1
  {
    var x := (p / 100.0) * ((n - 1) as real);
    assert p >= 100.0 ==> x >= (n - 1) as real by {
      if p >= 100.0 {
        assert p / 100.0 >= 1.0;
      }
    }
    var r := RoundToIndex(x);
    if r < n - 1 then r else n - 1
  }

  /** `calculate_percentile` on one histogram: none when empty, else the value at the percentile's index. */
  function Percentile(values: seq<real>, p: real): (r: Option<real>)
    ensures r.None? <==> values == []
    ensures r.Some? ==> r.value in values
    ensures r.Some? && p <= 0.0 ==> forall v :: v in values ==> r.value <= v
    ensures r.Some? && p >= 100.0 ==> forall v :: v in values ==> v <= r.value
  {
    if values == [] then None
    else
      var sorted := SortReals(values);
      SortRealsSpec(values);
      assert |sorted| == |values| by {
        assert |multiset(sorted)| == |multiset(values)|;
      }
      var i := PercentileIndex(p, |sorted|);
      assert sorted[i] in multiset(values);
      assert forall v :: v in values ==> v in multiset(sorted);
      Some(sorted[i])
  }

  /** The sum of the values. */
  function Sum(values: seq<real>): real {
    if values == [] then 0.0 else Sum(values[..|values| - 1]) + values[|values| - 1]
  }

  /** `calculate_average`: none when empty. */
  function Average(values: seq<real>): (r: Option<real>)
    ensures r.None? <==> values == []
  {
    if values == [] then None else Some(Sum(values) / (|values| as real))
  }

  /** The average lies between the least and the greatest value. */
  lemma {:induction false} SumBounds(values: seq<real>, lo: real, hi: real)
    requires forall v :: v in values ==> lo <= v <= hi
    ensures (|values| as real) * lo <= Sum(values) <= (|values| as real) * hi
    decreases |values|
  {
    if values != [] {
      var init := values[..|values| - 1];
      assert forall v :: v in init ==> v in values;
      SumBounds(init, lo, hi);
      var last := values[|values| - 1];
      assert last in values;
      var m := |init| as real;
      assert |values| as real == m + 1.0;
      assert Sum(values) == Sum(init) + last;
      assert (m + 1.0) * lo == m * lo + lo;
      assert (m + 1.0) * hi == m * hi + hi;
    }
  }

  lemma AverageBounds(values: seq<real>, lo: real, hi: real)
    requires values != [] && forall v :: v in values ==> lo <= v <= hi
    ensures lo <= Average(values).value <= hi
  {
    SumBounds(values, lo, hi);
    var n := |values| as real;
    assert Sum(values) / n * n == Sum(values);
  }

  // ---------------------------------------------------------------------
  // Summary metrics
  // ---------------------------------------------------------------------

  /** `as u64` on a float: negative values become zero, fractions are cut, large values saturate. */
  function FloatToU64(x: real): (r: nat)
    ensures r <= U64Max
    ensures x <= 0.0 ==> r == 0
  {
    if x <= 0.0 then 0 else if x.Floor > U64Max then U64Max else x.Floor
  }

  /** The failed share of all requests in percent; zero when nothing was requested. */
  function ErrorRate(total: nat, failed: nat): (r: real)
    ensures total == 0 ==> r == 0.0
    ensures total > 0 && failed <= total ==> 0.0 <= r <= 100.0
  {
    if total > 0 then ((failed as real) / (total as real)) * 100.0 else 0.0
  }

  /** Requests per second of uptime; zero in the first second. */
  function RequestRate(total: nat, uptime: nat): (r: real)
    ensures uptime == 0 ==> r == 0.0
    ensures r >= 0.0
  {
    if uptime > 0 then (total as real) / (uptime as real) else 0.0
  }

  class PerformanceMonitor {
    var counters: map<string, nat>
    var histograms: map<string, seq<real>>
    var gauges: map<string, real>
    var timeSeries: map<string, seq<TimeSeriesPoint>>

    ghost predicate Valid()
      reads this
    {
      (forall k :: k in counters ==> counters[k] < U64Modulus)
      && (forall k :: k in histograms ==> |histograms[k]| <= HistogramWindow)
    }

    constructor()
      ensures Valid()
      ensures counters == map[] && histograms == map[] && gauges == map[] && timeSeries == map[]
    {
      counters := map[];
      histograms := map[];
      gauges := map[];
      timeSeries := map[];
    }

    /** `get_counter`: zero for a counter never incremented. */
    function GetCounter(name: string): (r: nat)
      reads this
      ensures name !in counters ==> r == 0
      ensures name in counters ==> r == counters[name]
    {
      if name in counters then counters[name] else 0
    }

    /** `increment_counter`: adds to the counter, starting from zero, wrapping at 2^64. */
    method IncrementCounter(name: string, value: nat)
      requires Valid() && value < U64Modulus
      modifies this
      ensures Valid()
      ensures counters == old(counters)[name := AddWrapping(old(GetCounter(name)), value)]
      ensures histograms == old(histograms) && gauges == old(gauges) && timeSeries == old(timeSeries)
    {
      var current := GetCounter(name);
      counters := counters[name := AddWrapping(current, value)];
    }

    /** `record_histogram`: appends the value and keeps the last 1000. */
    method RecordHistogram(name: string, value: real)
      requires Valid()
      modifies this
      ensures Valid()
      ensures histograms == old(histograms)[name := Window((if name in old(histograms) then old(histograms)[name] else []) + [value])]
      ensures counters == old(counters) && gauges == old(gauges) && timeSeries == old(timeSeries)
    {
      var values := if name in histograms then histograms[name] else [];
      values := values + [value];
      if |values| > HistogramWindow {
        values := values[|values| - HistogramWindow..];
      }
      histograms := histograms[name := values];
    }

    /** `set_gauge`. */
    method SetGauge(name: string, value: real)
      requires Valid()
      modifies this
      ensures Valid()
      ensures gauges == old(gauges)[name := value]
      ensures counters == old(counters) && histograms == old(histograms) && timeSeries == old(timeSeries)
    {
      gauges := gauges[name := value];
    }

    /** `get_gauge`. */
    function GetGauge(name: string): (r: Option<real>)
      reads this
      ensures r.Some? <==> name in gauges
      ensures r.Some? ==> r.value == gauges[name]
    {
      if name in gauges then Some(gauges[name]) else None
    }

    /** `record_time_series`: appends a point stamped `now` and drops those older than 24 hours before it. */
    method RecordTimeSeries(name: string, value: real, now: nat)
      requires Valid()
      modifies this
      ensures Valid()
      ensures timeSeries == old(timeSeries)[name := Since((if name in old(timeSeries) then old(timeSeries)[name] else []) + [TimeSeriesPoint(now, value)], Cutoff(now))]
      ensures counters == old(counters) && histograms == old(histograms) && gauges == old(gauges)
    {
      var series := if name in timeSeries then timeSeries[name] else [];
      series := series + [TimeSeriesPoint(now, value)];
      var kept := Retain(series, Cutoff(now));
      timeSeries := timeSeries[name := kept];
    }

    /** `get_time_series`: empty for an unknown series. */
    function GetTimeSeries(name: string): (r: seq<TimeSeriesPoint>)
      reads this
      ensures name !in timeSeries ==> r == []
      ensures name in timeSeries ==> r == timeSeries[name]
    {
      if name in timeSeries then timeSeries[name] else []
    }

    /** `calculate_percentile`: none for an unknown or empty histogram. */
    function CalculatePercentile(name: string, p: real): (r: Option<real>)
      reads this
      ensures r.None? <==> name !in histograms || histograms[name] == []
      ensures r.Some? ==> r.value in histograms[name]
    {
      if name in histograms then Percentile(histograms[name], p) else None
    }

    /** `calculate_average`: none for an unknown or empty histogram. */
    function CalculateAverage(name: string): (r: Option<real>)
      reads this
      ensures r.None? <==> name !in histograms || histograms[name] == []
    {
      if name in histograms then Average(histograms[name]) else None
    }

    /** `get_performance_metrics` after `uptime` seconds. */
    function GetPerformanceMetrics(uptime: nat): (m: PerformanceMetrics)
      reads this
      ensures m.totalRequests == GetCounter("requests_total") && m.failedRequests == GetCounter("requests_failed")
      ensures m.successfulRequests == GetCounter("requests_successful")
      ensures m.errorRatePercent == ErrorRate(m.totalRequests, m.failedRequests)
      ensures m.totalRequests == 0 ==> m.errorRatePercent == 0.0
      ensures uptime == 0 ==> m.requestsPerSecond == 0.0
    {
      var total := GetCounter("requests_total");
      var successful := GetCounter("requests_successful");
      var failed := GetCounter("requests_failed");
      var avg := CalculateAverage("response_time_ms");
      var p95 := CalculatePercentile("response_time_ms", 95.0);
      var p99 := CalculatePercentile("response_time_ms", 99.0);
      var active := GetGauge("active_connections");
      var memory := GetGauge("memory_usage_bytes");
      var cpu := GetGauge("cpu_usage_percent");
      PerformanceMetrics(
        uptime, total, successful, failed,
        if avg.Some? then avg.value else 0.0,
        if p95.Some? then p95.value else 0.0,
        if p99.Some? then p99.value else 0.0,
        FloatToU64(if active.Some? then active.value else 0.0),
        FloatToU64(if memory.Some? then memory.value else 0.0),
        if cpu.Some? then cpu.value else 0.0,
        RequestRate(total, uptime),
        ErrorRate(total, failed))
    }

    /** `update_system_metrics` with the stand-in readings: 8 MiB of memory and 2.5% CPU. */
    method UpdateSystemMetrics() returns (r: Result<(), string>)
      requires Valid()
      modifies this
      ensures Valid() && r.Ok?
      ensures gauges == old(gauges)["memory_usage_bytes" := 8388608.0]["cpu_usage_percent" := 2.5]
      ensures counters == old(counters) && histograms == old(histograms) && timeSeries == old(timeSeries)
    {
      gauges := gauges["memory_usage_bytes" := 8388608.0];
      gauges := gauges["cpu_usage_percent" := 2.5];
      return Ok(());
    }

    /** `record_request_start`: one more request in total and one more active. */
    method RecordRequestStart()
      requires Valid()
      modifies this
      ensures Valid()
      ensures counters == old(counters)
        ["requests_total" := AddWrapping(old(GetCounter("requests_total")), 1)]
        ["active_requests" := AddWrapping(old(GetCounter("active_requests")), 1)]
      ensures histograms == old(histograms) && gauges == old(gauges) && timeSeries == old(timeSeries)
    {
      IncrementCounter("requests_total", 1);
      IncrementCounter("active_requests", 1);
    }

    /**
     * `record_request_end`: the duration goes into the response-time
     * histogram and series, one active request is taken away (by adding
     * `u64::MAX` with wrap-around), and the success or failure is counted.
     */
    method RecordRequestEnd(durationMs: nat, success: bool, now: nat)
      requires Valid()
      modifies this
      ensures Valid()
      ensures var outcome := if success then "requests_successful" else "requests_failed";
        counters == old(counters)
          ["active_requests" := AddWrapping(old(GetCounter("active_requests")), U64Max)]
          [outcome := AddWrapping(old(GetCounter(outcome)), 1)]
      ensures histograms == old(histograms)["response_time_ms" := Window((if "response_time_ms" in old(histograms) then old(histograms)["response_time_ms"] else []) + [durationMs as real])]
      ensures gauges == old(gauges)
      ensures timeSeries == old(timeSeries)["response_time" := Since((if "response_time" in old(timeSeries) then old(timeSeries)["response_time"] else []) + [TimeSeriesPoint(now, durationMs as real)], Cutoff(now))]
    {
      RecordHistogram("response_time_ms", durationMs as real);
      IncrementCounter("active_requests", U64Max);
      if success {
        IncrementCounter("requests_successful", 1);
      } else {
        IncrementCounter("requests_failed", 1);
      }
      RecordTimeSeries("response_time", durationMs as real, now);
    }
  }

  /** `increment_counter` as written, in a build with overflow checks: the `u64::MAX` decrement panics on any active request. */
  function IncrementAsWritten(counters: map<string, nat>, name: string, value: nat): (r: Option<map<string, nat>>)
    requires forall k :: k in counters ==> counters[k] < U64Modulus
    requires value < U64Modulus
    ensures r.Some? <==> (if name in counters then counters[name] else 0) + value < U64Modulus
  {
    var current := if name in counters then counters[name] else 0;
    match AddChecked(current, value)
    case None => None
    case Some(n) => Some(counters[name := n])
  }

  /** Ending a request while one is active panics in a checked build. */
  lemma RequestEndPanicsWhenChecked()
    ensures IncrementAsWritten(map["active_requests" := 1], "active_requests", U64Max).None?
  {
  }

  /** With wrap-around, starting and then ending a request leaves the active count where it was. */
  lemma StartEndRestoresActive(active: nat)
    requires active < U64Modulus
    ensures AddWrapping(AddWrapping(active, 1), U64Max) == active
  {
  }
}
