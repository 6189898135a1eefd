/** The dashboard's mock result service: the two random helpers, the synthetic request
    outcomes, and the aggregation of a list of outcomes into totals, rates, percentiles and
    per-endpoint statistics. A `Math.random()` draw is a real in [0, 1); a division whose
    JavaScript result would be `NaN` or an infinity (no requests, zero duration) is `None`. */
module MockData {
  import opened Wrappers
  import opened PerfModel
  import Stats
  import Grouping

  /** `randomInRange(min, max)`: an integer in [min, max]. */
  function RandomInRange(lo: int, hi: int, r: real): (v: int)
    requires 0.0 <= r < 1.0
    ensures lo <= hi ==> lo <= v <= hi
  {
    Stats.RandomInRange(lo, hi, r)
  }

  /** `timestampInRange(start, end)`: `start + floor(r * (end - start))`. */
  function TimestampInRange(start: int, end: int, r: real): (t: int)
    requires 0.0 <= r < 1.0
    ensures start < end ==> start <= t < end
    ensures end <= start ==> end <= t <= start
  {
    Stats.ScaledFloorBounds(r, end - start);
    start + (r * (end - start) as real).Floor
  }

  /** `Math.random()` */
  method Random() returns (r: real)
    ensures 0.0 <= r < 1.0
  {
    r :| 0.0 <= r < 1.0;
  }

  const MockEndpoints: seq<string> := ["/api/users", "/api/products", "/api/orders", "/api/auth"]
  const MockMethods: seq<string> := ["GET", "POST", "PUT", "DELETE"]
  const MockStatusCodes: seq<int> := [200, 201, 400, 401, 403, 404, 500]
  const MockErrorMessage := "Mock error message"

  /** What every synthetic outcome looks like: a success has status 200 or 201, a time in
      [5, 500] and no message; a failure has a client or server error status, a time in
      [500, 2000] and the mock message; the timestamp lies in the test window. */
  predicate MockMetricShape(m: RequestMetric, start: int, end: int) {
    m.endpoint in MockEndpoints && m.httpMethod in MockMethods
    && (m.success ==> m.statusCode in {200, 201} && 5.0 <= m.responseTime <= 500.0 && m.errorMessage.None?)
    && (!m.success ==> m.statusCode in {400, 401, 403, 404, 500} && 500.0 <= m.responseTime <= 2000.0
                       && m.errorMessage == Some(MockErrorMessage))
    && (start < end ==> start <= m.timestamp < end)
  }

  /** One element of `generateRequestMetrics`: `success` is `Math.random() > 0.1`. */
  method MockMetric(start: int, end: int) returns (m: RequestMetric)
    ensures MockMetricShape(m, start, end)
  {
    var r0 := Random();
    var success := r0 > 0.1;
    var r1 := Random();
    var r2 := Random();
    var r3 := Random();
    var r4 := Random();
    var r5 := Random();
    var endpoint := MockEndpoints[RandomInRange(0, |MockEndpoints| - 1, r1)];
    var httpMethod := MockMethods[RandomInRange(0, |MockMethods| - 1, r2)];
    var status := if success then MockStatusCodes[..2][RandomInRange(0, 1, r3)]
                  else MockStatusCodes[2..][RandomInRange(0, 4, r3)];
    var time := if success then RandomInRange(5, 500, r4) else RandomInRange(500, 2000, r4);
    m := RequestMetric(endpoint, httpMethod, status, time as real, TimestampInRange(start, end, r5),
                       success, if success then None else Some(MockErrorMessage));
  }

  /** `generateRequestMetrics(config, count)`: exactly `count` outcomes. */
  method GenerateRequestMetrics(config: TestConfig, count: nat) returns (ms: seq<RequestMetric>)
    ensures |ms| == count
    ensures forall i :: 0 <= i < |ms| ==> MockMetricShape(ms[i], config.testStartTime, EndTime(config))
  {
    var start, end := config.testStartTime, EndTime(config);
    ms := [];
    while |ms| < count
      invariant |ms| <= count
      invariant forall i :: 0 <= i < |ms| ==> MockMetricShape(ms[i], start, end)
    {
      var m := MockMetric(start, end);
      ms := ms + [m];
    }
  }

  // ------------------------------------------------------------------
  // computeAggregatedMetrics

  datatype EndpointStats = EndpointStats(requestCount: nat, successCount: nat, failureCount: nat, avgResponseTime: real)

  datatype AggregatedMetrics = AggregatedMetrics(
    totalRequests: nat,
    successCount: nat,
    failureCount: int,
    errorRate: Option<real>,
    avgResponseTime: Option<real>,
    p50ResponseTime: Option<real>,
    p90ResponseTime: Option<real>,
    p99ResponseTime: Option<real>,
    minResponseTime: Option<real>,
    maxResponseTime: Option<real>,
    requestsPerSecond: Option<real>,
    startTime: int,
    endTime: int,
    duration: real,
    byEndpoint: map<string, EndpointStats>)

  /** `a / b`, `None` where JavaScript gives `NaN` or an infinity. */
  function Ratio(a: real, b: real): (r: Option<real>)
    ensures r.Some? <==> b != 0.0
    ensures r.Some? ==> r.value * b == a
  {
    if b == 0.0 then None else Some(a / b)
  }

  /** `part / whole * 100`, `None` where JavaScript gives `NaN` or an infinity. */
  function Percent(part: int, whole: nat): (p: Option<real>)
    ensures p.Some? <==> whole > 0
    ensures p.Some? ==> p.value * whole as real == part as real * 100.0
  {
    if whole == 0 then None
    else
      var q := part as real / whole as real;
      assert q * whole as real == part as real;
      Some(q * 100.0)
  }

  /** `sorted[Math.floor(sorted.length * num / den)]`, undefined on an empty list. */
  function Percentile(sorted: seq<real>, num: nat, den: nat): (p: Option<real>)
    requires 0 < den && num < den
    ensures p.Some? <==> sorted != []
    ensures p.Some? ==> p.value == sorted[Stats.QuantileIndex(|sorted|, num, den)]
  {
    if sorted == [] then None else Some(sorted[Stats.QuantileIndex(|sorted|, num, den)])
  }

  function EndpointAndOutcome(m: RequestMetric): (string, bool) { (m.endpoint, m.success) }

  /** The statistics `computeAggregatedMetrics` means to keep for endpoint `e`. */
  function EndpointStatsOf(ms: seq<RequestMetric>, e: string): EndpointStats
    requires Grouping.CountKey(ms, EndpointOf, e) > 0
  {
    EndpointStats(Grouping.CountKey(ms, EndpointOf, e),
                  Grouping.CountKey(ms, EndpointAndOutcome, (e, true)),
                  Grouping.CountKey(ms, EndpointAndOutcome, (e, false)),
                  Stats.Mean(Grouping.Select(ms, EndpointOf, e, ResponseTimeOf)))
  }

  /** An endpoint's requests are its successes plus its failures. */
  lemma {:induction false} EndpointCountSplit(ms: seq<RequestMetric>, e: string)
    ensures Grouping.CountKey(ms, EndpointOf, e)
            == Grouping.CountKey(ms, EndpointAndOutcome, (e, true)) + Grouping.CountKey(ms, EndpointAndOutcome, (e, false))
  {
    if ms != [] {
      EndpointCountSplit(ms[..|ms| - 1], e);
    }
  }

  /** The per-endpoint request counts add up to the total. */
  lemma EndpointCountsSum(ms: seq<RequestMetric>)
    ensures Grouping.SumCounts(Grouping.Distinct(ms, EndpointOf), ms, EndpointOf) == |ms|
  {
    Grouping.GroupSizesSum(ms, EndpointOf);
  }

  /** One turn of the `forEach` for outcome `m` on its endpoint's entry `current` (all
      zero when the entry was just created): bump the counters, then
      `avg = (avg * (count - 1) + time) / count`. */
  function Bump(current: EndpointStats, m: RequestMetric): EndpointStats {
    var count := current.requestCount + 1;
    EndpointStats(count,
                  current.successCount + (if m.success then 1 else 0),
                  current.failureCount + (if m.success then 0 else 1),
                  (current.avgResponseTime * (count - 1) as real + m.responseTime) / count as real)
  }

  /** The entry before the outcome: the endpoint's statistics so far, or zeros. */
  function EntryBefore(seen: seq<RequestMetric>, e: string): EndpointStats {
    if Grouping.CountKey(seen, EndpointOf, e) > 0 then EndpointStatsOf(seen, e) else EndpointStats(0, 0, 0, 0.0)
  }

  /** Bumping the entry of an outcome's endpoint gives that endpoint's statistics over the
      list extended by the outcome: the incremental average is the exact mean. */
  lemma BumpIsStatsOf(seen: seq<RequestMetric>, m: RequestMetric)
    ensures Grouping.CountKey(seen + [m], EndpointOf, m.endpoint) > 0
    ensures Bump(EntryBefore(seen, m.endpoint), m) == EndpointStatsOf(seen + [m], m.endpoint)
  {
    var e := m.endpoint;
    var current := EntryBefore(seen, e);
    var next := Bump(current, m);
    var after := seen + [m];
    Grouping.CountKeyAppend(seen, m, EndpointOf, e);
    Grouping.CountKeyAppend(seen, m, EndpointAndOutcome, (e, true));
    Grouping.CountKeyAppend(seen, m, EndpointAndOutcome, (e, false));
    EndpointCountSplit(seen, e);
    assert next.requestCount == Grouping.CountKey(after, EndpointOf, e);
    assert next.successCount == Grouping.CountKey(after, EndpointAndOutcome, (e, true));
    assert next.failureCount == Grouping.CountKey(after, EndpointAndOutcome, (e, false));
    BumpAverage(seen, m);
  }

  lemma BumpAverage(seen: seq<RequestMetric>, m: RequestMetric)
    ensures Grouping.CountKey(seen + [m], EndpointOf, m.endpoint) > 0
    ensures Bump(EntryBefore(seen, m.endpoint), m).avgResponseTime
            == Stats.Mean(Grouping.Select(seen + [m], EndpointOf, m.endpoint, ResponseTimeOf))
  {
    var e := m.endpoint;
    var current := EntryBefore(seen, e);
    var before := Grouping.Select(seen, EndpointOf, e, ResponseTimeOf);
    Grouping.CountKeyAppend(seen, m, EndpointOf, e);
    Grouping.SelectAppend(seen, m, EndpointOf, e, ResponseTimeOf);
    assert |before| == current.requestCount;
    BumpMean(current, m, before);
  }

  /** `Bump` on an entry holding the mean of the response times `before` holds the mean with
      `m`'s response time appended. */
  lemma BumpMean(current: EndpointStats, m: RequestMetric, before: seq<real>)
    requires current.requestCount == |before|
    requires before == [] ==> current.avgResponseTime == 0.0
    requires before != [] ==> current.avgResponseTime == Stats.Mean(before)
    ensures Bump(current, m).avgResponseTime == Stats.Mean(before + [m.responseTime])
  {
    assert (current.requestCount + 1) - 1 == current.requestCount;
    Stats.IncrementalMean(before, current.avgResponseTime, current.requestCount, m.responseTime);
  }

  /** An outcome leaves the statistics of every other endpoint as they were. */
  lemma OtherEndpointsUnchanged(seen: seq<RequestMetric>, m: RequestMetric, k: string)
    requires k != m.endpoint
    ensures Grouping.CountKey(seen + [m], EndpointOf, k) == Grouping.CountKey(seen, EndpointOf, k)
    ensures Grouping.CountKey(seen, EndpointOf, k) > 0 ==> EndpointStatsOf(seen + [m], k) == EndpointStatsOf(seen, k)
  {
    Grouping.CountKeyAppend(seen, m, EndpointOf, k);
    Grouping.CountKeyAppend(seen, m, EndpointAndOutcome, (k, true));
    Grouping.CountKeyAppend(seen, m, EndpointAndOutcome, (k, false));
    Grouping.SelectAppend(seen, m, EndpointOf, k, ResponseTimeOf);
  }

  /** `byEndpoint` has one entry per distinct endpoint of `ms`, holding that endpoint's
      request, success and failure counts and the mean of its response times. */
  ghost predicate GroupedByEndpoint(byEndpoint: map<string, EndpointStats>, ms: seq<RequestMetric>) {
    (forall e :: e in byEndpoint <==> e in Grouping.Distinct(ms, EndpointOf))
    && forall e :: e in byEndpoint ==>
         Grouping.CountKey(ms, EndpointOf, e) > 0 && byEndpoint[e] == EndpointStatsOf(ms, e)
  }

  /** The loop state after the outcomes `seen`: one entry per endpoint seen so far, holding
      its statistics over `seen`. */
  ghost predicate Tallied(byEndpoint: map<string, EndpointStats>, seen: seq<RequestMetric>) {
    (forall e :: e in byEndpoint <==> Grouping.CountKey(seen, EndpointOf, e) > 0)
    && forall e :: e in byEndpoint ==> byEndpoint[e] == EntryBefore(seen, e)
  }

  /** One iteration of the `forEach` keeps the loop state. */
  lemma TallyStep(byEndpoint: map<string, EndpointStats>, seen: seq<RequestMetric>, m: RequestMetric, current: EndpointStats)
    requires Tallied(byEndpoint, seen)
    requires current == if m.endpoint in byEndpoint then byEndpoint[m.endpoint] else EndpointStats(0, 0, 0, 0.0)
    ensures Tallied(byEndpoint[m.endpoint := Bump(current, m)], seen + [m])
  {
    var next := byEndpoint[m.endpoint := Bump(current, m)];
    var after := seen + [m];
    assert current == EntryBefore(seen, m.endpoint);
    forall e ensures e in next <==> Grouping.CountKey(after, EndpointOf, e) > 0 {
      Grouping.CountKeyAppend(seen, m, EndpointOf, e);
    }
    forall e | e in next ensures next[e] == EntryBefore(after, e) {
      if e == m.endpoint {
        BumpIsStatsOf(seen, m);
      } else {
        OtherEndpointsUnchanged(seen, m, e);
      }
    }
  }

  /** The body of the `forEach`: the outcome's endpoint entry, or a zero entry, is bumped
      by the outcome. */
  method TallyOutcome(byEndpoint: map<string, EndpointStats>, ghost seen: seq<RequestMetric>, m: RequestMetric)
    returns (next: map<string, EndpointStats>)
    requires Tallied(byEndpoint, seen)
    ensures Tallied(next, seen + [m])
  {
    var current := if m.endpoint in byEndpoint then byEndpoint[m.endpoint] else EndpointStats(0, 0, 0, 0.0);
    TallyStep(byEndpoint, seen, m, current);
    next := byEndpoint[m.endpoint := Bump(current, m)];
  }

  /** The `forEach` over the outcomes that fills `byEndpoint`. */
  method GroupByEndpoint(ms: seq<RequestMetric>) returns (byEndpoint: map<string, EndpointStats>)
    ensures GroupedByEndpoint(byEndpoint, ms)
  {
    byEndpoint := map[];
    var i := 0;
    while i < |ms|
      invariant 0 <= i <= |ms|
      invariant Tallied(byEndpoint, ms[..i])
    {
      byEndpoint := TallyOutcome(byEndpoint, ms[..i], ms[i]);
      assert ms[..i + 1] == ms[..i] + [ms[i]];
      i := i + 1;
    }
    assert ms[..i] == ms;
    TalliedIsGrouped(byEndpoint, ms);
  }

  /** The loop state after every outcome is the grouping `computeAggregatedMetrics` means. */
  lemma TalliedIsGrouped(byEndpoint: map<string, EndpointStats>, ms: seq<RequestMetric>)
    requires Tallied(byEndpoint, ms)
    ensures GroupedByEndpoint(byEndpoint, ms)
  {
    forall e ensures e in byEndpoint <==> e in Grouping.Distinct(ms, EndpointOf) {
      Grouping.CountKeyPositive(ms, EndpointOf, e);
    }
  }

  datatype TimeSummary = TimeSummary(avg: Option<real>, p50: Option<real>, p90: Option<real>,
                                     p99: Option<real>, min: Option<real>, max: Option<real>)

  /** The statistics read off the ascending copy of the response times: the sum over the
      sorted list divided by the count, three percentiles, the first and the last. */
  function SummariseTimes(times: seq<real>): (t: TimeSummary)
    ensures var sorted := Stats.SortReals(times);
            t.avg == (if times == [] then None else Some(Stats.Mean(times)))
            && t.p50 == Percentile(sorted, 50, 100)
            && t.p90 == Percentile(sorted, 90, 100)
            && t.p99 == Percentile(sorted, 99, 100)
            && t.min == (if times == [] then None else Some(sorted[0]))
            && t.max == (if times == [] then None else Some(sorted[|sorted| - 1]))
  {
    var sorted := Stats.SortReals(times);
    var n := |sorted|;
    Stats.SumPermutation(sorted, times);
    TimeSummary(if n == 0 then None else Some(Stats.Sum(sorted) / n as real),
                Percentile(sorted, 50, 100), Percentile(sorted, 90, 100), Percentile(sorted, 99, 100),
                if n == 0 then None else Some(sorted[0]),
                if n == 0 then None else Some(sorted[n - 1]))
  }

  /** `computeAggregatedMetrics(requestMetrics, config)` */
  method ComputeAggregatedMetrics(ms: seq<RequestMetric>, config: TestConfig) returns (a: AggregatedMetrics)
    ensures a.totalRequests == |ms|
    ensures a.successCount == Stats.Count(ms, IsSuccess) && a.failureCount == |ms| - a.successCount
    ensures a.failureCount == Stats.Count(ms, IsFailure)
    ensures a.errorRate == Percent(a.failureCount, |ms|)
    ensures var t := SummariseTimes(ResponseTimes(ms));
            a.avgResponseTime == t.avg && a.p50ResponseTime == t.p50 && a.p90ResponseTime == t.p90
            && a.p99ResponseTime == t.p99 && a.minResponseTime == t.min && a.maxResponseTime == t.max
    ensures a.startTime == config.testStartTime && a.endTime == EndTime(config)
    ensures a.duration == (a.endTime - a.startTime) as real / 1000.0
    ensures a.requestsPerSecond == Ratio(|ms| as real, a.duration)
    ensures GroupedByEndpoint(a.byEndpoint, ms)
  {
    var start, end := config.testStartTime, EndTime(config);
    var duration := (end - start) as real / 1000.0;
    var total := |ms|;
    var successCount := Stats.Count(ms, IsSuccess);
    Stats.CountComplement(ms, IsSuccess, IsFailure);
    var failureCount := total - successCount;
    assert failureCount == Stats.Count(ms, IsFailure);
    var errorRate := Percent(failureCount, total);
    var t := SummariseTimes(ResponseTimes(ms));
    var byEndpoint := GroupByEndpoint(ms);
    a := AggregatedMetrics(
      total, successCount, failureCount, errorRate,
      t.avg, t.p50, t.p90, t.p99, t.min, t.max,
      Ratio(total as real, duration),
      start, end, duration, byEndpoint);
  }

  /** The reported extrema and percentiles are ordered, and the average lies between the
      extrema; the minimum and maximum are the least and greatest response times. */
  lemma PercentilesOrdered(ms: seq<RequestMetric>)
    requires ms != []
    ensures var sorted := Stats.SortReals(ResponseTimes(ms));
            var n := |sorted|;
            sorted[0] <= sorted[Stats.QuantileIndex(n, 50, 100)] <= sorted[Stats.QuantileIndex(n, 90, 100)]
            <= sorted[Stats.QuantileIndex(n, 99, 100)] <= sorted[n - 1]
    ensures var sorted := Stats.SortReals(ResponseTimes(ms));
            sorted[0] <= Stats.Mean(ResponseTimes(ms)) <= sorted[|sorted| - 1]
    ensures var sorted := Stats.SortReals(ResponseTimes(ms));
            forall i :: 0 <= i < |ms| ==> sorted[0] <= ms[i].responseTime <= sorted[|sorted| - 1]
  {
    var times := ResponseTimes(ms);
    var sorted := Stats.SortReals(times);
    Stats.SortedQuantilesOrdered(sorted);
    Stats.SortedFirstIsMin(times, sorted);
    Stats.MeanBounds(times, sorted[0], sorted[|sorted| - 1]);
  }

  /** Requests are successes plus failures, and the error rate is at most 100 percent. */
  lemma ErrorRateBounds(ms: seq<RequestMetric>)
    requires ms != []
    ensures Stats.Count(ms, IsSuccess) + Stats.Count(ms, IsFailure) == |ms|
    ensures Percent(Stats.Count(ms, IsFailure), |ms|).Some?
    ensures 0.0 <= Percent(Stats.Count(ms, IsFailure), |ms|).value <= 100.0
  {
    Stats.CountComplement(ms, IsSuccess, IsFailure);
    Stats.FractionBounds(Stats.Count(ms, IsFailure) as real, |ms| as real);
  }
}
