/** `TestService` (src/utils/testService.ts): the singleton that runs a load test against one
    URL, keeps the counters of the active test and a history of finished tests, and can
    simulate a test for demonstration. Clock readings, fetch outcomes and `Math.random()`
    draws are parameters; the `setTimeout` rescheduling between batches is not modelled. */
module TestRunner {
  import opened Wrappers
  import Text
  import Stats
  import Grouping

  datatype Status = Running | Completed | Failed

  /** `minResponseTime` starts at `Infinity` and becomes the least latency seen. */
  datatype Bound = Infinity | Finite(ms: int)

  /** One point of the time series; `statusCode` 0 marks a request that threw. */
  datatype TimeSeriesPoint = TimeSeriesPoint(timestamp: int, responseTime: int, statusCode: int)

  /** `TestResult`. Averages and rates that the source can compute as `NaN` or `Infinity`
      are `None`. */
  datatype TestResult = TestResult(
    id: string,
    timestamp: int,
    totalRequests: nat,
    successfulRequests: nat,
    failedRequests: nat,
    avgResponseTime: Option<real>,
    minResponseTime: Bound,
    maxResponseTime: int,
    requestsPerSecond: Option<real>,
    status: Status,
    errorMessage: Option<string>,
    statusCodes: map<string, nat>,
    timeSeries: seq<TimeSeriesPoint>)

  /** What `await fetch(...)` did: resolve with a response at `requestEnd`, or throw. */
  datatype FetchOutcome = Responded(status: int, requestEnd: int) | Threw(requestEnd: int)

  /** The record a new run or simulation starts from. */
  function Fresh(id: string, now: int): (t: TestResult)
    ensures t.totalRequests == 0 && t.successfulRequests == 0 && t.failedRequests == 0
    ensures t.avgResponseTime == Some(0.0) && t.minResponseTime == Infinity && t.maxResponseTime == 0
    ensures t.requestsPerSecond == Some(0.0) && t.status == Running && t.errorMessage.None?
    ensures t.statusCodes == map[] && t.timeSeries == []
    ensures t.id == id && t.timestamp == now
  {
    TestResult(id, now, 0, 0, 0, Some(0.0), Infinity, 0, Some(0.0), Running, None, map[], [])
  }

  /** `Math.min(current, x)` with `Infinity` as the neutral start. */
  function MinBound(b: Bound, x: int): (r: Bound)
    ensures r.Finite? && r.ms <= x
    ensures b.Finite? ==> r.ms <= b.ms && (r.ms == b.ms || r.ms == x)
    ensures b.Infinity? ==> r.ms == x
  {
    if b.Infinity? || x < b.ms then Finite(x) else b
  }

  function Max(a: int, b: int): (m: int)
    ensures m >= a && m >= b && (m == a || m == b)
  {
    if a >= b then a else b
  }

  /** The latencies of a time series, as exact reals. */
  function Latencies(ts: seq<TimeSeriesPoint>): (ls: seq<real>)
    ensures |ls| == |ts| && forall i :: 0 <= i < |ts| ==> ls[i] == ts[i].responseTime as real
  {
    if ts == [] then [] else Latencies(ts[..|ts| - 1]) + [ts[|ts| - 1].responseTime as real]
  }

  lemma LatenciesConcat(a: seq<TimeSeriesPoint>, b: seq<TimeSeriesPoint>)
    ensures Latencies(a + b) == Latencies(a) + Latencies(b)
  {
  }

  /** `min` and `max` are the least and the greatest of `lats`, `max` never below its
      start value 0, and `min` is `Infinity` exactly while nothing was folded in. */
  ghost predicate Extrema(min: Bound, max: int, lats: seq<int>) {
    (min.Infinity? <==> lats == [])
    && (min.Finite? ==> (forall i :: 0 <= i < |lats| ==> min.ms <= lats[i]) && min.ms in lats)
    && max >= 0 && (forall i :: 0 <= i < |lats| ==> lats[i] <= max)
    && (max == 0 || max in lats)
  }

  lemma ExtremaStep(min: Bound, max: int, lats: seq<int>, x: int)
    requires Extrema(min, max, lats)
    ensures Extrema(MinBound(min, x), Max(max, x), lats + [x])
  {
    var l := lats + [x];
    assert forall i :: 0 <= i < |lats| ==> l[i] == lats[i];
    assert l[|lats|] == x;
  }

  function StatusKey(code: int): string { Text.IntToString(code) }

  /** The bookkeeping of a run: every request is counted once as a success or a failure and
      has one time-series point, `statusCodes` counts the statuses in `counted`, and the
      extrema are those of `lats`. */
  ghost predicate Tallies(t: TestResult, counted: seq<int>, lats: seq<int>) {
    t.totalRequests == t.successfulRequests + t.failedRequests == |t.timeSeries|
    && Grouping.IsHistogram(t.statusCodes, counted, StatusKey)
    && Extrema(t.minResponseTime, t.maxResponseTime, lats)
  }

  /** The average kept by `simulateTest`: the exact mean of the latencies so far, and the
      initial 0 before any request. */
  ghost predicate RunningMean(t: TestResult) {
    if t.timeSeries == [] then t.avgResponseTime == Some(0.0)
    else t.avgResponseTime == Some(Stats.Mean(Latencies(t.timeSeries)))
  }

  /** The status codes `simulateTest` picks from. */
  const SimulatedCodes: seq<int> := [200, 200, 200, 200, 201, 204, 400, 404, 500]

  /** `statusCode.startsWith('2')` on the decimal rendering. */
  predicate StartsWithTwo(s: string) { |s| > 0 && s[0] == '2' }

  /** The active test after a fetch that completed with `status`: one more request and
      success, the status tallied, the latency folded into the extrema, the average set to
      `(totalResponseTime + latency) / totalRequests` and one time-series point. */
  function AfterResponse(t: TestResult, totalResponseTime: int, requestStart: int, status: int, requestEnd: int): TestResult {
    var rt := requestEnd - requestStart;
    t.(totalRequests := t.totalRequests + 1,
       successfulRequests := t.successfulRequests + 1,
       minResponseTime := MinBound(t.minResponseTime, rt),
       maxResponseTime := Max(t.maxResponseTime, rt),
       avgResponseTime := Some((totalResponseTime + rt) as real / (t.totalRequests + 1) as real),
       statusCodes := Grouping.Tally(t.statusCodes, StatusKey(status)),
       timeSeries := t.timeSeries + [TimeSeriesPoint(requestEnd, rt, status)])
  }

  /** The active test after a fetch that threw: one more request and failure and a point
      with status 0; the status counts and the extrema are untouched. */
  function AfterThrow(t: TestResult, requestStart: int, requestEnd: int): TestResult {
    t.(totalRequests := t.totalRequests + 1,
       failedRequests := t.failedRequests + 1,
       timeSeries := t.timeSeries + [TimeSeriesPoint(requestEnd, requestEnd - requestStart, 0)])
  }

  /** The active test after one `makeRequest` of a batch, a response or a throw. */
  function AfterRequest(t: TestResult, totalResponseTime: int, requestStart: int, outcome: FetchOutcome): TestResult {
    match outcome
    case Responded(status, requestEnd) => AfterResponse(t, totalResponseTime, requestStart, status, requestEnd)
    case Threw(requestEnd) => AfterThrow(t, requestStart, requestEnd)
  }

  /** The active test after the first `n` requests of a batch, completed in issue order;
      request `i` starts at `requestStart(i)` and ends as `outcome(i)`. */
  function AfterRequests(t: TestResult, totalResponseTime: int, n: nat, requestStart: nat -> int,
                         outcome: nat -> FetchOutcome): TestResult
  {
    if n == 0 then t
    else AfterRequest(AfterRequests(t, totalResponseTime, n - 1, requestStart, outcome),
                      totalResponseTime, requestStart(n - 1), outcome(n - 1))
  }

  /** The point a request adds to the time series: its end, its latency, and its status
      or 0 when the fetch threw. */
  function PointOf(requestStart: int, outcome: FetchOutcome): TimeSeriesPoint {
    match outcome
    case Responded(status, requestEnd) => TimeSeriesPoint(requestEnd, requestEnd - requestStart, status)
    case Threw(requestEnd) => TimeSeriesPoint(requestEnd, requestEnd - requestStart, 0)
  }

  /** `n` requests of a batch add `n` requests, split into the responses (successes) and the
      throws (failures), and append one point per request in issue order. */
  lemma {:induction false} AfterRequestsExtends(t: TestResult, totalResponseTime: int, n: nat,
                                                 requestStart: nat -> int, outcome: nat -> FetchOutcome)
    ensures var t' := AfterRequests(t, totalResponseTime, n, requestStart, outcome);
            t'.totalRequests == t.totalRequests + n
            && t'.successfulRequests + t'.failedRequests == t.successfulRequests + t.failedRequests + n
            && t'.successfulRequests >= t.successfulRequests && t'.failedRequests >= t.failedRequests
            && |t'.timeSeries| == |t.timeSeries| + n
            && t'.timeSeries[..|t.timeSeries|] == t.timeSeries
            && forall i :: 0 <= i < n ==> t'.timeSeries[|t.timeSeries| + i] == PointOf(requestStart(i), outcome(i))
  {
    if n > 0 {
      AfterRequestsExtends(t, totalResponseTime, n - 1, requestStart, outcome);
      var p := AfterRequests(t, totalResponseTime, n - 1, requestStart, outcome);
      assert p.timeSeries[..|t.timeSeries|] == t.timeSeries;
      var t' := AfterRequest(p, totalResponseTime, requestStart(n - 1), outcome(n - 1));
      assert t'.timeSeries == p.timeSeries + [PointOf(requestStart(n - 1), outcome(n - 1))];
      assert t'.timeSeries[..|p.timeSeries|] == p.timeSeries;
    }
  }

  /** A completed fetch keeps the bookkeeping, with its status and latency added. */
  lemma ResponseKeepsTallies(t: TestResult, counted: seq<int>, lats: seq<int>, totalResponseTime: int,
                             requestStart: int, status: int, requestEnd: int)
    requires Tallies(t, counted, lats)
    ensures Tallies(AfterResponse(t, totalResponseTime, requestStart, status, requestEnd),
                    counted + [status], lats + [requestEnd - requestStart])
  {
    Grouping.TallyAdds(t.statusCodes, counted, StatusKey, status);
    ExtremaStep(t.minResponseTime, t.maxResponseTime, lats, requestEnd - requestStart);
  }

  /** A thrown fetch keeps the bookkeeping: nothing is tallied or folded. */
  lemma ThrowKeepsTallies(t: TestResult, counted: seq<int>, lats: seq<int>, requestStart: int, requestEnd: int)
    requires Tallies(t, counted, lats)
    ensures Tallies(AfterThrow(t, requestStart, requestEnd), counted, lats)
  {
  }

  class TestService {
    var testHistory: seq<TestResult>
    var activeTest: Option<TestResult>
    /** Whether `abortController` is set, and whether its signal was aborted. */
    var hasAbortController: bool
    var aborted: bool
    /** The statuses tallied in the active test's `statusCodes`, and the latencies folded
        into its extrema, in order. */
    ghost var counted: seq<int>
    ghost var lats: seq<int>

    ghost predicate Valid()
      reads this
    {
      activeTest.Some? ==> Tallies(activeTest.value, counted, lats)
    }

    constructor ()
      ensures Valid() && testHistory == [] && activeTest.None? && !hasAbortController
    {
      testHistory := [];
      activeTest := None;
      hasAbortController := false;
      aborted := false;
      counted := [];
      lats := [];
    }

    /** The start of `runTest`: a new abort controller and a fresh active test. */
    method StartTest(id: string, now: int)
      modifies this
      ensures Valid()
      ensures activeTest == Some(Fresh(id, now)) && hasAbortController && !aborted
      ensures testHistory == old(testHistory)
    {
      hasAbortController := true;
      aborted := false;
      activeTest := Some(Fresh(id, now));
      counted := [];
      lats := [];
    }

    /** `makeRequest(config, timeSeries, totalResponseTime)`. The run's `timeSeries` array
        and the copy stored in the active test are equal after every request, so one
        sequence stands for both. `totalResponseTime` arrives by value and the sum is
        never written back. */
    method MakeRequest(totalResponseTime: int, requestStart: int, outcome: FetchOutcome)
      requires Valid()
      modifies this
      ensures Valid()
      ensures old(activeTest).None? ==> activeTest.None? && testHistory == old(testHistory)
      ensures old(activeTest).Some? && outcome.Responded? ==>
                activeTest == Some(AfterResponse(old(activeTest).value, totalResponseTime, requestStart, outcome.status, outcome.requestEnd))
      ensures old(activeTest).Some? && outcome.Threw? ==>
                activeTest == Some(AfterThrow(old(activeTest).value, requestStart, outcome.requestEnd))
      ensures testHistory == old(testHistory) && hasAbortController == old(hasAbortController)
      ensures aborted == old(aborted)
    {
      if activeTest.None? {
        return;
      }
      var t := activeTest.value;
      match outcome
      case Responded(status, requestEnd) =>
        var responseTime := requestEnd - requestStart;
        ResponseKeepsTallies(t, counted, lats, totalResponseTime, requestStart, status, requestEnd);
        activeTest := Some(AfterResponse(t, totalResponseTime, requestStart, status, requestEnd));
        counted := counted + [status];
        lats := lats + [responseTime];
      case Threw(requestEnd) =>
        ThrowKeepsTallies(t, counted, lats, requestStart, requestEnd);
        activeTest := Some(AfterThrow(t, requestStart, requestEnd));
    }

    /** One `runBatch`: up to `concurrentUsers` requests, issued while the signal is not
        aborted and the clock `now(i)` is before `endTime`. Every request receives the
        run's `totalResponseTime`, which stays 0. Requests complete in issue order. */
    method RunBatch(concurrentUsers: int, endTime: int, now: nat -> int,
                    requestStart: nat -> int, outcome: nat -> FetchOutcome) returns (issued: nat)
      requires Valid()
      modifies this
      ensures Valid()
      ensures issued <= Max(concurrentUsers, 0)
      ensures issued < concurrentUsers ==> aborted || now(issued) >= endTime
      ensures forall i :: 0 <= i < issued ==> now(i) < endTime
      ensures old(activeTest).Some? <==> activeTest.Some?
      ensures old(activeTest).Some? ==>
                activeTest == Some(AfterRequests(old(activeTest).value, 0, issued, requestStart, outcome))
      ensures testHistory == old(testHistory) && aborted == old(aborted)
      ensures hasAbortController == old(hasAbortController)
    {
      issued := 0;
      while issued < concurrentUsers
        invariant Valid() && testHistory == old(testHistory) && aborted == old(aborted)
        invariant hasAbortController == old(hasAbortController)
        invariant issued <= Max(concurrentUsers, 0)
        invariant forall i :: 0 <= i < issued ==> now(i) < endTime
        invariant old(activeTest).Some? <==> activeTest.Some?
        invariant old(activeTest).Some? ==>
                    activeTest == Some(AfterRequests(old(activeTest).value, 0, issued, requestStart, outcome))
        decreases concurrentUsers - issued
      {
        if aborted || now(issued) >= endTime {
          break;
        }
        MakeRequest(0, requestStart(issued), outcome(issued));
        issued := issued + 1;
      }
    }

    /** `finalizeTest(startTime)`: the rate over the elapsed seconds, status `completed`, a
        copy appended to the history, and the abort controller dropped. The active test
        itself stays set. */
    method FinalizeTest(startTime: int, now: int)
      requires Valid()
      modifies this
      ensures Valid()
      ensures old(activeTest).None? ==> activeTest.None? && testHistory == old(testHistory)
                                        && hasAbortController == old(hasAbortController)
      ensures old(activeTest).Some? ==>
                var t := old(activeTest).value;
                var f := t.(requestsPerSecond := Rate(t.totalRequests, startTime, now), status := Completed);
                activeTest == Some(f) && testHistory == old(testHistory) + [f] && !hasAbortController
      ensures aborted == old(aborted)
    {
      if activeTest.None? {
        return;
      }
      var t := activeTest.value;
      var f := t.(requestsPerSecond := Rate(t.totalRequests, startTime, now), status := Completed);
      activeTest := Some(f);
      testHistory := testHistory + [f];
      hasAbortController := false;
    }

    /** `cancelTest()`: only with an abort controller; the active test, if any, is marked
        failed, appended to the history and cleared. */
    method CancelTest()
      requires Valid()
      modifies this
      ensures Valid()
      ensures !old(hasAbortController) ==>
                activeTest == old(activeTest) && testHistory == old(testHistory) && aborted == old(aborted)
      ensures old(hasAbortController) ==> aborted && hasAbortController
      ensures old(hasAbortController) && old(activeTest).Some? ==>
                var f := old(activeTest).value.(status := Failed, errorMessage := Some("Test cancelled by user"));
                activeTest.None? && testHistory == old(testHistory) + [f]
      ensures old(hasAbortController) && old(activeTest).None? ==>
                activeTest.None? && testHistory == old(testHistory)
    {
      if hasAbortController {
        aborted := true;
        if activeTest.Some? {
          var f := activeTest.value.(status := Failed, errorMessage := Some("Test cancelled by user"));
          testHistory := testHistory + [f];
          activeTest := None;
        }
      }
    }

    method GetActiveTest() returns (t: Option<TestResult>)
      ensures t == activeTest
    {
      t := activeTest;
    }

    /** `getTestHistory()` returns a copy, so later changes to the history do not reach it. */
    method GetTestHistory() returns (h: seq<TestResult>)
      ensures h == testHistory
    {
      h := testHistory;
    }

    method ClearTestHistory()
      modifies this
      ensures testHistory == [] && activeTest == old(activeTest)
      ensures Valid() == old(Valid())
      ensures hasAbortController == old(hasAbortController) && aborted == old(aborted)
    {
      testHistory := [];
    }

    /** The start of `simulateTest`: a fresh active test. */
    method StartSimulation(id: string, now: int)
      modifies this
      ensures Valid() && activeTest == Some(Fresh(id, now)) && RunningMean(activeTest.value)
      ensures testHistory == old(testHistory) && hasAbortController == old(hasAbortController)
      ensures aborted == old(aborted)
    {
      activeTest := Some(Fresh(id, now));
      counted := [];
      lats := [];
    }

    /** One `updateSimulation` tick: `floor(r * concurrentUsers) + 1` new requests, each with
        a latency in [50, 499] and a status drawn from `SimulatedCodes`; a request succeeds
        when its status starts with `2`. The average is then recomputed from the previous
        average and the latencies of the tick. */
    method SimulateTick(concurrentUsers: int, countDraw: real, timeDraw: nat -> real,
                        codeDraw: nat -> real, now: nat -> int) returns (added: int)
      requires 0.0 <= countDraw < 1.0
      requires forall i: nat :: 0.0 <= timeDraw(i) < 1.0 && 0.0 <= codeDraw(i) < 1.0
      requires Valid()
      modifies this
      ensures Valid()
      ensures old(activeTest).None? ==> activeTest.None? && added == 0
      ensures concurrentUsers >= 1 && old(activeTest).Some? ==> 1 <= added <= concurrentUsers
      ensures old(activeTest).Some? ==> activeTest.Some?
      ensures old(activeTest).Some? ==>
                var t, t' := old(activeTest).value, activeTest.value;
                var n := |t.timeSeries|;
                t'.totalRequests == t.totalRequests + Max(added, 0)
                && |t'.timeSeries| == n + Max(added, 0) && t'.timeSeries[..n] == t.timeSeries
                && (forall i :: n <= i < |t'.timeSeries| ==>
                      50 <= t'.timeSeries[i].responseTime <= 499 && t'.timeSeries[i].statusCode in SimulatedCodes)
                && t'.successfulRequests - t.successfulRequests
                   == Stats.Count(t'.timeSeries[n..], IsSimulatedSuccess)
      ensures concurrentUsers >= 1 && old(activeTest).Some? && RunningMean(old(activeTest).value)
              ==> RunningMean(activeTest.value)
      ensures testHistory == old(testHistory) && hasAbortController == old(hasAbortController)
    {
      if activeTest.None? {
        return 0;
      }
      var start := activeTest.value;
      var n := |start.timeSeries|;
      Stats.ScaledFloorBounds(countDraw, concurrentUsers);
      added := (countDraw * concurrentUsers as real).Floor + 1;
      var increment := SimulateRequests(added, timeDraw, codeDraw, now);
      var t := activeTest.value;
      var avg := TickAverage(start.avgResponseTime, t.totalRequests, added, increment);
      SetAverage(avg);
      if concurrentUsers >= 1 && RunningMean(start) {
        TickKeepsMean(start, t, added, increment);
      }
    }

    /** The tick's inner loop: `count` simulated requests; `increment` is the sum of their
        latencies. */
    method SimulateRequests(count: int, timeDraw: nat -> real, codeDraw: nat -> real, now: nat -> int)
      returns (increment: int)
      requires forall i: nat :: 0.0 <= timeDraw(i) < 1.0 && 0.0 <= codeDraw(i) < 1.0
      requires Valid() && activeTest.Some?
      modifies this
      ensures Valid() && activeTest.Some?
      ensures TickSoFar(old(activeTest).value, activeTest.value, Max(count, 0), increment)
      ensures testHistory == old(testHistory) && hasAbortController == old(hasAbortController)
    {
      ghost var start := activeTest.value;
      increment := 0;
      var i := 0;
      while i < count
        invariant 0 <= i <= Max(count, 0)
        invariant Valid() && activeTest.Some?
        invariant TickSoFar(start, activeTest.value, i, increment)
        invariant testHistory == old(testHistory) && hasAbortController == old(hasAbortController)
      {
        var responseTime := SimulatedLatency(timeDraw(i));
        var code := SimulatedCode(codeDraw(i));
        ghost var before := activeTest.value;
        RecordSimulated(responseTime, code, now(i));
        TickSoFarStep(start, before, activeTest.value, i, increment, TimeSeriesPoint(now(i), responseTime, code));
        increment := increment + responseTime;
        i := i + 1;
      }
    }

    /** The tick's store of the recomputed average into the active test. */
    method SetAverage(avg: Option<real>)
      requires Valid() && activeTest.Some?
      modifies this
      ensures Valid() && activeTest == Some(old(activeTest).value.(avgResponseTime := avg))
      ensures testHistory == old(testHistory) && hasAbortController == old(hasAbortController)
    {
      activeTest := Some(activeTest.value.(avgResponseTime := avg));
    }

    /** The body of the tick's inner loop for one simulated request. */
    method RecordSimulated(responseTime: int, code: int, timestamp: int)
      requires Valid() && activeTest.Some?
      modifies this
      ensures Valid() && activeTest.Some?
      ensures var t := old(activeTest).value;
              var ok := StartsWithTwo(StatusKey(code));
              activeTest.value == t.(totalRequests := t.totalRequests + 1,
                                     successfulRequests := t.successfulRequests + (if ok then 1 else 0),
                                     failedRequests := t.failedRequests + (if ok then 0 else 1),
                                     minResponseTime := MinBound(t.minResponseTime, responseTime),
                                     maxResponseTime := Max(t.maxResponseTime, responseTime),
                                     statusCodes := Grouping.Tally(t.statusCodes, StatusKey(code)),
                                     timeSeries := t.timeSeries + [TimeSeriesPoint(timestamp, responseTime, code)])
      ensures testHistory == old(testHistory) && hasAbortController == old(hasAbortController)
    {
      var t := activeTest.value;
      var isSuccess := StartsWithTwo(StatusKey(code));
      Grouping.TallyAdds(t.statusCodes, counted, StatusKey, code);
      ExtremaStep(t.minResponseTime, t.maxResponseTime, lats, responseTime);
      activeTest := Some(t.(totalRequests := t.totalRequests + 1,
                            successfulRequests := t.successfulRequests + (if isSuccess then 1 else 0),
                            failedRequests := t.failedRequests + (if isSuccess then 0 else 1),
                            minResponseTime := MinBound(t.minResponseTime, responseTime),
                            maxResponseTime := Max(t.maxResponseTime, responseTime),
                            statusCodes := Grouping.Tally(t.statusCodes, StatusKey(code)),
                            timeSeries := t.timeSeries + [TimeSeriesPoint(timestamp, responseTime, code)]));
      counted := counted + [code];
      lats := lats + [responseTime];
    }

    /** The end of `simulateTest`: rate, status `completed`, a copy appended to the history,
        and the active test cleared; the copy is the result. */
    method FinishSimulation(startTime: int, now: int) returns (r: Option<TestResult>)
      requires Valid()
      modifies this
      ensures Valid() && activeTest.None?
      ensures old(activeTest).None? ==> r.None? && testHistory == old(testHistory)
      ensures old(activeTest).Some? ==>
                var t := old(activeTest).value;
                r == Some(t.(requestsPerSecond := Rate(t.totalRequests, startTime, now), status := Completed))
                && testHistory == old(testHistory) + [r.value]
      ensures hasAbortController == old(hasAbortController) && aborted == old(aborted)
    {
      if activeTest.None? {
        return None;
      }
      var t := activeTest.value;
      var f := t.(requestsPerSecond := Rate(t.totalRequests, startTime, now), status := Completed);
      testHistory := testHistory + [f];
      activeTest := None;
      r := Some(f);
    }
  }

  /** `totalRequests / ((now - startTime) / 1000)`: `None` where the source divides by zero. */
  function Rate(total: nat, startTime: int, now: int): (r: Option<real>)
    ensures r.None? <==> now == startTime
    ensures r.Some? ==> r.value * ((now - startTime) as real / 1000.0) == total as real
  {
    var seconds := (now - startTime) as real / 1000.0;
    if seconds == 0.0 then None else Some(total as real / seconds)
  }

  /** `(avg * (total - newRequests) + increment) / total`, with `NaN` (`None`) absorbing and
      produced by `0 / 0`, and `x / 0` (`Infinity`) also `None`. */
  function TickAverage(avg: Option<real>, total: nat, added: int, increment: int): (r: Option<real>)
    ensures r.Some? <==> avg.Some? && total > 0
  {
    if avg.None? || total == 0 then None
    else Some((avg.value * (total - added) as real + increment as real) / total as real)
  }

  /** `TickAverage` yields `m` once its formula is known to evaluate to `m`. */
  lemma TickAverageIs(avg: Option<real>, total: nat, added: int, increment: int, m: real)
    requires avg.Some? && total > 0
    requires (avg.value * (total - added) as real + increment as real) / total as real == m
    ensures TickAverage(avg, total, added, increment) == Some(m)
  {
  }

  /** `Math.floor(Math.random() * 450) + 50`. */
  function SimulatedLatency(r: real): (ms: int)
    requires 0.0 <= r < 1.0
    ensures 50 <= ms <= 499
  {
    Stats.ScaledFloorBounds(r, 450);
    (r * 450 as real).Floor + 50
  }

  /** `statusCodes[Math.floor(Math.random() * statusCodes.length)]`. */
  function SimulatedCode(r: real): (code: int)
    requires 0.0 <= r < 1.0
    ensures code in SimulatedCodes
  {
    Stats.ScaledFloorBounds(r, |SimulatedCodes|);
    SimulatedCodes[(r * |SimulatedCodes| as real).Floor]
  }

  function IsSimulatedSuccess(p: TimeSeriesPoint): bool {
    StartsWithTwo(StatusKey(p.statusCode))
  }

  /** The state of a tick after `i` simulated requests, started from `start`. */
  ghost predicate TickSoFar(start: TestResult, t: TestResult, i: nat, increment: int) {
    var n := |start.timeSeries|;
    t.totalRequests == start.totalRequests + i
    && t.successfulRequests >= start.successfulRequests
    && t.avgResponseTime == start.avgResponseTime
    && |t.timeSeries| == n + i && t.timeSeries[..n] == start.timeSeries
    && (forall j :: n <= j < n + i ==>
          50 <= t.timeSeries[j].responseTime <= 499 && t.timeSeries[j].statusCode in SimulatedCodes)
    && t.successfulRequests - start.successfulRequests == Stats.Count(t.timeSeries[n..], IsSimulatedSuccess)
    && increment as real == Stats.Sum(Latencies(t.timeSeries[n..]))
  }

  lemma TickSoFarStep(start: TestResult, t: TestResult, t': TestResult, i: nat, increment: int, p: TimeSeriesPoint)
    requires TickSoFar(start, t, i, increment)
    requires 50 <= p.responseTime <= 499 && p.statusCode in SimulatedCodes
    requires t'.totalRequests == t.totalRequests + 1
    requires t'.successfulRequests == t.successfulRequests + (if IsSimulatedSuccess(p) then 1 else 0)
    requires t'.avgResponseTime == t.avgResponseTime && t'.timeSeries == t.timeSeries + [p]
    ensures TickSoFar(start, t', i + 1, increment + p.responseTime)
  {
    var n := |start.timeSeries|;
    TickStep(t.timeSeries, n, p);
    forall j | n <= j < n + i + 1
      ensures 50 <= t'.timeSeries[j].responseTime <= 499 && t'.timeSeries[j].statusCode in SimulatedCodes
    {
      if j < n + i {
        assert t'.timeSeries[j] == t.timeSeries[j];
      }
    }
  }

  lemma TickStep(ts: seq<TimeSeriesPoint>, n: nat, p: TimeSeriesPoint)
    requires n <= |ts|
    ensures (ts + [p])[..n] == ts[..n] && (ts + [p])[n..] == ts[n..] + [p]
    ensures Stats.Count((ts + [p])[n..], IsSimulatedSuccess)
            == Stats.Count(ts[n..], IsSimulatedSuccess) + (if IsSimulatedSuccess(p) then 1 else 0)
    ensures Stats.Sum(Latencies((ts + [p])[n..])) == Stats.Sum(Latencies(ts[n..])) + p.responseTime as real
  {
    assert (ts + [p])[n..] == ts[n..] + [p];
    Stats.CountAppend(ts[n..], p, IsSimulatedSuccess);
    LatenciesConcat(ts[n..], [p]);
    Stats.SumAppend(Latencies(ts[n..]), p.responseTime as real);
  }

  /** The tick's formula keeps the exact mean: the previous mean times the previous count,
      plus the new latencies, over the new count. */
  lemma TickMean(before: seq<TimeSeriesPoint>, after: seq<TimeSeriesPoint>, avg: Option<real>, added: int, increment: int)
    requires |before| < |after| && added == |after| - |before| && after[..|before|] == before
    requires increment as real == Stats.Sum(Latencies(after[|before|..]))
    requires if before == [] then avg == Some(0.0) else avg == Some(Stats.Mean(Latencies(before)))
    ensures TickAverage(avg, |after|, added, increment) == Some(Stats.Mean(Latencies(after)))
  {
    var rest := after[|before|..];
    assert after == before + rest;
    LatenciesConcat(before, rest);
    var lb, lr := Latencies(before), Latencies(rest);
    assert Latencies(after) == lb + lr;
    TickAverageExtends(avg, |after|, added, increment, lb, lr);
  }

  /** A tick of `added >= 1` requests that started from a running mean recomputes it. */
  lemma TickKeepsMean(start: TestResult, t: TestResult, added: int, increment: int)
    requires added >= 1 && TickSoFar(start, t, added, increment) && RunningMean(start)
    requires start.totalRequests == |start.timeSeries|
    ensures RunningMean(t.(avgResponseTime := TickAverage(start.avgResponseTime, t.totalRequests, added, increment)))
  {
    TickMean(start.timeSeries, t.timeSeries, start.avgResponseTime, added, increment);
  }

  /** `TickAverage` over samples `lb + lr`, from the mean of `lb` and the sum of `lr`. */
  lemma TickAverageExtends(avg: Option<real>, total: nat, added: int, increment: int, lb: seq<real>, lr: seq<real>)
    requires avg.Some? && total == |lb + lr| > 0 && total - added == |lb|
    requires increment as real == Stats.Sum(lr)
    requires if lb == [] then avg.value == 0.0 else avg.value == Stats.Mean(lb)
    ensures TickAverage(avg, total, added, increment) == Some(Stats.Mean(lb + lr))
  {
    Stats.MeanExtend(lb, lr, avg.value, total - added, increment as real, total);
    TickAverageIs(avg, total, added, increment, Stats.Mean(lb + lr));
  }


}
