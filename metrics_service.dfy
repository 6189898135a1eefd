/** `MetricsService` (app/services/metrics_service.py): closes a test run by aggregating its
    recorded metric points (counts, extrema, means, the error histogram and the duration)
    and checks the format a report is asked for. The database session is replaced by the
    list of the run's metric points and the clock by a reading `now` in seconds. */
module MetricsService {
  import opened Wrappers
  import Stats
  import Grouping

  /** A row of `MetricPoint`; `error` is the nullable error text. */
  datatype MetricPoint = MetricPoint(
    endpoint: string,
    responseTime: real,
    statusCode: int,
    cpuUsage: real,
    memoryUsage: real,
    error: Option<string>)

  predicate IsSuccess(m: MetricPoint) { m.statusCode < 400 }
  predicate IsFailure(m: MetricPoint) { m.statusCode >= 400 }

  /** `if metric.error:` — a null and an empty text are both false. */
  predicate HasError(m: MetricPoint) { m.error.Some? && m.error.value != "" }

  function ResponseTimes(ms: seq<MetricPoint>): (rs: seq<real>)
    ensures |rs| == |ms| && forall i :: 0 <= i < |ms| ==> rs[i] == ms[i].responseTime
  {
    seq(|ms|, i requires 0 <= i < |ms| => ms[i].responseTime)
  }

  function CpuUsages(ms: seq<MetricPoint>): (rs: seq<real>)
    ensures |rs| == |ms| && forall i :: 0 <= i < |ms| ==> rs[i] == ms[i].cpuUsage
  {
    seq(|ms|, i requires 0 <= i < |ms| => ms[i].cpuUsage)
  }

  function MemoryUsages(ms: seq<MetricPoint>): (rs: seq<real>)
    ensures |rs| == |ms| && forall i :: 0 <= i < |ms| ==> rs[i] == ms[i].memoryUsage
  {
    seq(|ms|, i requires 0 <= i < |ms| => ms[i].memoryUsage)
  }

  /** `np.mean`: the exact mean, and NaN (`None`) for no samples. */
  function MeanOrNaN(s: seq<real>): (m: Option<real>)
    ensures m.Some? <==> s != []
    ensures s != [] ==> m.value == Stats.Mean(s)
  {
    if s == [] then None else Some(Stats.Mean(s))
  }

  /** The truthy error texts of the points, in order. */
  function ErrorTexts(ms: seq<MetricPoint>): (es: seq<string>)
    ensures |es| == Stats.Count(ms, HasError)
    ensures forall i :: 0 <= i < |es| ==> es[i] != ""
  {
    if ms == [] then []
    else
      var last := ms[|ms| - 1];
      ErrorTexts(ms[..|ms| - 1]) + (if HasError(last) then [last.error.value] else [])
  }

  lemma ErrorTextsStep(ms: seq<MetricPoint>, i: nat)
    requires i < |ms|
    ensures ErrorTexts(ms[..i + 1]) == ErrorTexts(ms[..i]) + (if HasError(ms[i]) then [ms[i].error.value] else [])
  {
    assert ms[..i + 1][..i] == ms[..i];
  }

  function SameText(e: string): string { e }

  /** The text `error_counts` is built from: counts per distinct error text. */
  ghost predicate IsErrorHistogram(h: map<string, nat>, ms: seq<MetricPoint>) {
    Grouping.IsHistogram(h, ErrorTexts(ms), SameText)
  }

  const MaxOfEmpty: string := "ValueError: max() arg is an empty sequence"

  /** A row of `TestRun`; columns that were never written are `None`. */
  class TestRun {
    var startTime: real
    var endTime: Option<real>
    var totalRequests: nat
    var successfulRequests: nat
    var failedRequests: nat
    var avgResponseTime: Option<real>
    var maxResponseTime: Option<real>
    var minResponseTime: Option<real>
    var avgCpuUsage: Option<real>
    var avgMemoryUsage: Option<real>
    var testDuration: Option<real>
    var errors: Option<map<string, nat>>

    /** `create_test_run`: the start time is the clock reading, the counters their
        column defaults. */
    constructor (now: real)
      ensures startTime == now && endTime.None?
      ensures totalRequests == 0 && successfulRequests == 0 && failedRequests == 0
      ensures avgResponseTime.None? && maxResponseTime.None? && minResponseTime.None?
      ensures avgCpuUsage.None? && avgMemoryUsage.None? && testDuration.None? && errors.None?
    {
      startTime := now;
      endTime := None;
      totalRequests, successfulRequests, failedRequests := 0, 0, 0;
      avgResponseTime, maxResponseTime, minResponseTime := None, None, None;
      avgCpuUsage, avgMemoryUsage, testDuration, errors := None, None, None, None;
    }
  }

  /** The loop that fills `error_counts`. */
  method CountErrors(ms: seq<MetricPoint>) returns (h: map<string, nat>)
    ensures IsErrorHistogram(h, ms)
  {
    h := map[];
    var i := 0;
    while i < |ms|
      invariant 0 <= i <= |ms|
      invariant IsErrorHistogram(h, ms[..i])
    {
      var m := ms[i];
      ErrorTextsStep(ms, i);
      if HasError(m) {
        var e := m.error.value;
        Grouping.TallyAdds(h, ErrorTexts(ms[..i]), SameText, e);
        assert SameText(e) == e;
        h := Grouping.Tally(h, e);
        assert Grouping.IsHistogram(h, ErrorTexts(ms[..i + 1]), SameText);
      } else {
        assert ErrorTexts(ms[..i + 1]) == ErrorTexts(ms[..i]);
      }
      i := i + 1;
    }
    assert ms[..i] == ms;
  }

  /** `finalize_test_run` over the metric points of the run, at clock reading `now`.
      With no points `max()` raises, after the end time, the counts and the mean latency
      have been written. */
  method FinalizeTestRun(run: TestRun, ms: seq<MetricPoint>, now: real) returns (r: Result<TestRun>)
    modifies run
    ensures run.startTime == old(run.startTime) && run.endTime == Some(now)
    ensures run.totalRequests == |ms|
    ensures run.successfulRequests == Stats.Count(ms, IsSuccess)
    ensures run.failedRequests == Stats.Count(ms, IsFailure)
    ensures run.avgResponseTime == MeanOrNaN(ResponseTimes(ms))
    ensures ms == [] ==> r == Err(MaxOfEmpty)
                         && run.maxResponseTime == old(run.maxResponseTime)
                         && run.minResponseTime == old(run.minResponseTime)
                         && run.avgCpuUsage == old(run.avgCpuUsage)
                         && run.avgMemoryUsage == old(run.avgMemoryUsage)
                         && run.testDuration == old(run.testDuration)
                         && run.errors == old(run.errors)
    ensures ms != [] ==> r == Ok(run)
    ensures ms != [] ==> run.maxResponseTime == Some(Stats.Max(ResponseTimes(ms)))
                         && run.minResponseTime == Some(Stats.Min(ResponseTimes(ms)))
                         && run.avgCpuUsage == Some(Stats.Mean(CpuUsages(ms)))
                         && run.avgMemoryUsage == Some(Stats.Mean(MemoryUsages(ms)))
                         && run.testDuration == Some(now - run.startTime)
                         && run.errors.Some? && IsErrorHistogram(run.errors.value, ms)
  {
    WriteCounts(run, ms, now);
    if ms == [] {
      return Err(MaxOfEmpty);
    }
    WriteAggregates(run, ms, now);
    return Ok(run);
  }

  /** Lines that run before `max()`: the end time, the three counts and the mean latency. */
  method WriteCounts(run: TestRun, ms: seq<MetricPoint>, now: real)
    modifies run
    ensures run.startTime == old(run.startTime) && run.endTime == Some(now)
    ensures run.totalRequests == |ms|
    ensures run.successfulRequests == Stats.Count(ms, IsSuccess)
    ensures run.failedRequests == Stats.Count(ms, IsFailure)
    ensures run.avgResponseTime == MeanOrNaN(ResponseTimes(ms))
    ensures run.maxResponseTime == old(run.maxResponseTime)
    ensures run.minResponseTime == old(run.minResponseTime)
    ensures run.avgCpuUsage == old(run.avgCpuUsage)
    ensures run.avgMemoryUsage == old(run.avgMemoryUsage)
    ensures run.testDuration == old(run.testDuration)
    ensures run.errors == old(run.errors)
  {
    run.endTime := Some(now);
    run.totalRequests := |ms|;
    run.successfulRequests := Stats.Count(ms, IsSuccess);
    run.failedRequests := Stats.Count(ms, IsFailure);
    run.avgResponseTime := MeanOrNaN(ResponseTimes(ms));
  }

  /** Lines from `max()` on: extrema, resource means, the duration and the error counts. */
  method WriteAggregates(run: TestRun, ms: seq<MetricPoint>, now: real)
    requires ms != []
    modifies run
    ensures run.startTime == old(run.startTime) && run.endTime == old(run.endTime)
    ensures run.totalRequests == old(run.totalRequests)
    ensures run.successfulRequests == old(run.successfulRequests)
    ensures run.failedRequests == old(run.failedRequests)
    ensures run.avgResponseTime == old(run.avgResponseTime)
    ensures run.maxResponseTime == Some(Stats.Max(ResponseTimes(ms)))
    ensures run.minResponseTime == Some(Stats.Min(ResponseTimes(ms)))
    ensures run.avgCpuUsage == Some(Stats.Mean(CpuUsages(ms)))
    ensures run.avgMemoryUsage == Some(Stats.Mean(MemoryUsages(ms)))
    ensures run.testDuration == Some(now - run.startTime)
    ensures run.errors.Some? && IsErrorHistogram(run.errors.value, ms)
  {
    var responseTimes := ResponseTimes(ms);
    run.maxResponseTime := Some(Stats.Max(responseTimes));
    run.minResponseTime := Some(Stats.Min(responseTimes));
    run.avgCpuUsage := Some(Stats.Mean(CpuUsages(ms)));
    run.avgMemoryUsage := Some(Stats.Mean(MemoryUsages(ms)));
    run.testDuration := Some(now - run.startTime);
    var errorCounts := CountErrors(ms);
    run.errors := Some(errorCounts);
  }

  /** Every point is either a success (status below 400) or a failure: the two counts
      make up the total. */
  lemma SuccessAndFailureCoverAll(ms: seq<MetricPoint>)
    ensures Stats.Count(ms, IsSuccess) + Stats.Count(ms, IsFailure) == |ms|
  {
    Stats.CountComplement(ms, IsSuccess, IsFailure);
  }

  /** The mean latency written by `finalize_test_run` lies between the minimum and the
      maximum it writes. */
  lemma LatencyOrder(ms: seq<MetricPoint>)
    requires ms != []
    ensures var rs := ResponseTimes(ms);
            Stats.Min(rs) <= MeanOrNaN(rs).value <= Stats.Max(rs)
  {
    var rs := ResponseTimes(ms);
    Stats.MeanBounds(rs, Stats.Min(rs), Stats.Max(rs));
  }

  /** The error histogram has one key per distinct error text, and its counts add up to the
      number of points that carry an error. */
  lemma ErrorHistogramTotal(h: map<string, nat>, ms: seq<MetricPoint>)
    requires IsErrorHistogram(h, ms)
    ensures forall e :: e in h ==> e != "" && h[e] > 0
    ensures Grouping.SumValues(Grouping.Distinct(ErrorTexts(ms), SameText), h) == Stats.Count(ms, HasError)
  {
    var es := ErrorTexts(ms);
    Grouping.HistogramTotal(h, es, SameText);
    forall e | e in h ensures e != "" {
      assert e in Grouping.Distinct(es, SameText);
    }
  }

  // ------------------------------------------------------------------
  // generate_report

  datatype ReportFormat = Json | Csv

  /** The format dispatch of `generate_report`: only `json` and `csv` are accepted. */
  function ReportFormatOf(format: string): (r: Result<ReportFormat>)
    ensures r == Ok(Json) <==> format == "json"
    ensures r == Ok(Csv) <==> format == "csv"
    ensures r.Err? <==> format != "json" && format != "csv"
    ensures r.Err? ==> r.error == "ValueError: Unsupported format: " + format
  {
    if format == "json" then Ok(Json)
    else if format == "csv" then Ok(Csv)
    else Err("ValueError: Unsupported format: " + format)
  }
}
