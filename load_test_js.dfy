/** `LoadTest` (project/lib/loadTest.js): fires GET requests at one URL, keeps running
    counters, the latencies of the successful requests and the error texts, and reports
    average latency and success/error rates. The outcome of each `fetch` and its latency
    (two `Date.now()` readings) are given; the wall-clock deadline and the pause between
    requests are not modelled. */
module LoadTestJs {
  import opened Wrappers
  import Text
  import Stats

  /** The `config` object handed to the constructor. */
  datatype Config = Config(url: string, pattern: string, duration: real, requestsPerSecond: real)

  /** What one `makeRequest()` saw: a response (its status and the measured latency in
      milliseconds), or an exception thrown by `fetch`. */
  datatype Attempt = Answered(status: int, latency: int) | Threw(message: string)

  /** `response.ok`: the status lies in the range 200 to 299. */
  predicate StatusOk(status: int) { 200 <= status <= 299 }

  /** `this.results`. */
  datatype Results = Results(
    totalRequests: nat,
    successfulRequests: nat,
    failedRequests: nat,
    latencies: seq<int>,
    errors: seq<string>)

  const Initial: Results := Results(0, 0, 0, [], [])

  /** What the counters promise at any time: one latency per success, one error text per
      failure, and the total counts every answered request (thrown requests are failures
      that the total misses). */
  ghost predicate Consistent(r: Results) {
    |r.latencies| == r.successfulRequests
    && |r.errors| == r.failedRequests
    && r.successfulRequests <= r.totalRequests <= r.successfulRequests + r.failedRequests
  }

  /** The text pushed for a response that is not `ok`. */
  function HttpError(status: int): (e: string)
    ensures |e| >= 5 && e[..5] == "HTTP " && e[5..] == Text.IntToString(status)
  {
    "HTTP " + Text.IntToString(status)
  }

  /** The `results` after `makeRequest()` saw `a`. */
  function Record(r: Results, a: Attempt): Results {
    match a
    case Answered(status, latency) =>
      if StatusOk(status) then r.(totalRequests := r.totalRequests + 1,
                    successfulRequests := r.successfulRequests + 1,
                    latencies := r.latencies + [latency])
      else r.(totalRequests := r.totalRequests + 1,
              failedRequests := r.failedRequests + 1,
              errors := r.errors + [HttpError(status)])
    case Threw(message) =>
      r.(failedRequests := r.failedRequests + 1, errors := r.errors + [message])
  }

  /** The `results` after a run of attempts, one `makeRequest()` per attempt in order. */
  function ReplayFrom(r: Results, attempts: seq<Attempt>): Results {
    if attempts == [] then r
    else Record(ReplayFrom(r, attempts[..|attempts| - 1]), attempts[|attempts| - 1])
  }

  predicate IsAnswered(a: Attempt) { a.Answered? }
  predicate IsOk(a: Attempt) { a.Answered? && StatusOk(a.status) }
  predicate IsFailed(a: Attempt) { !IsOk(a) }
  predicate IsThrown(a: Attempt) { a.Threw? }

  /** The latencies of the `ok` responses, in order. */
  function OkLatencies(attempts: seq<Attempt>): (ls: seq<int>)
    ensures |ls| == Stats.Count(attempts, IsOk)
  {
    if attempts == [] then []
    else
      var last := attempts[|attempts| - 1];
      OkLatencies(attempts[..|attempts| - 1]) + (if IsOk(last) then [last.latency] else [])
  }

  /** The error text of every failed attempt, in order. */
  function ErrorTexts(attempts: seq<Attempt>): (es: seq<string>)
    ensures |es| == Stats.Count(attempts, IsFailed)
  {
    if attempts == [] then []
    else
      var last := attempts[|attempts| - 1];
      ErrorTexts(attempts[..|attempts| - 1])
        + (match last
           case Answered(status, _) => if StatusOk(status) then [] else [HttpError(status)]
           case Threw(message) => [message])
  }

  /** A run of attempts adds the answered ones to the total, the `ok` ones to the successes
      with their latencies, and every other one to the failures with its text. */
  lemma {:induction false} ReplayCounts(r: Results, attempts: seq<Attempt>)
    ensures var r' := ReplayFrom(r, attempts);
            r'.totalRequests == r.totalRequests + Stats.Count(attempts, IsAnswered)
            && r'.successfulRequests == r.successfulRequests + Stats.Count(attempts, IsOk)
            && r'.failedRequests == r.failedRequests + Stats.Count(attempts, IsFailed)
            && r'.latencies == r.latencies + OkLatencies(attempts)
            && r'.errors == r.errors + ErrorTexts(attempts)
  {
    if attempts != [] {
      ReplayCounts(r, attempts[..|attempts| - 1]);
    }
  }

  /** Answered plus thrown attempts is all of them, and the failures are the thrown ones
      together with the answered ones that are not `ok`. */
  lemma {:induction false} AttemptClasses(attempts: seq<Attempt>)
    ensures Stats.Count(attempts, IsAnswered) + Stats.Count(attempts, IsThrown) == |attempts|
    ensures Stats.Count(attempts, IsOk) + Stats.Count(attempts, IsFailed) == |attempts|
    ensures Stats.Count(attempts, IsOk) <= Stats.Count(attempts, IsAnswered)
  {
    if attempts != [] {
      AttemptClasses(attempts[..|attempts| - 1]);
    }
  }

  /** From fresh counters, the successes and failures together exceed the total by exactly
      the number of thrown requests. */
  lemma ThrownNotCounted(attempts: seq<Attempt>)
    ensures var r := ReplayFrom(Initial, attempts);
            r.successfulRequests + r.failedRequests == r.totalRequests + Stats.Count(attempts, IsThrown)
  {
    ReplayCounts(Initial, attempts);
    AttemptClasses(attempts);
  }

  /** One request keeps the counters consistent. */
  lemma RecordConsistent(r: Results, a: Attempt)
    requires Consistent(r)
    ensures Consistent(Record(r, a))
  {
  }

  class LoadTest {
    const url: string
    const pattern: string
    const duration: real
    const requestsPerSecond: real
    var results: Results

    ghost predicate Valid()
      reads this
    {
      Consistent(results)
    }

    /** `new LoadTest(config)`: copies the configuration and starts from zero counters. */
    constructor (config: Config)
      ensures url == config.url && pattern == config.pattern
      ensures duration == config.duration && requestsPerSecond == config.requestsPerSecond
      ensures results == Initial
      ensures Valid()
    {
      url := config.url;
      pattern := config.pattern;
      duration := config.duration;
      requestsPerSecond := config.requestsPerSecond;
      results := Initial;
    }

    /** `makeRequest()` for a request that turned out as `a`. */
    method MakeRequest(a: Attempt)
      requires Valid()
      modifies this
      ensures Valid()
      ensures results == Record(old(results), a)
      ensures a.Answered? ==> results.totalRequests == old(results.totalRequests) + 1
      ensures a.Threw? ==> results.totalRequests == old(results.totalRequests)
      ensures IsOk(a) ==>
                results.successfulRequests == old(results.successfulRequests) + 1
                && results.latencies == old(results.latencies) + [a.latency]
                && results.failedRequests == old(results.failedRequests)
                && results.errors == old(results.errors)
      ensures a.Answered? && !StatusOk(a.status) ==>
                results.failedRequests == old(results.failedRequests) + 1
                && results.errors == old(results.errors) + [HttpError(a.status)]
                && results.successfulRequests == old(results.successfulRequests)
                && results.latencies == old(results.latencies)
      ensures a.Threw? ==>
                results.failedRequests == old(results.failedRequests) + 1
                && results.errors == old(results.errors) + [a.message]
                && results.successfulRequests == old(results.successfulRequests)
                && results.latencies == old(results.latencies)
    {
      match a
      case Answered(status, latency) =>
        results := results.(totalRequests := results.totalRequests + 1);
        if StatusOk(status) {
          results := results.(successfulRequests := results.successfulRequests + 1);
          results := results.(latencies := results.latencies + [latency]);
        } else {
          results := results.(failedRequests := results.failedRequests + 1);
          results := results.(errors := results.errors + [HttpError(status)]);
        }
      case Threw(message) =>
        results := results.(failedRequests := results.failedRequests + 1);
        results := results.(errors := results.errors + [message]);
    }

    /** `run()` over the attempts that were made before the deadline, then `generateReport()`. */
    method Run(attempts: seq<Attempt>) returns (report: Report)
      requires Valid()
      modifies this
      ensures Valid()
      ensures results == ReplayFrom(old(results), attempts)
      ensures report == GenerateReport(results)
    {
      var i := 0;
      while i < |attempts|
        invariant 0 <= i <= |attempts|
        invariant Valid()
        invariant results == ReplayFrom(old(results), attempts[..i])
      {
        assert attempts[..i + 1][..i] == attempts[..i];
        MakeRequest(attempts[i]);
        i := i + 1;
      }
      assert attempts[..i] == attempts;
      report := GenerateReport(results);
    }
  }

  // ------------------------------------------------------------------
  // generateReport()

  datatype Summary = Summary(
    totalRequests: nat,
    successRate: Option<real>,
    averageLatency: Option<real>,
    errorRate: Option<real>)

  datatype Report = Report(summary: Summary, errors: seq<string>)

  function AsReals(ls: seq<int>): (rs: seq<real>)
    ensures |rs| == |ls| && forall i :: 0 <= i < |ls| ==> rs[i] == ls[i] as real
  {
    seq(|ls|, i requires 0 <= i < |ls| => ls[i] as real)
  }

  /** `(part / whole) * 100`; with no whole this is NaN or Infinity, here `None`. */
  function Percent(part: nat, whole: nat): (p: Option<real>)
    ensures p.Some? <==> whole > 0
    ensures p.Some? ==> p.value * whole as real == part as real * 100.0
  {
    if whole == 0 then None
    else
      var q := part as real / whole as real;
      assert q * whole as real == part as real;
      Some(q * 100.0)
  }

  /** `generateReport()`: the mean latency of the successful requests, both rates against
      `totalRequests`, and the collected error texts. */
  function GenerateReport(r: Results): (rep: Report)
    ensures rep.summary.totalRequests == r.totalRequests && rep.errors == r.errors
    ensures rep.summary.averageLatency.Some? <==> r.latencies != []
    ensures r.latencies != [] ==> rep.summary.averageLatency.value == Stats.Mean(AsReals(r.latencies))
    ensures rep.summary.successRate == Percent(r.successfulRequests, r.totalRequests)
    ensures rep.summary.errorRate == Percent(r.failedRequests, r.totalRequests)
  {
    var avg := if r.latencies == [] then None else Some(Stats.Sum(AsReals(r.latencies)) / |r.latencies| as real);
    Report(Summary(r.totalRequests, Percent(r.successfulRequests, r.totalRequests), avg,
                   Percent(r.failedRequests, r.totalRequests)),
           r.errors)
  }

  /** With consistent counters the success rate is at most 100 and the two rates add up to
      at least 100; they add up to exactly 100 only when no request threw. */
  lemma ReportRates(r: Results)
    requires Consistent(r) && r.totalRequests > 0
    ensures var s := GenerateReport(r).summary;
            s.successRate.Some? && s.errorRate.Some?
            && 0.0 <= s.successRate.value <= 100.0
            && s.successRate.value + s.errorRate.value >= 100.0
            && (s.successRate.value + s.errorRate.value == 100.0
                <==> r.successfulRequests + r.failedRequests == r.totalRequests)
  {
    var s := GenerateReport(r).summary;
    RateSums(s.successRate.value, s.errorRate.value, r.totalRequests as real,
             r.successfulRequests as real, r.failedRequests as real);
  }

  /** The arithmetic behind `ReportRates`, over the rates `a`, `b` of `sc` and `fc` in `t`. */
  lemma RateSums(a: real, b: real, t: real, sc: real, fc: real)
    requires t > 0.0 && a * t == sc * 100.0 && b * t == fc * 100.0
    requires 0.0 <= sc <= t <= sc + fc
    ensures 0.0 <= a <= 100.0 && a + b >= 100.0
    ensures a + b == 100.0 <==> sc + fc == t
  {
    assert (a + b) * t == (sc + fc) * 100.0;
    PercentScale(a, t, sc, 1.0);
    PercentScale(a + b, t, sc + fc, 1.0);
  }

  /** For `x * t == p * 100` with `t > 0`: `x` compares with `100 * c` as `p` with `t * c`. */
  lemma PercentScale(x: real, t: real, p: real, c: real)
    requires t > 0.0 && x * t == p * 100.0
    ensures x <= 100.0 * c <==> p <= t * c
    ensures x >= 100.0 * c <==> p >= t * c
    ensures x == 100.0 * c <==> p == t * c
    ensures x >= 0.0 <==> p >= 0.0
  {
    assert (x - 100.0 * c) * t == (p - t * c) * 100.0;
    if x < 100.0 * c { assert (100.0 * c - x) * t > 0.0; }
    if x > 100.0 * c { assert (x - 100.0 * c) * t > 0.0; }
    if x < 0.0 { assert -x * t > 0.0; }
    if x > 0.0 { assert x * t > 0.0; }
  }

  /** The average latency lies between the fastest and the slowest successful request. */
  lemma ReportLatencyBounds(r: Results)
    requires r.latencies != []
    ensures var ls := AsReals(r.latencies);
            Stats.Min(ls) <= GenerateReport(r).summary.averageLatency.value <= Stats.Max(ls)
  {
    var ls := AsReals(r.latencies);
    Stats.MeanBounds(ls, Stats.Min(ls), Stats.Max(ls));
  }

  /** A run whose only request threw leaves the total at zero with one failure: both rates
      are then not finite numbers. */
  lemma OnlyThrownHasNoRates(message: string)
    ensures var r := ReplayFrom(Initial, [Threw(message)]);
            r.totalRequests == 0 && r.failedRequests == 1 && r.errors == [message]
            && GenerateReport(r).summary.errorRate.None?
  {
    assert [Threw(message)][..0] == [];
  }
}
