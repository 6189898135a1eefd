/** `LoadTester` (stressapi/core/load_tester.py): issues `num_requests` GET requests in one of
    three traffic patterns, keeps the results and reports counts, latency statistics and a
    status-code histogram. The clock readings and outcomes of the requests, and the random
    pauses, are given as oracles indexed by issue order; the sleeps and the asyncio tasks
    themselves are not modelled. */
module LoadTesting {
  import opened Wrappers
  import Text
  import Stats
  import Grouping

  /** `RequestResult`: latency and start time in seconds, `error` the exception text. */
  datatype RequestResult = RequestResult(latency: real, statusCode: int, timestamp: real, error: Option<string>)

  /** What `await client.get(target_url)` did: return a response, or raise. */
  datatype Outcome = Responded(statusCode: int) | Raised(message: string)

  /** One issued request: the `time.time()` readings before and after, and its outcome. */
  datatype Probe = Probe(start: real, end: real, outcome: Outcome)

  /** `make_request()`: an exception becomes a result with status 500 and its text. */
  function MakeRequest(p: Probe): (r: RequestResult)
    ensures r.timestamp == p.start && r.latency == p.end - p.start
    ensures r.error.Some? <==> p.outcome.Raised?
    ensures p.outcome.Responded? ==> r.statusCode == p.outcome.statusCode
    ensures p.outcome.Raised? ==> r.statusCode == 500 && r.error == Some(p.outcome.message)
  {
    match p.outcome
    case Responded(code) => RequestResult(p.end - p.start, code, p.start, None)
    case Raised(message) => RequestResult(p.end - p.start, 500, p.start, Some(message))
  }

  function Max0(x: int): nat { if x < 0 then 0 else x }

  /** Python's `a // b`, which rounds toward negative infinity. */
  function FloorDiv(a: int, b: int): (q: int)
    requires b != 0
    ensures b > 0 ==> q * b <= a < q * b + b
    ensures b < 0 ==> q * b >= a > q * b + b
  {
    if b > 0 then a / b else (-a) / (-b)
  }

  /** The results of `n` requests issued one after another: `range(n)` is empty for `n <= 0`. */
  function Issued(n: int, probe: nat -> Probe): (rs: seq<RequestResult>)
    ensures |rs| == Max0(n)
    ensures forall i :: 0 <= i < |rs| ==> rs[i] == MakeRequest(probe(i))
  {
    seq(Max0(n), (i: int) requires 0 <= i => MakeRequest(probe(i)))
  }

  /** The list one `user_sequence()` task returns: `perUser` requests of user `u`. */
  function UserResults(u: nat, perUser: int, probe: (nat, nat) -> Probe): (rs: seq<RequestResult>)
    ensures |rs| == Max0(perUser)
    ensures forall j :: 0 <= j < |rs| ==> rs[j] == MakeRequest(probe(u, j))
  {
    seq(Max0(perUser), (j: int) requires 0 <= j => MakeRequest(probe(u, j)))
  }

  /** The flattened `gather` of the first `users` tasks, in task order. */
  function Interleaved(users: nat, perUser: int, probe: (nat, nat) -> Probe): seq<RequestResult> {
    if users == 0 then [] else Interleaved(users - 1, perUser, probe) + UserResults(users - 1, perUser, probe)
  }

  /** Every task contributes `perUser` results. */
  lemma {:induction false} InterleavedLength(users: nat, perUser: int, probe: (nat, nat) -> Probe)
    ensures |Interleaved(users, perUser, probe)| == users * Max0(perUser)
  {
    if users > 0 {
      InterleavedLength(users - 1, perUser, probe);
      assert users * Max0(perUser) == (users - 1) * Max0(perUser) + Max0(perUser);
    }
  }

  /** Result `j` of user `u` sits at position `u * perUser + j`. */
  lemma {:induction false} InterleavedAt(users: nat, perUser: nat, probe: (nat, nat) -> Probe, u: nat, j: nat)
    requires u < users && j < perUser
    ensures u * perUser + j < |Interleaved(users, perUser, probe)|
    ensures Interleaved(users, perUser, probe)[u * perUser + j] == MakeRequest(probe(u, j))
  {
    var front := Interleaved(users - 1, perUser, probe);
    InterleavedLength(users - 1, perUser, probe);
    InterleavedLength(users, perUser, probe);
    assert Max0(perUser) == perUser;
    assert users * perUser == (users - 1) * perUser + perUser;
    if u == users - 1 {
      assert u * perUser + j - |front| == j;
    } else {
      InterleavedAt(users - 1, perUser, probe, u, j);
      MulMonotone(u + 1, users - 1, perUser);
      assert (u + 1) * perUser == u * perUser + perUser;
    }
  }

  lemma MulMonotone(a: nat, b: nat, c: nat)
    requires a <= b
    ensures a * c <= b * c
  {
    assert b * c == a * c + (b - a) * c;
  }

  /** The interleaved pattern never issues more than `num_requests`: `users * (n // users) <= n`. */
  lemma InterleavedAtMost(n: int, users: int)
    requires users > 0
    ensures users * Max0(FloorDiv(n, users)) <= Max0(n)
  {
    var q := FloorDiv(n, users);
    if q > 0 {
      assert q * users <= n;
    }
  }

  /** `random.uniform(a, b)` from a draw `r` of `random.random()`. */
  function Uniform(a: real, b: real, r: real): (x: real)
    requires 0.0 <= r < 1.0
    ensures a <= b ==> a <= x <= b
  {
    a + Stats.Scale(r, b - a)
  }

  const ZeroDivision: string := "ZeroDivisionError: integer division or modulo by zero"

  class LoadTester {
    var targetUrl: string
    var numRequests: int
    var concurrentUsers: int
    var requestInterval: real
    var results: seq<RequestResult>

    constructor (targetUrl: string, numRequests: int, concurrentUsers: int, requestInterval: real)
      ensures this.targetUrl == targetUrl && this.numRequests == numRequests
      ensures this.concurrentUsers == concurrentUsers && this.requestInterval == requestInterval
      ensures results == []
    {
      this.targetUrl := targetUrl;
      this.numRequests := numRequests;
      this.concurrentUsers := concurrentUsers;
      this.requestInterval := requestInterval;
      results := [];
    }

    /** `sequential_traffic`: the results in issue order, and the pause after each request. */
    method SequentialTraffic(probe: nat -> Probe) returns (rs: seq<RequestResult>, pauses: seq<real>)
      ensures rs == Issued(numRequests, probe)
      ensures |pauses| == |rs| && forall i :: 0 <= i < |pauses| ==> pauses[i] == requestInterval
    {
      rs, pauses := [], [];
      var i := 0;
      while i < numRequests
        invariant 0 <= i <= Max0(numRequests)
        invariant rs == Issued(numRequests, probe)[..i]
        invariant |pauses| == i && forall k :: 0 <= k < i ==> pauses[k] == requestInterval
      {
        rs := rs + [MakeRequest(probe(i))];
        pauses := pauses + [requestInterval];
        i := i + 1;
      }
    }

    /** `random_traffic`: as the sequential pattern, but the pause after request `i` is
        `random.uniform(0, request_interval * 2)` from the draw `draw(i)`. */
    method RandomTraffic(probe: nat -> Probe, draw: nat -> real) returns (rs: seq<RequestResult>, pauses: seq<real>)
      requires forall i: nat :: 0.0 <= draw(i) < 1.0
      ensures rs == Issued(numRequests, probe)
      ensures |pauses| == |rs|
      ensures forall i :: 0 <= i < |pauses| ==> pauses[i] == Uniform(0.0, requestInterval * 2.0, draw(i))
      ensures requestInterval >= 0.0 ==> forall i :: 0 <= i < |pauses| ==> 0.0 <= pauses[i] <= requestInterval * 2.0
    {
      rs, pauses := [], [];
      var i := 0;
      while i < numRequests
        invariant 0 <= i <= Max0(numRequests)
        invariant rs == Issued(numRequests, probe)[..i]
        invariant |pauses| == i && forall k :: 0 <= k < i ==> pauses[k] == Uniform(0.0, requestInterval * 2.0, draw(k))
      {
        rs := rs + [MakeRequest(probe(i))];
        pauses := pauses + [Uniform(0.0, requestInterval * 2.0, draw(i))];
        i := i + 1;
      }
    }

    /** `interleaved_traffic`: `concurrent_users` tasks of `num_requests // concurrent_users`
        requests each, flattened in task order; request `j` of user `u` is `probe(u, j)`. */
    method InterleavedTraffic(probe: (nat, nat) -> Probe) returns (r: Result<seq<RequestResult>>)
      ensures r.Err? <==> concurrentUsers == 0
      ensures r.Err? ==> r.error == ZeroDivision
      ensures r.Ok? ==> r.value == Interleaved(Max0(concurrentUsers), FloorDiv(numRequests, concurrentUsers), probe)
    {
      if concurrentUsers == 0 {
        return Err(ZeroDivision);
      }
      var perUser := FloorDiv(numRequests, concurrentUsers);
      var all: seq<RequestResult> := [];
      var u := 0;
      while u < concurrentUsers
        invariant 0 <= u <= Max0(concurrentUsers)
        invariant all == Interleaved(u, perUser, probe)
      {
        var userResults: seq<RequestResult> := [];
        var j := 0;
        while j < perUser
          invariant 0 <= j <= Max0(perUser)
          invariant userResults == UserResults(u, perUser, probe)[..j]
        {
          userResults := userResults + [MakeRequest(probe(u, j))];
          j := j + 1;
        }
        all := all + userResults;
        u := u + 1;
      }
      return Ok(all);
    }

    /** `run_test(traffic_pattern)`: run the chosen pattern, keep its results and report on
        them; an unknown pattern raises `ValueError` and keeps the previous results. */
    method RunTest(pattern: string, probe: nat -> Probe, draw: nat -> real, userProbe: (nat, nat) -> Probe)
      returns (r: Result<Report>)
      requires forall i: nat :: 0.0 <= draw(i) < 1.0
      modifies this
      ensures pattern == "sequential" || pattern == "random" ==> results == Issued(numRequests, probe)
      ensures pattern == "interleaved" && concurrentUsers != 0 ==>
                results == Interleaved(Max0(concurrentUsers), FloorDiv(numRequests, concurrentUsers), userProbe)
      ensures pattern == "interleaved" && concurrentUsers == 0 ==> r == Err(ZeroDivision) && results == old(results)
      ensures pattern !in {"sequential", "interleaved", "random"} ==>
                r == Err("ValueError: Unknown traffic pattern: " + pattern) && results == old(results)
      ensures r.Ok? <==> (pattern == "sequential" || pattern == "random" ||
                          (pattern == "interleaved" && concurrentUsers != 0))
      ensures r.Ok? ==> r.value == ReportOf(results)
      ensures targetUrl == old(targetUrl) && numRequests == old(numRequests)
      ensures concurrentUsers == old(concurrentUsers) && requestInterval == old(requestInterval)
    {
      if pattern == "sequential" {
        var pauses;
        results, pauses := SequentialTraffic(probe);
      } else if pattern == "interleaved" {
        var all := InterleavedTraffic(userProbe);
        if all.Err? {
          return Err(all.error);
        }
        results := all.value;
      } else if pattern == "random" {
        var pauses;
        results, pauses := RandomTraffic(probe, draw);
      } else {
        return Err("ValueError: Unknown traffic pattern: " + pattern);
      }
      return Ok(ReportOf(results));
    }
  }

  // ------------------------------------------------------------------
  // generate_report

  datatype LatencySummary = LatencySummary(min: real, max: real, avg: real, p95: real)

  /** The report dictionary: the error entry for no results, or the three sections. */
  datatype Report =
    | NoResults(error: string)
    | Summary(totalRequests: nat, successfulRequests: nat, failedRequests: nat, totalErrors: nat,
              latency: LatencySummary, statusCodes: map<string, nat>)

  predicate IsSuccess(r: RequestResult) { 200 <= r.statusCode < 300 }
  predicate IsFailure(r: RequestResult) { r.statusCode >= 400 }
  /** Statuses below 200 and the 3xx range count as neither success nor failure. */
  predicate IsNeither(r: RequestResult) { r.statusCode < 200 || 300 <= r.statusCode < 400 }
  predicate HasError(r: RequestResult) { r.error.Some? }

  function StatusKey(r: RequestResult): string { Text.IntToString(r.statusCode) }
  function StatusCodeOf(r: RequestResult): int { r.statusCode }

  function Latencies(rs: seq<RequestResult>): (ls: seq<real>)
    ensures |ls| == |rs| && forall i :: 0 <= i < |rs| ==> ls[i] == rs[i].latency
  {
    seq(|rs|, (i: int) requires 0 <= i < |rs| => rs[i].latency)
  }

  /** `generate_report()` over the results `rs`. */
  function ReportOf(rs: seq<RequestResult>): (r: Report)
    ensures rs == [] <==> r.NoResults?
    ensures r.NoResults? ==> r.error == "No test results available"
    ensures r.Summary? ==> r.totalRequests == |rs| && r.successfulRequests == Stats.Count(rs, IsSuccess)
                           && r.failedRequests == Stats.Count(rs, IsFailure) && r.totalErrors == Stats.Count(rs, HasError)
  {
    if rs == [] then NoResults("No test results available")
    else
      var ls := Latencies(rs);
      var sorted := Stats.SortReals(ls);
      Summary(|rs|, Stats.Count(rs, IsSuccess), Stats.Count(rs, IsFailure), Stats.Count(rs, HasError),
              LatencySummary(Stats.Min(ls), Stats.Max(ls), Stats.Sum(ls) / |ls| as real,
                             sorted[Stats.QuantileIndex(|ls|, 95, 100)]),
              Grouping.HistogramOf(rs, StatusKey))
  }

  /** Every result is a success, a failure or neither, and never two of them; so successes
      and failures together never exceed the total. */
  lemma {:induction false} OutcomeClassesPartition(rs: seq<RequestResult>)
    ensures Stats.Count(rs, IsSuccess) + Stats.Count(rs, IsFailure) + Stats.Count(rs, IsNeither) == |rs|
  {
    if rs != [] {
      OutcomeClassesPartition(rs[..|rs| - 1]);
    }
  }

  /** The latency section: the minimum and maximum bound every latency and are latencies,
      the average is the exact mean and lies between them, and the 95th percentile is the
      element at index `floor(n * 95 / 100)`, which is below `n`, of the ascending copy. */
  lemma ReportLatencyBounds(rs: seq<RequestResult>)
    requires rs != []
    ensures var l := ReportOf(rs).latency;
            var ls := Latencies(rs);
            (forall i :: 0 <= i < |rs| ==> l.min <= rs[i].latency <= l.max)
            && l.min in ls && l.max in ls
            && l.avg == Stats.Mean(ls)
            && l.min <= l.avg <= l.max
            && l.min <= l.p95 <= l.max
            && (|ls| * 95) / 100 < |ls|
            && l.p95 == Stats.SortReals(ls)[(|ls| * 95) / 100]
  {
    var ls := Latencies(rs);
    var l := ReportOf(rs).latency;
    var sorted := Stats.SortReals(ls);
    Stats.MeanBounds(ls, l.min, l.max);
    Stats.SortedFirstIsMin(ls, sorted);
    var k := Stats.QuantileIndex(|ls|, 95, 100);
    assert sorted[k] in multiset(ls) by {
      assert sorted[k] in multiset(sorted);
    }
    var i :| 0 <= i < |ls| && ls[i] == sorted[k];
  }

  /** The status-code section: one key `str(code)` per status that occurs, holding the number
      of results with that status, and the counts add up to the total. */
  lemma ReportStatusCodes(rs: seq<RequestResult>)
    requires rs != []
    ensures var h := ReportOf(rs).statusCodes;
            (forall k :: k in h <==> exists i :: 0 <= i < |rs| && k == Text.IntToString(rs[i].statusCode))
            && (forall i :: 0 <= i < |rs| ==>
                  h[Text.IntToString(rs[i].statusCode)] == Grouping.CountKey(rs, StatusCodeOf, rs[i].statusCode))
            && Grouping.SumValues(Grouping.Distinct(rs, StatusKey), h) == |rs|
  {
    var h := Grouping.HistogramOf(rs, StatusKey);
    assert ReportOf(rs).statusCodes == h;
    Grouping.HistogramTotal(h, rs, StatusKey);
    forall k ensures k in h <==> exists i :: 0 <= i < |rs| && k == Text.IntToString(rs[i].statusCode) {
      assert k in h <==> k in Grouping.Distinct(rs, StatusKey);
    }
    forall i | 0 <= i < |rs|
      ensures h[Text.IntToString(rs[i].statusCode)] == Grouping.CountKey(rs, StatusCodeOf, rs[i].statusCode)
    {
      StatusCountAt(h, rs, i);
    }
  }

  /** The entry for the status of result `i` counts the results with that status. */
  lemma StatusCountAt(h: map<string, nat>, rs: seq<RequestResult>, i: nat)
    requires Grouping.IsHistogram(h, rs, StatusKey) && i < |rs|
    ensures StatusKey(rs[i]) in h
    ensures h[StatusKey(rs[i])] == Grouping.CountKey(rs, StatusCodeOf, rs[i].statusCode)
  {
    Grouping.CountKeyPositive(rs, StatusKey, StatusKey(rs[i]));
    forall a, b | Text.IntToString(a) == Text.IntToString(b) ensures a == b {
      Text.IntToStringInjective(a, b);
    }
    Grouping.CountKeyRenamed(rs, StatusCodeOf, StatusKey, Text.IntToString, rs[i].statusCode);
  }
}
