/** The data preparation of `ResponseTimeChart` (src/components/ResponseTimeChart.tsx):
    per-second buckets of the mean response time over a time-sorted copy of the metrics,
    and per-endpoint request counts and mean response times ordered by request count.
    Object keys are modelled as map keys together with their insertion order. */
module ResponseTimeChart {
  import opened PerfModel
  import Stats
  import Grouping

  function TimestampKey(m: RequestMetric): real { m.timestamp as real }

  /** `Math.floor(metric.timestamp / 1000) * 1000` */
  function BucketOf(m: RequestMetric): (k: int)
    ensures k % 1000 == 0 && k <= m.timestamp < k + 1000
  {
    (m.timestamp / 1000) * 1000
  }

  /** A larger timestamp never falls in an earlier bucket. */
  lemma BucketMonotone(a: RequestMetric, b: RequestMetric)
    requires a.timestamp <= b.timestamp
    ensures BucketOf(a) <= BucketOf(b)
  {
  }

  /** `{ avg, count }` */
  datatype Bucket = Bucket(avg: real, count: nat)

  const Empty: Bucket := Bucket(0.0, 0)

  /** The entry bucket `k` is meant to hold after the metrics `seen`: their count and the
      mean of their response times, or zeros before the first. */
  function BucketFor(seen: seq<RequestMetric>, k: int): Bucket {
    if Grouping.CountKey(seen, BucketOf, k) > 0
    then Bucket(Stats.Mean(Grouping.Select(seen, BucketOf, k, ResponseTimeOf)), Grouping.CountKey(seen, BucketOf, k))
    else Empty
  }

  /** The state of the `forEach` after the metrics `seen`: one bucket per second seen so
      far, holding its count and the mean of its response times, and the bucket keys in the
      order they were created. */
  ghost predicate Bucketed(buckets: map<int, Bucket>, keys: seq<int>, seen: seq<RequestMetric>) {
    keys == Grouping.Distinct(seen, BucketOf)
    && (forall k :: k in buckets <==> Grouping.CountKey(seen, BucketOf, k) > 0)
    && forall k :: k in buckets ==> buckets[k] == BucketFor(seen, k)
  }

  /** One turn of the loop body on bucket entry `b` (zeros when just created):
      `avg = (avg * count + responseTime) / (count + 1); count += 1`. */
  function Add(b: Bucket, m: RequestMetric): Bucket {
    Bucket((b.avg * b.count as real + m.responseTime) / (b.count + 1) as real, b.count + 1)
  }

  /** The incremental update of the bucket of `m` gives that bucket over `seen + [m]`: the
      incremental average is the exact mean. */
  lemma AddIsBucketFor(seen: seq<RequestMetric>, m: RequestMetric)
    ensures Add(BucketFor(seen, BucketOf(m)), m) == BucketFor(seen + [m], BucketOf(m))
  {
    var k := BucketOf(m);
    var b := BucketFor(seen, k);
    var before := Grouping.Select(seen, BucketOf, k, ResponseTimeOf);
    Grouping.CountKeyAppend(seen, m, BucketOf, k);
    Grouping.SelectAppend(seen, m, BucketOf, k, ResponseTimeOf);
    AddAverage(b, m, before);
  }

  /** `Add` on a bucket holding the mean of the response times `before` holds the mean with
      `m`'s response time appended. */
  lemma AddAverage(b: Bucket, m: RequestMetric, before: seq<real>)
    requires b.count == |before|
    requires before == [] ==> b.avg == 0.0
    requires before != [] ==> b.avg == Stats.Mean(before)
    ensures Add(b, m) == Bucket(Stats.Mean(before + [m.responseTime]), b.count + 1)
  {
    Stats.IncrementalMean(before, b.avg, b.count, m.responseTime);
  }

  /** A metric leaves every other bucket as it was. */
  lemma OtherBucketsUnchanged(seen: seq<RequestMetric>, m: RequestMetric, k: int)
    requires k != BucketOf(m)
    ensures BucketFor(seen + [m], k) == BucketFor(seen, k)
  {
    Grouping.CountKeyAppend(seen, m, BucketOf, k);
    Grouping.SelectAppend(seen, m, BucketOf, k, ResponseTimeOf);
  }

  /** One iteration of the `forEach` keeps the loop state. */
  lemma BucketStep(buckets: map<int, Bucket>, keys: seq<int>, seen: seq<RequestMetric>, m: RequestMetric)
    requires Bucketed(buckets, keys, seen)
    ensures var k := BucketOf(m);
            Bucketed(buckets[k := Add(if k in buckets then buckets[k] else Empty, m)],
                     if k in buckets then keys else keys + [k], seen + [m])
  {
    var k := BucketOf(m);
    var current := if k in buckets then buckets[k] else Empty;
    var next := buckets[k := Add(current, m)];
    var after := seen + [m];
    assert current == BucketFor(seen, k);
    assert after[..|after| - 1] == seen;
    Grouping.CountKeyPositive(seen, BucketOf, k);
    assert k in keys <==> k in buckets;
    forall j ensures j in next <==> Grouping.CountKey(after, BucketOf, j) > 0 {
      Grouping.CountKeyAppend(seen, m, BucketOf, j);
    }
    forall j | j in next ensures next[j] == BucketFor(after, j) {
      if j == k {
        AddIsBucketFor(seen, m);
      } else {
        OtherBucketsUnchanged(seen, m, j);
      }
    }
  }

  /** The `forEach` over the sorted copy that fills `buckets`. */
  method BucketByTime(sorted: seq<RequestMetric>) returns (buckets: map<int, Bucket>, keys: seq<int>)
    ensures Bucketed(buckets, keys, sorted)
  {
    buckets, keys := map[], [];
    var i := 0;
    while i < |sorted|
      invariant 0 <= i <= |sorted|
      invariant Bucketed(buckets, keys, sorted[..i])
    {
      var m := sorted[i];
      var k := BucketOf(m);
      BucketStep(buckets, keys, sorted[..i], m);
      assert sorted[..i + 1] == sorted[..i] + [m];
      if k !in buckets {
        buckets := buckets[k := Empty];
        keys := keys + [k];
      }
      buckets := buckets[k := Add(buckets[k], m)];
      i := i + 1;
    }
    assert sorted[..i] == sorted;
  }

  /** Nothing is lost by bucketing: the bucket counts add up to the number of metrics. */
  lemma BucketCountsSum(buckets: map<int, Bucket>, keys: seq<int>, sorted: seq<RequestMetric>)
    requires Bucketed(buckets, keys, sorted)
    ensures forall k :: k in keys ==> k in buckets
    ensures Grouping.SumCounts(keys, sorted, BucketOf) == |sorted|
  {
    forall k | k in keys ensures k in buckets {
      Grouping.CountKeyPositive(sorted, BucketOf, k);
    }
    Grouping.GroupSizesSum(sorted, BucketOf);
  }

  predicate StrictlyIncreasing(ks: seq<int>) {
    forall i, j :: 0 <= i < j < |ks| ==> ks[i] < ks[j]
  }

  /** With the metrics in time order, the buckets are created in strictly increasing order. */
  lemma {:induction false} SortedBucketsIncrease(s: seq<RequestMetric>)
    requires Stats.SortedBy(s, TimestampKey)
    ensures StrictlyIncreasing(Grouping.Distinct(s, BucketOf))
  {
    if s != [] {
      var init := s[..|s| - 1];
      var last := s[|s| - 1];
      assert Stats.SortedBy(init, TimestampKey) by {
        assert forall i :: 0 <= i < |init| ==> init[i] == s[i];
      }
      SortedBucketsIncrease(init);
      var rest := Grouping.Distinct(init, BucketOf);
      assert StrictlyIncreasing(rest);
      forall j | 0 <= j < |rest| ensures rest[j] <= BucketOf(last) {
        assert rest[j] in rest;
        var i :| 0 <= i < |init| && BucketOf(init[i]) == rest[j];
        assert TimestampKey(s[i]) <= TimestampKey(last);
        BucketMonotone(s[i], last);
      }
      var k := BucketOf(last);
      if k !in rest {
        var ks := rest + [k];
        assert Grouping.Distinct(s, BucketOf) == ks;
        forall i, j | 0 <= i < j < |ks| ensures ks[i] < ks[j] {
          assert ks[i] == rest[i];
          if j == |rest| {
            assert rest[i] in rest;
          } else {
            assert ks[j] == rest[j];
          }
        }
      } else {
        assert Grouping.Distinct(s, BucketOf) == rest;
      }
    }
  }

  /** A point of the timeline: the bucket's start and its mean response time. */
  datatype TimePoint = TimePoint(timestamp: int, avgResponseTime: real)

  /** The timeline the chart is meant to show: over the time-sorted metrics, one point per
      bucket in creation order, at the bucket's start with the bucket's mean. */
  function Timeline(ms: seq<RequestMetric>): (ps: seq<TimePoint>)
    ensures var ks := Grouping.Distinct(Stats.SortBy(ms, TimestampKey), BucketOf);
            |ps| == |ks| && forall j :: 0 <= j < |ps| ==> ps[j].timestamp == ks[j]
  {
    var sorted := Stats.SortBy(ms, TimestampKey);
    var ks := Grouping.Distinct(sorted, BucketOf);
    seq(|ks|, j requires 0 <= j < |ks| => TimePoint(ks[j], BucketFor(sorted, ks[j]).avg))
  }

  /** `processDataByTime()`: sort a copy by timestamp, bucket it, and list the buckets in
      creation order. */
  method ProcessDataByTime(ms: seq<RequestMetric>) returns (points: seq<TimePoint>)
    ensures points == Timeline(ms)
  {
    var sorted := Stats.SortBy(ms, TimestampKey);
    var buckets, keys := BucketByTime(sorted);
    BucketedEntries(buckets, keys, sorted);
    points := seq(|keys|, j requires 0 <= j < |keys| => TimePoint(keys[j], buckets[keys[j]].avg));
  }

  /** The buckets listed in creation order are those of the timeline. */
  lemma BucketedEntries(buckets: map<int, Bucket>, keys: seq<int>, sorted: seq<RequestMetric>)
    requires Bucketed(buckets, keys, sorted)
    ensures keys == Grouping.Distinct(sorted, BucketOf)
    ensures forall j :: 0 <= j < |keys| ==> keys[j] in buckets && buckets[keys[j]] == BucketFor(sorted, keys[j])
  {
    forall j | 0 <= j < |keys| ensures keys[j] in buckets {
      assert keys[j] in keys;
      Grouping.CountKeyPositive(sorted, BucketOf, keys[j]);
    }
  }

  /** Every point of the timeline stands for at least one metric, and carries the mean
      response time of the metrics of its second. */
  lemma TimelineMeans(ms: seq<RequestMetric>)
    ensures var sorted := Stats.SortBy(ms, TimestampKey);
            var ps := Timeline(ms);
            forall j :: 0 <= j < |ps| ==>
              Grouping.CountKey(sorted, BucketOf, ps[j].timestamp) > 0
              && ps[j].avgResponseTime == Stats.Mean(Grouping.Select(sorted, BucketOf, ps[j].timestamp, ResponseTimeOf))
  {
    var sorted := Stats.SortBy(ms, TimestampKey);
    var ks := Grouping.Distinct(sorted, BucketOf);
    var ps := Timeline(ms);
    forall j | 0 <= j < |ps|
      ensures Grouping.CountKey(sorted, BucketOf, ps[j].timestamp) > 0
      ensures ps[j].avgResponseTime == Stats.Mean(Grouping.Select(sorted, BucketOf, ps[j].timestamp, ResponseTimeOf))
    {
      assert ks[j] in ks;
      Grouping.CountKeyPositive(sorted, BucketOf, ks[j]);
    }
  }

  /** The timeline's points: bucket starts on whole seconds, strictly increasing, and one
      for the second of every metric of the input. */
  lemma TimelineKeys(ms: seq<RequestMetric>)
    ensures var ps := Timeline(ms);
            (forall j :: 0 <= j < |ps| ==> ps[j].timestamp % 1000 == 0)
            && (forall i, j :: 0 <= i < j < |ps| ==> ps[i].timestamp < ps[j].timestamp)
            && (forall i :: 0 <= i < |ms| ==> exists j :: 0 <= j < |ps| && ps[j].timestamp == BucketOf(ms[i]))
  {
    var sorted := Stats.SortBy(ms, TimestampKey);
    var ks := Grouping.Distinct(sorted, BucketOf);
    var ps := Timeline(ms);
    SortedBucketsIncrease(sorted);
    forall j | 0 <= j < |ks| ensures ks[j] % 1000 == 0 {
      assert ks[j] in ks;
      var i :| 0 <= i < |sorted| && BucketOf(sorted[i]) == ks[j];
    }
    forall i | 0 <= i < |ms| ensures exists j :: 0 <= j < |ps| && ps[j].timestamp == BucketOf(ms[i]) {
      assert ms[i] in multiset(sorted);
      var t :| 0 <= t < |sorted| && sorted[t] == ms[i];
      assert BucketOf(sorted[t]) in ks;
      var j :| 0 <= j < |ks| && ks[j] == BucketOf(ms[i]);
      assert ps[j].timestamp == BucketOf(ms[i]);
    }
  }

  // ------------------------------------------------------------------
  // processDataByEndpoint

  /** The metrics of endpoint `e`, in input order. */
  function MetricsOf(ms: seq<RequestMetric>, e: string): (r: seq<RequestMetric>)
    ensures |r| == Grouping.CountKey(ms, EndpointOf, e)
    ensures Stats.Apply(r, ResponseTimeOf) == Grouping.Select(ms, EndpointOf, e, ResponseTimeOf)
  {
    if ms == [] then []
    else
      var last := ms[|ms| - 1];
      var rest := MetricsOf(ms[..|ms| - 1], e);
      if last.endpoint == e then
        Stats.ApplyConcat(rest, [last], ResponseTimeOf);
        rest + [last]
      else rest
  }

  /** The state of the grouping `forEach` after `seen`: one list per endpoint seen so far,
      holding its metrics in order, and the endpoints in the order they were created. */
  ghost predicate Grouped(groups: map<string, seq<RequestMetric>>, keys: seq<string>, seen: seq<RequestMetric>) {
    keys == Grouping.Distinct(seen, EndpointOf)
    && (forall e :: e in groups <==> Grouping.CountKey(seen, EndpointOf, e) > 0)
    && forall e :: e in groups ==> groups[e] == MetricsOf(seen, e)
  }

  lemma GroupStep(groups: map<string, seq<RequestMetric>>, keys: seq<string>, seen: seq<RequestMetric>, m: RequestMetric)
    requires Grouped(groups, keys, seen)
    ensures var e := m.endpoint;
            Grouped(groups[e := (if e in groups then groups[e] else []) + [m]],
                    if e in groups then keys else keys + [e], seen + [m])
  {
    var e := m.endpoint;
    var next := groups[e := (if e in groups then groups[e] else []) + [m]];
    var after := seen + [m];
    assert after[..|after| - 1] == seen;
    Grouping.CountKeyPositive(seen, EndpointOf, e);
    assert e in keys <==> e in groups;
    forall j ensures j in next <==> Grouping.CountKey(after, EndpointOf, j) > 0 {
      Grouping.CountKeyAppend(seen, m, EndpointOf, j);
    }
    if e !in groups {
      assert MetricsOf(seen, e) == [] by {
        Grouping.CountKeyPositive(seen, EndpointOf, e);
      }
    }
  }

  /** The grouping `forEach`: `endpointData[metric.endpoint].push(metric)`. */
  method GroupByEndpoint(ms: seq<RequestMetric>) returns (groups: map<string, seq<RequestMetric>>, keys: seq<string>)
    ensures Grouped(groups, keys, ms)
  {
    groups, keys := map[], [];
    var i := 0;
    while i < |ms|
      invariant 0 <= i <= |ms|
      invariant Grouped(groups, keys, ms[..i])
    {
      var m := ms[i];
      GroupStep(groups, keys, ms[..i], m);
      assert ms[..i + 1] == ms[..i] + [m];
      if m.endpoint !in groups {
        groups := groups[m.endpoint := []];
        keys := keys + [m.endpoint];
      }
      groups := groups[m.endpoint := groups[m.endpoint] + [m]];
      i := i + 1;
    }
    assert ms[..i] == ms;
  }

  datatype EndpointEntry = EndpointEntry(endpoint: string, averageResponseTime: real, requestCount: nat)

  /** The entry the chart means for endpoint `e`: its request count and mean response time. */
  function EntryOf(ms: seq<RequestMetric>, e: string): EndpointEntry
    requires Grouping.CountKey(ms, EndpointOf, e) > 0
  {
    EndpointEntry(e, Stats.Mean(Grouping.Select(ms, EndpointOf, e, ResponseTimeOf)),
                  Grouping.CountKey(ms, EndpointOf, e))
  }

  /** The entries for the endpoints `ks`, in that order. */
  function EntriesFor(ms: seq<RequestMetric>, ks: seq<string>): (es: seq<EndpointEntry>)
    requires forall k :: k in ks ==> Grouping.CountKey(ms, EndpointOf, k) > 0
    ensures |es| == |ks|
    ensures forall j :: 0 <= j < |es| ==> es[j] == EntryOf(ms, ks[j])
  {
    if ks == [] then [] else EntriesFor(ms, ks[..|ks| - 1]) + [EntryOf(ms, ks[|ks| - 1])]
  }

  lemma DistinctCounted(ms: seq<RequestMetric>)
    ensures forall k :: k in Grouping.Distinct(ms, EndpointOf) ==> Grouping.CountKey(ms, EndpointOf, k) > 0
  {
    forall k | k in Grouping.Distinct(ms, EndpointOf) ensures Grouping.CountKey(ms, EndpointOf, k) > 0 {
      Grouping.CountKeyPositive(ms, EndpointOf, k);
    }
  }

  /** The entries before sorting, one per endpoint in creation order. */
  function Entries(ms: seq<RequestMetric>): (es: seq<EndpointEntry>)
    ensures |es| == |Grouping.Distinct(ms, EndpointOf)|
    ensures forall j :: 0 <= j < |es| ==>
              es[j].endpoint == Grouping.Distinct(ms, EndpointOf)[j]
              && Grouping.CountKey(ms, EndpointOf, es[j].endpoint) > 0
              && es[j] == EntryOf(ms, es[j].endpoint)
  {
    DistinctCounted(ms);
    EntriesFor(ms, Grouping.Distinct(ms, EndpointOf))
  }

  function NegatedCount(x: EndpointEntry): real { -(x.requestCount as real) }
  function CountOf(x: EndpointEntry): real { x.requestCount as real }

  /** `processDataByEndpoint()`: group, take each group's total time over its length, and
      sort by request count, descending (stably). */
  method ProcessDataByEndpoint(ms: seq<RequestMetric>) returns (entries: seq<EndpointEntry>)
    ensures entries == Stats.SortBy(Entries(ms), NegatedCount)
  {
    var groups, keys := GroupByEndpoint(ms);
    GroupedEntries(groups, keys, ms);
    var unsorted := seq(|keys|, j requires 0 <= j < |keys| && keys[j] in groups && groups[keys[j]] != [] =>
      var g := groups[keys[j]];
      EndpointEntry(keys[j], Stats.Sum(Stats.Apply(g, ResponseTimeOf)) / |g| as real, |g|));
    var es := Entries(ms);
    forall j | 0 <= j < |keys| ensures unsorted[j] == es[j] {
      assert es[j].endpoint == keys[j];
      GroupEntry(ms, keys[j]);
    }
    assert unsorted == es;
    entries := Stats.SortBy(unsorted, NegatedCount);
  }

  /** The groups listed in creation order hold the metrics of each endpoint seen. */
  lemma GroupedEntries(groups: map<string, seq<RequestMetric>>, keys: seq<string>, ms: seq<RequestMetric>)
    requires Grouped(groups, keys, ms)
    ensures keys == Grouping.Distinct(ms, EndpointOf)
    ensures forall j :: 0 <= j < |keys| ==>
              keys[j] in groups && groups[keys[j]] == MetricsOf(ms, keys[j]) && groups[keys[j]] != []
  {
    forall j | 0 <= j < |keys| ensures keys[j] in groups && groups[keys[j]] != [] {
      assert keys[j] in keys;
      Grouping.CountKeyPositive(ms, EndpointOf, keys[j]);
    }
  }

  /** The total time of an endpoint's group over its length is the entry of that endpoint. */
  lemma GroupEntry(ms: seq<RequestMetric>, e: string)
    requires Grouping.CountKey(ms, EndpointOf, e) > 0
    ensures var g := MetricsOf(ms, e);
            EndpointEntry(e, Stats.Sum(Stats.Apply(g, ResponseTimeOf)) / |g| as real, |g|) == EntryOf(ms, e)
  {
    Stats.MeanIsQuotient(Grouping.Select(ms, EndpointOf, e, ResponseTimeOf));
  }

  /** The sorted entries are ordered by request count, descending. */
  lemma EndpointEntriesOrdered(ms: seq<RequestMetric>)
    ensures var r := Stats.SortBy(Entries(ms), NegatedCount);
            forall i, j :: 0 <= i < j < |r| ==> r[i].requestCount >= r[j].requestCount
  {
    var r := Stats.SortBy(Entries(ms), NegatedCount);
    assert forall i, j :: 0 <= i < j < |r| ==> NegatedCount(r[i]) <= NegatedCount(r[j]);
  }

  /** Each sorted entry is the entry of its endpoint: its request count and mean response
      time. */
  lemma EndpointEntriesExact(ms: seq<RequestMetric>)
    ensures var r := Stats.SortBy(Entries(ms), NegatedCount);
            forall j :: 0 <= j < |r| ==>
              Grouping.CountKey(ms, EndpointOf, r[j].endpoint) > 0 && r[j] == EntryOf(ms, r[j].endpoint)
  {
    var es := Entries(ms);
    var r := Stats.SortBy(es, NegatedCount);
    forall j | 0 <= j < |r|
      ensures Grouping.CountKey(ms, EndpointOf, r[j].endpoint) > 0 && r[j] == EntryOf(ms, r[j].endpoint)
    {
      assert r[j] in multiset(es);
    }
  }

  /** There is one sorted entry per endpoint of the input, and every endpoint has one. */
  lemma EndpointEntriesComplete(ms: seq<RequestMetric>)
    ensures var r := Stats.SortBy(Entries(ms), NegatedCount);
            |r| == |Grouping.Distinct(ms, EndpointOf)|
            && forall i :: 0 <= i < |ms| ==> exists j :: 0 <= j < |r| && r[j].endpoint == ms[i].endpoint
  {
    var es := Entries(ms);
    var ks := Grouping.Distinct(ms, EndpointOf);
    var r := Stats.SortBy(es, NegatedCount);
    forall i | 0 <= i < |ms| ensures exists j :: 0 <= j < |r| && r[j].endpoint == ms[i].endpoint {
      assert EndpointOf(ms[i]) in ks;
      var t :| 0 <= t < |ks| && ks[t] == ms[i].endpoint;
      assert es[t] in multiset(r);
      var j :| 0 <= j < |r| && r[j] == es[t];
    }
  }

  /** Nothing is lost by grouping: the request counts of the sorted entries add up to the
      number of metrics. */
  lemma EndpointCountsSum(ms: seq<RequestMetric>)
    ensures Stats.Sum(Stats.Apply(Stats.SortBy(Entries(ms), NegatedCount), CountOf)) == |ms| as real
  {
    var es := Entries(ms);
    var ks := Grouping.Distinct(ms, EndpointOf);
    var r := Stats.SortBy(es, NegatedCount);
    Stats.ApplyPermutation(es, r, CountOf);
    Stats.SumPermutation(Stats.Apply(es, CountOf), Stats.Apply(r, CountOf));
    DistinctCounted(ms);
    CountsAlongKeys(ms, ks);
    Grouping.GroupSizesSum(ms, EndpointOf);
  }

  /** Summing the counts of the entries for the keys `ks` is summing their group sizes. */
  lemma {:induction false} CountsAlongKeys(ms: seq<RequestMetric>, ks: seq<string>)
    requires forall k :: k in ks ==> Grouping.CountKey(ms, EndpointOf, k) > 0
    ensures Stats.Sum(Stats.Apply(EntriesFor(ms, ks), CountOf)) == Grouping.SumCounts(ks, ms, EndpointOf) as real
  {
    if ks != [] {
      var init := ks[..|ks| - 1];
      var last := EntryOf(ms, ks[|ks| - 1]);
      CountsAlongKeys(ms, init);
      Stats.ApplyConcat(EntriesFor(ms, init), [last], CountOf);
      assert Stats.Apply([last], CountOf) == [CountOf(last)];
      Stats.SumAppend(Stats.Apply(EntriesFor(ms, init), CountOf), CountOf(last));
    }
  }
}
