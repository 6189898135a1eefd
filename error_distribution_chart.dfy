/** The data preparation of `ErrorDistributionChart` (src/components/ErrorDistributionChart.tsx):
    a three-slice pie of 2xx / 4xx / 5xx responses, and the five most frequent status codes
    of 400 and above. Records are maps; `Object.entries` over integer keys lists them in
    ascending numeric order. */
module ErrorDistributionChart {
  import opened PerfModel
  import Stats
  import Grouping
  import Text

  // ------------------------------------------------------------------
  // processStatusCodeData

  const SuccessGroup: string := "Success (2xx)"
  const ClientErrorGroup: string := "Client Errors (4xx)"
  const ServerErrorGroup: string := "Server Errors (5xx)"

  predicate IsSuccessCode(m: RequestMetric) { 200 <= m.statusCode < 300 }
  predicate IsClientError(m: RequestMetric) { 400 <= m.statusCode < 500 }
  predicate IsServerError(m: RequestMetric) { 500 <= m.statusCode < 600 }

  /** A status outside the three groups (1xx, 3xx, 600 and above, or below 100). */
  predicate IsUngrouped(m: RequestMetric) { !IsSuccessCode(m) && !IsClientError(m) && !IsServerError(m) }

  /** `{ name, value }` */
  datatype Slice = Slice(name: string, value: nat)

  /** The slices the pie is meant to show: the three groups in declaration order with the
      number of responses in each. */
  function StatusData(ms: seq<RequestMetric>): seq<Slice> {
    [Slice(SuccessGroup, Stats.Count(ms, IsSuccessCode)),
     Slice(ClientErrorGroup, Stats.Count(ms, IsClientError)),
     Slice(ServerErrorGroup, Stats.Count(ms, IsServerError))]
  }

  /** `processStatusCodeData()`: the `forEach` over the metrics bumping one of three
      counters, then the record's entries in insertion order. */
  method ProcessStatusCodeData(ms: seq<RequestMetric>) returns (data: seq<Slice>)
    ensures data == StatusData(ms)
  {
    var statusGroups := map[SuccessGroup := 0, ClientErrorGroup := 0, ServerErrorGroup := 0];
    assert SuccessGroup[0] != ClientErrorGroup[0] && SuccessGroup[1] != ServerErrorGroup[1];
    assert ClientErrorGroup[0] != ServerErrorGroup[0];
    for i := 0 to |ms|
      invariant statusGroups.Keys == {SuccessGroup, ClientErrorGroup, ServerErrorGroup}
      invariant statusGroups[SuccessGroup] == Stats.Count(ms[..i], IsSuccessCode)
      invariant statusGroups[ClientErrorGroup] == Stats.Count(ms[..i], IsClientError)
      invariant statusGroups[ServerErrorGroup] == Stats.Count(ms[..i], IsServerError)
    {
      var statusCode := ms[i].statusCode;
      assert ms[..i + 1] == ms[..i] + [ms[i]];
      Stats.CountAppend(ms[..i], ms[i], IsSuccessCode);
      Stats.CountAppend(ms[..i], ms[i], IsClientError);
      Stats.CountAppend(ms[..i], ms[i], IsServerError);
      if statusCode >= 200 && statusCode < 300 {
        statusGroups := statusGroups[SuccessGroup := statusGroups[SuccessGroup] + 1];
      } else if statusCode >= 400 && statusCode < 500 {
        statusGroups := statusGroups[ClientErrorGroup := statusGroups[ClientErrorGroup] + 1];
      } else if statusCode >= 500 && statusCode < 600 {
        statusGroups := statusGroups[ServerErrorGroup := statusGroups[ServerErrorGroup] + 1];
      }
    }
    assert ms[..|ms|] == ms;
    data := [Slice(SuccessGroup, statusGroups[SuccessGroup]),
             Slice(ClientErrorGroup, statusGroups[ClientErrorGroup]),
             Slice(ServerErrorGroup, statusGroups[ServerErrorGroup])];
  }

  /** Every response falls in at most one group, so the three slices together with the
      ungrouped responses make up the whole list; the slices never add up to more. */
  lemma {:induction false} StatusDataTotal(ms: seq<RequestMetric>)
    ensures var d := StatusData(ms);
            d[0].value + d[1].value + d[2].value + Stats.Count(ms, IsUngrouped) == |ms|
    ensures var d := StatusData(ms);
            d[0].value + d[1].value + d[2].value <= |ms|
  {
    if ms != [] {
      StatusDataTotal(ms[..|ms| - 1]);
    }
  }

  /** The pie always has exactly the three groups, success first, then client errors, then
      server errors, whatever the input. */
  lemma StatusDataShape(ms: seq<RequestMetric>, ns: seq<RequestMetric>)
    ensures |StatusData(ms)| == 3
    ensures forall j :: 0 <= j < 3 ==> StatusData(ms)[j].name == StatusData(ns)[j].name
    ensures StatusData(ms)[0].name == SuccessGroup && StatusData(ms)[1].name == ClientErrorGroup
            && StatusData(ms)[2].name == ServerErrorGroup
  {
  }

  // ------------------------------------------------------------------
  // processErrorCodesData: the tally

  function StatusCodeOf(m: RequestMetric): int { m.statusCode }
  predicate IsErrorCode(m: RequestMetric) { m.statusCode >= 400 }
  function Code(c: int): int { c }

  /** The status codes of 400 and above, in input order: the codes the tally sees. */
  function ErrorStatuses(ms: seq<RequestMetric>): (cs: seq<int>)
    ensures |cs| == Stats.Count(ms, IsErrorCode)
    ensures forall i :: 0 <= i < |cs| ==> cs[i] >= 400
  {
    if ms == [] then []
    else
      var last := ms[|ms| - 1];
      ErrorStatuses(ms[..|ms| - 1]) + (if IsErrorCode(last) then [last.statusCode] else [])
  }

  lemma ErrorStatusesStep(ms: seq<RequestMetric>, i: nat)
    requires i < |ms|
    ensures ErrorStatuses(ms[..i + 1]) == ErrorStatuses(ms[..i]) + (if IsErrorCode(ms[i]) then [ms[i].statusCode] else [])
  {
    assert ms[..i + 1][..i] == ms[..i];
  }

  /** Among the tallied codes, a code of 400 or above occurs as often as in the input, and
      any lower code not at all. */
  lemma {:induction false} ErrorStatusCount(ms: seq<RequestMetric>, k: int)
    ensures Grouping.CountKey(ErrorStatuses(ms), Code, k) ==
            if k >= 400 then Grouping.CountKey(ms, StatusCodeOf, k) else 0
  {
    if ms != [] {
      var init := ms[..|ms| - 1];
      var last := ms[|ms| - 1];
      ErrorStatusCount(init, k);
      assert ms == init + [last];
      Grouping.CountKeyAppend(init, last, StatusCodeOf, k);
      if IsErrorCode(last) {
        assert ErrorStatuses(ms) == ErrorStatuses(init) + [last.statusCode];
        Grouping.CountKeyAppend(ErrorStatuses(init), last.statusCode, Code, k);
      } else {
        assert ErrorStatuses(ms) == ErrorStatuses(init);
      }
    }
  }

  /** The record `errorCodes` is meant to hold. */
  function ErrorCodeCounts(ms: seq<RequestMetric>): (h: map<int, nat>)
    ensures Grouping.IsHistogram(h, ErrorStatuses(ms), Code)
  {
    Grouping.HistogramOf(ErrorStatuses(ms), Code)
  }

  /** Every status code of 400 and above, 600 and above included, is a key of the tally,
      with its exact number of occurrences; no other code is. */
  lemma ErrorCodeCountsExact(ms: seq<RequestMetric>)
    ensures var h := ErrorCodeCounts(ms);
            (forall k :: k in h <==> k >= 400 && Grouping.CountKey(ms, StatusCodeOf, k) > 0)
            && forall k :: k in h ==> h[k] == Grouping.CountKey(ms, StatusCodeOf, k)
  {
    forall k ensures Grouping.CountKey(ErrorStatuses(ms), Code, k) ==
                     if k >= 400 then Grouping.CountKey(ms, StatusCodeOf, k) else 0 {
      ErrorStatusCount(ms, k);
    }
  }

  /** Two histograms of the same list are the same record. */
  lemma HistogramUnique(h: map<int, nat>, g: map<int, nat>, s: seq<int>)
    requires Grouping.IsHistogram(h, s, Code) && Grouping.IsHistogram(g, s, Code)
    ensures h == g
  {
    assert h.Keys == g.Keys;
  }

  /** `if (!errorCodes[c]) errorCodes[c] = 0; errorCodes[c] += 1` is one tally of `c`. */
  lemma FirstSightThenBump(h: map<int, nat>, c: int)
    ensures var h0 := if c in h then h else h[c := 0];
            h0[c := h0[c] + 1] == Grouping.Tally(h, c)
  {
  }

  /** The `forEach` of `processErrorCodesData`: `errorCodes[code] = 0` on first sight,
      then `errorCodes[code] += 1`, for the codes of 400 and above. */
  method CountErrorCodes(ms: seq<RequestMetric>) returns (errorCodes: map<int, nat>)
    ensures errorCodes == ErrorCodeCounts(ms)
  {
    errorCodes := map[];
    for i := 0 to |ms|
      invariant Grouping.IsHistogram(errorCodes, ErrorStatuses(ms[..i]), Code)
    {
      var m := ms[i];
      ErrorStatusesStep(ms, i);
      if m.statusCode >= 400 {
        Grouping.TallyAdds(errorCodes, ErrorStatuses(ms[..i]), Code, m.statusCode);
        FirstSightThenBump(errorCodes, m.statusCode);
        if m.statusCode !in errorCodes {
          errorCodes := errorCodes[m.statusCode := 0];
        }
        errorCodes := errorCodes[m.statusCode := errorCodes[m.statusCode] + 1];
      } else {
        assert ErrorStatuses(ms[..i + 1]) == ErrorStatuses(ms[..i]);
      }
    }
    assert ms[..|ms|] == ms;
    HistogramUnique(errorCodes, ErrorCodeCounts(ms), ErrorStatuses(ms));
  }

  // ------------------------------------------------------------------
  // processErrorCodesData: entries, sort, slice

  /** Some element of a non-empty set. */
  lemma PickFrom(ks: set<int>) returns (x: int)
    requires ks != {}
    ensures x in ks
  {
    if forall y :: y !in ks {
      assert false;
    }
    x :| x in ks;
  }

  /** A non-empty finite set of integers has a least element. */
  lemma {:induction false} SetMinExists(ks: set<int>)
    requires ks != {}
    ensures exists k :: k in ks && forall j :: j in ks ==> k <= j
    decreases |ks|
  {
    var x := PickFrom(ks);
    if ks - {x} != {} {
      SetMinExists(ks - {x});
      var y :| y in ks - {x} && forall j :: j in ks - {x} ==> y <= j;
      var m := if x < y then x else y;
      forall j | j in ks ensures m <= j {
        if j != x {
          assert j in ks - {x};
        }
      }
      assert m in ks;
    } else {
      assert ks == {x};
    }
  }

  /** The least element of a non-empty finite set of integers. */
  function SetMin(ks: set<int>): (k: int)
    requires ks != {}
    ensures k in ks && forall j :: j in ks ==> k <= j
  {
    SetMinExists(ks);
    var k :| k in ks && forall j :: j in ks ==> k <= j;
    k
  }

  /** The integer keys of a record in the order `Object.entries` lists them: ascending. */
  function KeysAscending(ks: set<int>): (r: seq<int>)
    ensures |r| == |ks|
    ensures forall k :: k in r <==> k in ks
    ensures forall i, j :: 0 <= i < j < |r| ==> r[i] < r[j]
    decreases |ks|
  {
    if ks == {} then []
    else
      var k := SetMin(ks);
      var rest := KeysAscending(ks - {k});
      AscendingCons(k, rest, ks);
      [k] + rest
  }

  lemma AscendingCons(k: int, rest: seq<int>, ks: set<int>)
    requires k in ks && forall j :: j in ks ==> k <= j
    requires forall x :: x in rest <==> x in ks - {k}
    requires forall i, j :: 0 <= i < j < |rest| ==> rest[i] < rest[j]
    ensures forall x :: x in [k] + rest <==> x in ks
    ensures forall i, j :: 0 <= i < j < |[k] + rest| ==> ([k] + rest)[i] < ([k] + rest)[j]
  {
    var r := [k] + rest;
    forall i, j | 0 <= i < j < |r| ensures r[i] < r[j] {
      assert r[j] == rest[j - 1];
      assert rest[j - 1] in rest;
      if i > 0 {
        assert r[i] == rest[i - 1];
      }
    }
  }

  /** `{ code: `${code}`, count }` */
  datatype CodeCount = CodeCount(code: string, count: nat)

  /** `Object.entries(errorCodes).map(...)`: one entry per code, codes ascending. */
  function CodeEntries(h: map<int, nat>): seq<CodeCount> {
    var ks := KeysAscending(h.Keys);
    seq(|ks|, j requires 0 <= j < |ks| => CodeCount(Text.IntToString(ks[j]), h[ks[j]]))
  }

  function NegatedCount(c: CodeCount): real { -(c.count as real) }

  /** `.sort((a, b) => b.count - a.count).slice(0, 5)` (a stable sort). */
  function TopFive(es: seq<CodeCount>): seq<CodeCount> {
    var sorted := Stats.SortBy(es, NegatedCount);
    if |sorted| <= 5 then sorted else sorted[..5]
  }

  /** The bars the chart is meant to show. */
  function ErrorCodesData(ms: seq<RequestMetric>): seq<CodeCount> {
    TopFive(CodeEntries(ErrorCodeCounts(ms)))
  }

  /** `processErrorCodesData()` */
  method ProcessErrorCodesData(ms: seq<RequestMetric>) returns (data: seq<CodeCount>)
    ensures data == ErrorCodesData(ms)
  {
    var errorCodes := CountErrorCodes(ms);
    data := TopFive(CodeEntries(errorCodes));
  }

  /** Of any entries: at most five bars, all of them when there are fewer, ordered by count,
      descending. */
  lemma TopFiveSorted(es: seq<CodeCount>)
    ensures var d := TopFive(es);
            |d| <= 5 && (|d| == 5 || |d| == |es|)
            && forall i, j :: 0 <= i < j < |d| ==> d[i].count >= d[j].count
  {
    var sorted := Stats.SortBy(es, NegatedCount);
    var d := TopFive(es);
    forall i, j | 0 <= i < j < |d| ensures d[i].count >= d[j].count {
      assert d[i] == sorted[i] && d[j] == sorted[j];
      assert NegatedCount(sorted[i]) <= NegatedCount(sorted[j]);
    }
  }

  /** Of any entries: every bar is one of them. */
  lemma TopFiveFrom(es: seq<CodeCount>)
    ensures var d := TopFive(es);
            forall j :: 0 <= j < |d| ==> d[j] in es
  {
    var sorted := Stats.SortBy(es, NegatedCount);
    var d := TopFive(es);
    forall j | 0 <= j < |d| ensures d[j] in es {
      assert d[j] == sorted[j];
      assert sorted[j] in multiset(es);
    }
  }

  /** Of any entries: one without a bar counts no more than any bar, and only when all five
      bars are taken. */
  lemma TopFiveKeeps(es: seq<CodeCount>, x: CodeCount)
    requires x in es
    ensures var d := TopFive(es);
            (exists j :: 0 <= j < |d| && d[j] == x)
            || (|d| == 5 && forall j :: 0 <= j < |d| ==> d[j].count >= x.count)
  {
    var sorted := Stats.SortBy(es, NegatedCount);
    var d := TopFive(es);
    assert x in multiset(sorted);
    var s :| 0 <= s < |sorted| && sorted[s] == x;
    if s >= 5 {
      forall j | 0 <= j < |d| ensures d[j].count >= x.count {
        assert d[j] == sorted[j];
        assert NegatedCount(sorted[j]) <= NegatedCount(sorted[s]);
      }
    } else {
      assert d[s] == sorted[s];
    }
  }

  /** Of any tally: each bar is a key of the tally, rendered in decimal, with its count. */
  lemma TopFiveEntries(h: map<int, nat>)
    ensures var d := TopFive(CodeEntries(h));
            forall j :: 0 <= j < |d| ==> exists k :: k in h && d[j] == CodeCount(Text.IntToString(k), h[k])
  {
    var es := CodeEntries(h);
    var ks := KeysAscending(h.Keys);
    var d := TopFive(es);
    TopFiveFrom(es);
    forall j | 0 <= j < |d| ensures exists k :: k in h && d[j] == CodeCount(Text.IntToString(k), h[k]) {
      var t :| 0 <= t < |es| && es[t] == d[j];
      assert ks[t] in h && d[j] == CodeCount(Text.IntToString(ks[t]), h[ks[t]]);
    }
  }

  /** The bars `d` either show `code`, or are five and each counts at least `count`. */
  predicate ListedOrOutranked(d: seq<CodeCount>, code: string, count: nat) {
    (exists j :: 0 <= j < |d| && d[j].code == code)
    || (|d| == 5 && forall j :: 0 <= j < |d| ==> d[j].count >= count)
  }

  /** Of any tally: a key without a bar counts no more than any key with one, and only
      when all five bars are taken. */
  lemma TopFiveTop(h: map<int, nat>, k: int)
    requires k in h
    ensures ListedOrOutranked(TopFive(CodeEntries(h)), Text.IntToString(k), h[k])
  {
    var es := CodeEntries(h);
    var ks := KeysAscending(h.Keys);
    assert k in ks;
    var t :| 0 <= t < |ks| && ks[t] == k;
    assert es[t] == CodeCount(Text.IntToString(k), h[k]);
    TopFiveKeeps(es, es[t]);
  }

  /** The bars: at most five, one per code when there are fewer distinct error codes,
      ordered by count, descending. */
  lemma ErrorCodesDataOrdered(ms: seq<RequestMetric>)
    ensures var d := ErrorCodesData(ms);
            |d| <= 5 && (|d| == 5 || |d| == |ErrorCodeCounts(ms).Keys|)
            && forall i, j :: 0 <= i < j < |d| ==> d[i].count >= d[j].count
  {
    TopFiveSorted(CodeEntries(ErrorCodeCounts(ms)));
  }

  /** Bar `b` is a code of 400 or above, rendered in decimal, with the number of responses
      that carried it. */
  ghost predicate IsErrorCodeBar(b: CodeCount, ms: seq<RequestMetric>) {
    exists k :: k >= 400 && b.code == Text.IntToString(k) && b.count == Grouping.CountKey(ms, StatusCodeOf, k) > 0
  }

  /** Every bar is an error code with its number of occurrences. */
  lemma ErrorCodesDataExact(ms: seq<RequestMetric>)
    ensures var d := ErrorCodesData(ms);
            forall j :: 0 <= j < |d| ==> IsErrorCodeBar(d[j], ms)
  {
    var h := ErrorCodeCounts(ms);
    var d := ErrorCodesData(ms);
    TopFiveEntries(h);
    ErrorCodeCountsExact(ms);
    forall j | 0 <= j < |d| ensures IsErrorCodeBar(d[j], ms) {
      var k :| k in h && d[j] == CodeCount(Text.IntToString(k), h[k]);
      assert k >= 400 && h[k] == Grouping.CountKey(ms, StatusCodeOf, k) > 0;
    }
  }

  /** They are the most frequent codes: a code of 400 or above without a bar occurs no more
      often than any code with one, and only when all five bars are taken. */
  lemma ErrorCodesDataTop(ms: seq<RequestMetric>, k: int)
    requires k >= 400 && Grouping.CountKey(ms, StatusCodeOf, k) > 0
    ensures ListedOrOutranked(ErrorCodesData(ms), Text.IntToString(k), Grouping.CountKey(ms, StatusCodeOf, k))
  {
    var h := ErrorCodeCounts(ms);
    ErrorStatusCount(ms, k);
    assert k in h && h[k] == Grouping.CountKey(ms, StatusCodeOf, k);
    TopFiveTop(h, k);
  }
}
