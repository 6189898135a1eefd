/** Grouping a list by a key, as the aggregators do when they fill a record keyed by
    endpoint, status code or time bucket: the distinct keys in order of first appearance
    (the iteration order of such a record), the size of each group and the values of
    each group. */
module Grouping {

  /** The distinct keys of `s`, in order of first appearance. */
  function Distinct<T, K(==, !new)>(s: seq<T>, key: T -> K): (ks: seq<K>)
    ensures forall i, j :: 0 <= i < j < |ks| ==> ks[i] != ks[j]
    ensures forall k :: k in ks <==> exists i :: 0 <= i < |s| && key(s[i]) == k
  {
    if s == [] then []
    else
      var rest := Distinct(s[..|s| - 1], key);
      var k := key(s[|s| - 1]);
      assert forall i :: 0 <= i < |s| - 1 ==> s[..|s| - 1][i] == s[i];
      if k in rest then rest else rest + [k]
  }

  /** How many elements of `s` have key `k`. */
  function CountKey<T, K(==, !new)>(s: seq<T>, key: T -> K, k: K): (n: nat)
    ensures n <= |s|
  {
    if s == [] then 0 else CountKey(s[..|s| - 1], key, k) + (if key(s[|s| - 1]) == k then 1 else 0)
  }

  lemma CountKeyAppend<T, K(!new)>(s: seq<T>, x: T, key: T -> K, k: K)
    ensures CountKey(s + [x], key, k) == CountKey(s, key, k) + (if key(x) == k then 1 else 0)
  {
    assert (s + [x])[..|s + [x]| - 1] == s;
  }

  /** A key that no element has counts nothing. */
  lemma {:induction false} CountKeyAbsent<T, K(!new)>(s: seq<T>, key: T -> K, k: K)
    requires forall i :: 0 <= i < |s| ==> key(s[i]) != k
    ensures CountKey(s, key, k) == 0
  {
    if s != [] {
      CountKeyAbsent(s[..|s| - 1], key, k);
    }
  }

  /** A key has a non-empty group exactly when some element carries it. */
  lemma {:induction false} CountKeyPositive<T, K(!new)>(s: seq<T>, key: T -> K, k: K)
    ensures CountKey(s, key, k) > 0 <==> exists i :: 0 <= i < |s| && key(s[i]) == k
  {
    if s != [] {
      var init := s[..|s| - 1];
      CountKeyPositive(init, key, k);
      assert forall i :: 0 <= i < |init| ==> init[i] == s[i];
      if CountKey(init, key, k) > 0 {
        var i :| 0 <= i < |init| && key(init[i]) == k;
        assert key(s[i]) == k;
      }
    }
  }

  /** The values `val(x)` of the elements `x` with key `k`, in input order. */
  function Select<T, K(==, !new)>(s: seq<T>, key: T -> K, k: K, val: T -> real): (vs: seq<real>)
    ensures |vs| == CountKey(s, key, k)
  {
    if s == [] then []
    else
      var rest := Select(s[..|s| - 1], key, k, val);
      if key(s[|s| - 1]) == k then rest + [val(s[|s| - 1])] else rest
  }

  lemma SelectAppend<T, K(!new)>(s: seq<T>, x: T, key: T -> K, k: K, val: T -> real)
    ensures Select(s + [x], key, k, val) ==
            if key(x) == k then Select(s, key, k, val) + [val(x)] else Select(s, key, k, val)
  {
    assert (s + [x])[..|s + [x]| - 1] == s;
  }

  /** The total of the group sizes over the keys `ks`. */
  function SumCounts<T, K(==, !new)>(ks: seq<K>, s: seq<T>, key: T -> K): nat
  {
    if ks == [] then 0 else SumCounts(ks[..|ks| - 1], s, key) + CountKey(s, key, ks[|ks| - 1])
  }

  lemma {:induction false} SumCountsAppendKey<T, K(!new)>(ks: seq<K>, k: K, s: seq<T>, key: T -> K)
    ensures SumCounts(ks + [k], s, key) == SumCounts(ks, s, key) + CountKey(s, key, k)
  {
    assert (ks + [k])[..|ks + [k]| - 1] == ks;
  }

  /** Adding an element to the list adds one to the total over distinct keys exactly when
      its key is among them. */
  lemma {:induction false} SumCountsAppendElem<T, K(!new)>(ks: seq<K>, s: seq<T>, x: T, key: T -> K)
    requires forall i, j :: 0 <= i < j < |ks| ==> ks[i] != ks[j]
    ensures SumCounts(ks, s + [x], key) == SumCounts(ks, s, key) + (if key(x) in ks then 1 else 0)
  {
    if ks != [] {
      var init := ks[..|ks| - 1];
      var last := ks[|ks| - 1];
      assert ks == init + [last];
      SumCountsAppendElem(init, s, x, key);
      CountKeyAppend(s, x, key, last);
      assert forall j :: 0 <= j < |init| ==> init[j] == ks[j] != last;
      assert key(x) in ks <==> key(x) in init || key(x) == last;
    }
  }

  /** Nothing is lost by grouping: the group sizes over the distinct keys add up to the
      length of the list. */
  lemma {:induction false} GroupSizesSum<T, K(!new)>(s: seq<T>, key: T -> K)
    ensures SumCounts(Distinct(s, key), s, key) == |s|
  {
    if s != [] {
      var init := s[..|s| - 1];
      var x := s[|s| - 1];
      assert s == init + [x];
      var ks := Distinct(init, key);
      GroupSizesSum(init, key);
      SumCountsAppendElem(ks, init, x, key);
      if key(x) !in ks {
        assert forall i :: 0 <= i < |init| ==> key(init[i]) != key(x);
        CountKeyAbsent(init, key, key(x));
        CountKeyAppend(init, x, key, key(x));
        SumCountsAppendKey(ks, key(x), s, key);
      }
    }
  }

  // ------------------------------------------------------------------
  // Histograms: `counts[k] = (counts[k] || 0) + 1` over a list

  /** `h` maps each key occurring in `s` to the number of its occurrences, and holds no
      other key. */
  ghost predicate IsHistogram<T, K(!new)>(h: map<K, nat>, s: seq<T>, key: T -> K) {
    (forall k :: k in h <==> CountKey(s, key, k) > 0)
    && (forall k :: k in h ==> h[k] == CountKey(s, key, k))
  }

  /** `h[k] = (h[k] || 0) + 1` */
  function Tally<K>(h: map<K, nat>, k: K): (r: map<K, nat>)
    ensures r.Keys == h.Keys + {k}
    ensures r[k] == (if k in h then h[k] else 0) + 1
    ensures forall j :: j in h && j != k ==> r[j] == h[j]
  {
    h[k := (if k in h then h[k] else 0) + 1]
  }

  /** Tallying the key of one more element keeps a histogram a histogram. */
  lemma TallyAdds<T, K(!new)>(h: map<K, nat>, s: seq<T>, key: T -> K, x: T)
    requires IsHistogram(h, s, key)
    ensures IsHistogram(Tally(h, key(x)), s + [x], key)
  {
    forall k ensures CountKey(s + [x], key, k) == CountKey(s, key, k) + (if key(x) == k then 1 else 0) {
      CountKeyAppend(s, x, key, k);
    }
  }

  /** The record a `forEach` of `counts[key(x)] = (counts[key(x)] || 0) + 1` builds. */
  function HistogramOf<T, K(==, !new)>(s: seq<T>, key: T -> K): (h: map<K, nat>)
    ensures IsHistogram(h, s, key)
  {
    if s == [] then map[]
    else
      var init, x := s[..|s| - 1], s[|s| - 1];
      TallyAdds(HistogramOf(init, key), init, key, x);
      assert init + [x] == s;
      Tally(HistogramOf(init, key), key(x))
  }

  /** Counting by an injective renaming `f` of the key counts the same elements. */
  lemma {:induction false} CountKeyRenamed<T, K(!new), L(!new)>(s: seq<T>, key: T -> K, renamed: T -> L, f: K -> L, k: K)
    requires forall x :: renamed(x) == f(key(x))
    requires forall a, b :: f(a) == f(b) ==> a == b
    ensures CountKey(s, renamed, f(k)) == CountKey(s, key, k)
  {
    if s != [] {
      CountKeyRenamed(s[..|s| - 1], key, renamed, f, k);
    }
  }

  /** The total of the counts held under the keys `ks`. */
  function SumValues<K>(ks: seq<K>, h: map<K, nat>): nat {
    if ks == [] then 0
    else SumValues(ks[..|ks| - 1], h) + (if ks[|ks| - 1] in h then h[ks[|ks| - 1]] else 0)
  }

  lemma {:induction false} SumValuesCounts<T, K(!new)>(ks: seq<K>, h: map<K, nat>, s: seq<T>, key: T -> K)
    requires IsHistogram(h, s, key)
    ensures SumValues(ks, h) == SumCounts(ks, s, key)
  {
    if ks != [] {
      SumValuesCounts(ks[..|ks| - 1], h, s, key);
    }
  }

  /** A histogram loses nothing: its keys are the distinct keys of the list, and its counts,
      taken over them, add up to the length of the list. */
  lemma HistogramTotal<T, K(!new)>(h: map<K, nat>, s: seq<T>, key: T -> K)
    requires IsHistogram(h, s, key)
    ensures forall k :: k in h <==> k in Distinct(s, key)
    ensures SumValues(Distinct(s, key), h) == |s|
  {
    forall k ensures k in h <==> k in Distinct(s, key) {
      CountKeyPositive(s, key, k);
    }
    SumValuesCounts(Distinct(s, key), h, s, key);
    GroupSizesSum(s, key);
  }
}
