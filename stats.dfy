/** Arithmetic shared by the aggregators: sums, exact means, a stable sort by key
    (the behaviour of `Array.prototype.sort` and Python's `sorted`) and
    percentile indices `floor(n * q)` for a rational quantile `q`. */
module Stats {

  function Sum(s: seq<real>): real
  {
    if s == [] then 0.0 else Sum(s[..|s| - 1]) + s[|s| - 1]
  }

  lemma SumAppend(s: seq<real>, x: real)
    ensures Sum(s + [x]) == Sum(s) + x
  {
    assert (s + [x])[..|s + [x]| - 1] == s;
  }

  lemma {:induction false} SumBounds(s: seq<real>, lo: real, hi: real)
    requires forall i :: 0 <= i < |s| ==> lo <= s[i] <= hi
    ensures |s| as real * lo <= Sum(s) <= |s| as real * hi
  {
    if s != [] {
      SumBounds(s[..|s| - 1], lo, hi);
    }
  }

  /** Sums are invariant under permutation. */
  lemma {:induction false} SumPermutation(a: seq<real>, b: seq<real>)
    requires multiset(a) == multiset(b)
    ensures Sum(a) == Sum(b)
    decreases |a|
  {
    if a != [] {
      var x := a[|a| - 1];
      assert a == a[..|a| - 1] + [x];
      assert x in multiset(b);
      var k :| 0 <= k < |b| && b[k] == x;
      var b' := b[..k] + b[k + 1..];
      assert b == b[..k] + [x] + b[k + 1..];
      assert multiset(a) == multiset(a[..|a| - 1]) + multiset{x};
      assert multiset(b) == multiset(b[..k]) + multiset{x} + multiset(b[k + 1..]);
      assert multiset(b') == multiset(b[..k]) + multiset(b[k + 1..]);
      assert multiset(a[..|a| - 1]) == multiset(a) - multiset{x};
      assert multiset(b') == multiset(b) - multiset{x};
      SumPermutation(a[..|a| - 1], b');
      SumSplit(b[..k], b[k + 1..], x);
    }
  }

  lemma {:induction false} SumSplit(l: seq<real>, r: seq<real>, x: real)
    ensures Sum(l + [x] + r) == Sum(l + r) + x
    decreases |r|
  {
    if r == [] {
      assert l + [x] + r == l + [x];
      assert l + r == l;
      SumAppend(l, x);
    } else {
      var y := r[|r| - 1];
      var r' := r[..|r| - 1];
      assert l + [x] + r == (l + [x] + r') + [y];
      assert l + r == (l + r') + [y];
      SumAppend(l + [x] + r', y);
      SumAppend(l + r', y);
      SumSplit(l, r', x);
    }
  }

  lemma {:induction false} SumConcat(a: seq<real>, b: seq<real>)
    ensures Sum(a + b) == Sum(a) + Sum(b)
    decreases |b|
  {
    if b == [] {
      assert a + b == a;
    } else {
      var init := b[..|b| - 1];
      assert a + b == (a + init) + [b[|b| - 1]];
      assert b == init + [b[|b| - 1]];
      SumAppend(a + init, b[|b| - 1]);
      SumAppend(init, b[|b| - 1]);
      SumConcat(a, init);
    }
  }

  /** `s.map(f)` for a numeric field `f`. */
  function Apply<T>(s: seq<T>, f: T -> real): (r: seq<real>)
    ensures |r| == |s| && forall i :: 0 <= i < |s| ==> r[i] == f(s[i])
  {
    seq(|s|, i requires 0 <= i < |s| => f(s[i]))
  }

  /** Reordering the elements reorders their mapped values the same way. */
  lemma {:induction false} ApplyPermutation<T>(a: seq<T>, b: seq<T>, f: T -> real)
    requires multiset(a) == multiset(b)
    ensures multiset(Apply(a, f)) == multiset(Apply(b, f))
    decreases |a|
  {
    if a != [] {
      var n := |a| - 1;
      var x := a[n];
      assert x in multiset(b);
      var k :| 0 <= k < |b| && b[k] == x;
      RemoveAt(a, n);
      RemoveAt(b, k);
      assert a[..n] + a[n + 1..] == a[..n];
      ApplyPermutation(a[..n] + a[n + 1..], b[..k] + b[k + 1..], f);
      ApplyRemoveAt(a, n, f);
      ApplyRemoveAt(b, k, f);
    }
  }

  /** Taking out the element at `k` takes one copy of it out of the multiset. */
  lemma RemoveAt<T>(s: seq<T>, k: nat)
    requires k < |s|
    ensures multiset(s[..k] + s[k + 1..]) == multiset(s) - multiset{s[k]}
  {
    assert s == s[..k] + [s[k]] + s[k + 1..];
  }

  lemma ApplyRemoveAt<T>(s: seq<T>, k: nat, f: T -> real)
    requires k < |s|
    ensures multiset(Apply(s, f)) == multiset(Apply(s[..k] + s[k + 1..], f)) + multiset{f(s[k])}
  {
    var l, r := s[..k], s[k + 1..];
    assert s == l + [s[k]] + r;
    ApplyConcat(l + [s[k]], r, f);
    ApplyConcat(l, [s[k]], f);
    ApplyConcat(l, r, f);
    assert Apply([s[k]], f) == [f(s[k])];
  }

  lemma ApplyConcat<T>(a: seq<T>, b: seq<T>, f: T -> real)
    ensures Apply(a + b, f) == Apply(a, f) + Apply(b, f)
  {
  }

  /** The exact arithmetic mean; undefined (NaN in the source) for no samples. */
  function Mean(s: seq<real>): real
    requires s != []
  {
    Sum(s) / |s| as real
  }

  /** A mean kept as `avg` over `lb` extends to `lb + lr` as `(avg * |lb| + Sum(lr)) / |lb + lr|`. */
  lemma MeanExtend(lb: seq<real>, lr: seq<real>, avg: real, k: int, sr: real, m: int)
    requires k == |lb| && m == |lb + lr| > 0 && sr == Sum(lr)
    requires if lb == [] then avg == 0.0 else avg == Mean(lb)
    ensures (avg * k as real + sr) / m as real == Mean(lb + lr)
  {
    SumConcat(lb, lr);
    MeanTimesCount(lb, avg, k);
  }

  /** A mean kept as `avg` (0 before any sample) times the number of samples is their sum. */
  lemma MeanTimesCount(s: seq<real>, avg: real, k: int)
    requires k == |s|
    requires if s == [] then avg == 0.0 else avg == Mean(s)
    ensures avg * k as real == Sum(s)
  {
    if s != [] {
      MeanIsQuotient(s);
      TimesQuotient(avg, Sum(s), |s|);
      ScaledEqual(avg, k, |s|, Sum(s));
    }
  }

  lemma MeanIsQuotient(s: seq<real>)
    requires s != []
    ensures Mean(s) == Sum(s) / |s| as real
  {
  }

  lemma TimesQuotient(q: real, s: real, n: int)
    requires n != 0 && q == s / n as real
    ensures q * n as real == s
  {
  }

  lemma ScaledEqual(a: real, k: int, n: int, s: real)
    requires k == n && a * n as real == s
    ensures a * k as real == s
  {
  }

  /** The incremental update `(avg * c + x) / (c + 1)` keeps `avg` equal to the exact mean. */
  lemma IncrementalMean(s: seq<real>, avg: real, c: nat, x: real)
    requires c == |s|
    requires s == [] ==> avg == 0.0
    requires s != [] ==> avg == Mean(s)
    ensures (avg * c as real + x) / (c + 1) as real == Mean(s + [x])
  {
    SumAppend(s, x);
    var n := |s| as real;
    if s != [] {
      assert avg * n == Sum(s);
    }
    assert avg * n == Sum(s);
  }

  /** The mean of a non-empty sample lies between its least and greatest element. */
  lemma MeanBounds(s: seq<real>, lo: real, hi: real)
    requires s != []
    requires forall i :: 0 <= i < |s| ==> lo <= s[i] <= hi
    ensures lo <= Mean(s) <= hi
  {
    SumBounds(s, lo, hi);
    var n := |s| as real;
    assert n * lo <= Sum(s) <= n * hi;
    assert lo == (n * lo) / n && hi == (n * hi) / n;
  }

  // ------------------------------------------------------------------
  // Stable sort by a key

  ghost predicate SortedBy<T>(s: seq<T>, key: T -> real)
  {
    forall i, j :: 0 <= i < j < |s| ==> key(s[i]) <= key(s[j])
  }

  /** Insert `x` before the first element whose key is not smaller than its own. */
  function InsertBy<T>(x: T, s: seq<T>, key: T -> real): (r: seq<T>)
    ensures multiset(r) == multiset(s) + multiset{x}
    ensures |r| == |s| + 1
  {
    if s == [] then [x]
    else if key(x) <= key(s[0]) then [x] + s
    else
      assert s == [s[0]] + s[1..];
      [s[0]] + InsertBy(x, s[1..], key)
  }

  lemma {:induction false} InsertBySorted<T>(x: T, s: seq<T>, key: T -> real)
    requires SortedBy(s, key)
    ensures SortedBy(InsertBy(x, s, key), key)
  {
    if s == [] {
    } else if key(x) <= key(s[0]) {
      ConsSorted(x, s, key);
    } else {
      InsertBySorted(x, s[1..], key);
      InsertByAbove(x, s[1..], key, key(s[0]));
      ConsSorted(s[0], InsertBy(x, s[1..], key), key);
    }
  }

  /** A lower bound of `x` and of every element of `s` bounds the insertion too. */
  lemma {:induction false} InsertByAbove<T>(x: T, s: seq<T>, key: T -> real, b: real)
    requires b <= key(x) && forall k :: 0 <= k < |s| ==> b <= key(s[k])
    ensures forall k :: 0 <= k < |InsertBy(x, s, key)| ==> b <= key(InsertBy(x, s, key)[k])
  {
    if s != [] && key(x) > key(s[0]) {
      InsertByAbove(x, s[1..], key, b);
      var t := InsertBy(x, s[1..], key);
      assert forall k :: 0 <= k < |t| ==> ([s[0]] + t)[k + 1] == t[k];
    }
  }

  /** Putting an element no larger than any of a sorted sequence in front keeps it sorted. */
  lemma ConsSorted<T>(h: T, t: seq<T>, key: T -> real)
    requires SortedBy(t, key) && forall k :: 0 <= k < |t| ==> key(h) <= key(t[k])
    ensures SortedBy([h] + t, key)
  {
    var r := [h] + t;
    forall i, j | 0 <= i < j < |r| ensures key(r[i]) <= key(r[j]) {
      assert r[j] == t[j - 1];
      if i > 0 { assert r[i] == t[i - 1]; }
    }
  }

  /** Stable ascending sort of `s` by `key`. */
  function SortBy<T>(s: seq<T>, key: T -> real): (r: seq<T>)
    ensures SortedBy(r, key)
    ensures multiset(r) == multiset(s)
    ensures |r| == |s|
  {
    if s == [] then [] else
      assert s == [s[0]] + s[1..];
      var t := SortBy(s[1..], key);
      InsertBySorted(s[0], t, key);
      InsertBy(s[0], t, key)
  }

  function Identity(x: real): real { x }

  /** Ascending sort of a list of numbers: `sorted(xs)` / `xs.sort((a, b) => a - b)`. */
  function SortReals(s: seq<real>): (r: seq<real>)
    ensures |r| == |s| && multiset(r) == multiset(s)
    ensures forall i, j :: 0 <= i < j < |r| ==> r[i] <= r[j]
  {
    var r := SortBy(s, Identity);
    assert forall i, j :: 0 <= i < j < |r| ==> Identity(r[i]) <= Identity(r[j]);
    r
  }

  // ------------------------------------------------------------------
  // Percentiles by index

  lemma {:induction false} MulCancelLess(x: nat, y: nat, d: nat)
    requires d > 0 && x * d < y * d
    ensures x < y
    decreases x
  {
    if x > 0 && y > 0 {
      assert (x - 1) * d == x * d - d && (y - 1) * d == y * d - d;
      MulCancelLess(x - 1, y - 1, d);
    }
  }

  lemma DivBelow(a: nat, n: nat, d: nat)
    requires d > 0 && a < n * d
    ensures a / d < n
  {
    var q := a / d;
    assert a == q * d + a % d;
    assert q * d < n * d;
    MulCancelLess(q, n, d);
  }

  lemma DivMonotone(a: nat, b: nat, d: nat)
    requires a <= b && d > 0
    ensures a / d <= b / d
  {
    var qa, qb := a / d, b / d;
    assert a == qa * d + a % d;
    assert b == qb * d + b % d;
    assert qa * d < (qb + 1) * d;
    MulCancelLess(qa, qb + 1, d);
  }

  /** `floor(n * num / den)`, the index of the `num/den` quantile. */
  function QuantileIndex(n: nat, num: nat, den: nat): (k: nat)
    requires 0 < den && num < den && n > 0
    ensures k < n
  {
    MulStrictlyMonotone(n, num, den);
    DivBelow(n * num, n, den);
    (n * num) / den
  }

  lemma {:induction false} MulStrictlyMonotone(n: nat, a: nat, b: nat)
    requires n > 0 && a < b
    ensures n * a < n * b
  {
    if n > 1 {
      MulStrictlyMonotone(n - 1, a, b);
      assert n * a == (n - 1) * a + a;
      assert n * b == (n - 1) * b + b;
    }
  }

  /** A larger quantile never picks an earlier index. */
  lemma {:induction false} QuantileIndexMonotone(n: nat, num1: nat, num2: nat, den: nat)
    requires 0 < den && num1 <= num2 < den && n > 0
    ensures QuantileIndex(n, num1, den) <= QuantileIndex(n, num2, den)
  {
    assert n * num1 <= n * num2;
    DivMonotone(n * num1, n * num2, den);
  }

  /** Every element of a sorted non-empty list lies between its first and last. */
  lemma SortedBetween(r: seq<real>, k: nat)
    requires forall i, j :: 0 <= i < j < |r| ==> r[i] <= r[j]
    requires k < |r|
    ensures r[0] <= r[k] <= r[|r| - 1]
  {
  }

  /** The least element of a permutation-sorted list is the list's minimum. */
  lemma SortedFirstIsMin(s: seq<real>, r: seq<real>)
    requires |r| == |s| && multiset(r) == multiset(s) && s != []
    requires forall i, j :: 0 <= i < j < |r| ==> r[i] <= r[j]
    ensures r[0] in multiset(s) && r[|r| - 1] in multiset(s)
    ensures forall i :: 0 <= i < |s| ==> r[0] <= s[i] <= r[|r| - 1]
  {
    assert r[0] in multiset(r);
    assert r[|r| - 1] in multiset(r);
    forall i | 0 <= i < |s| ensures r[0] <= s[i] <= r[|r| - 1] {
      assert s[i] in multiset(s);
      assert s[i] in multiset(r);
      var k :| 0 <= k < |r| && r[k] == s[i];
    }
  }

  /** The summary statistics of a sorted non-empty sample are ordered:
      minimum <= p50 <= p90 <= p99 <= maximum. */
  lemma SortedQuantilesOrdered(r: seq<real>)
    requires r != [] && forall i, j :: 0 <= i < j < |r| ==> r[i] <= r[j]
    ensures var n := |r|;
            r[0] <= r[QuantileIndex(n, 50, 100)] <= r[QuantileIndex(n, 90, 100)]
            <= r[QuantileIndex(n, 99, 100)] <= r[n - 1]
  {
    var n := |r|;
    var a, b, c := QuantileIndex(n, 50, 100), QuantileIndex(n, 90, 100), QuantileIndex(n, 99, 100);
    QuantileIndexMonotone(n, 50, 90, 100);
    QuantileIndexMonotone(n, 90, 99, 100);
    SortedAt(r, 0, a);
    SortedAt(r, a, b);
    SortedAt(r, b, c);
    SortedAt(r, c, n - 1);
  }

  lemma SortedAt(r: seq<real>, i: nat, j: nat)
    requires forall i, j :: 0 <= i < j < |r| ==> r[i] <= r[j]
    requires i <= j < |r|
    ensures r[i] <= r[j]
  {
    if i < j {
      assert r[i] <= r[j];
    }
  }

  /** A part of a whole is a fraction between 0 and 1 of it. */
  lemma FractionBounds(part: real, whole: real)
    requires 0.0 <= part <= whole && whole > 0.0
    ensures 0.0 <= part / whole <= 1.0
  {
    var q := part / whole;
    assert q * whole == part;
    assert (1.0 - q) * whole == whole - part;
  }

  /** Python's `min(xs)` on a non-empty list. */
  function Min(s: seq<real>): (m: real)
    requires s != []
    ensures m in s && forall i :: 0 <= i < |s| ==> m <= s[i]
  {
    if |s| == 1 then s[0]
    else
      var rest := Min(s[..|s| - 1]);
      assert forall i :: 0 <= i < |s| - 1 ==> s[..|s| - 1][i] == s[i];
      if s[|s| - 1] < rest then s[|s| - 1] else rest
  }

  /** Python's `max(xs)` on a non-empty list. */
  function Max(s: seq<real>): (m: real)
    requires s != []
    ensures m in s && forall i :: 0 <= i < |s| ==> s[i] <= m
  {
    if |s| == 1 then s[0]
    else
      var rest := Max(s[..|s| - 1]);
      assert forall i :: 0 <= i < |s| - 1 ==> s[..|s| - 1][i] == s[i];
      if s[|s| - 1] > rest then s[|s| - 1] else rest
  }

  function Count<T>(s: seq<T>, p: T -> bool): (n: nat)
    ensures n <= |s|
  {
    if s == [] then 0 else Count(s[..|s| - 1], p) + (if p(s[|s| - 1]) then 1 else 0)
  }

  lemma CountAppend<T>(s: seq<T>, x: T, p: T -> bool)
    ensures Count(s + [x], p) == Count(s, p) + (if p(x) then 1 else 0)
  {
    assert (s + [x])[..|s + [x]| - 1] == s;
  }

  /** Two predicates that split every element count the whole list between them. */
  lemma {:induction false} CountComplement<T>(s: seq<T>, p: T -> bool, q: T -> bool)
    requires forall x :: p(x) <==> !q(x)
    ensures Count(s, p) + Count(s, q) == |s|
  {
    if s != [] { CountComplement(s[..|s| - 1], p, q); }
  }

  /** Disjoint predicates never count more than the whole list. */
  lemma {:induction false} CountDisjoint<T>(s: seq<T>, p: T -> bool, q: T -> bool)
    requires forall x :: !(p(x) && q(x))
    ensures Count(s, p) + Count(s, q) <= |s|
  {
    if s != [] { CountDisjoint(s[..|s| - 1], p, q); }
  }

  // ------------------------------------------------------------------
  // Draws from Math.random()

  lemma ScaleBounds(r: real, w: real)
    requires 0.0 <= r < 1.0
    ensures w >= 0.0 ==> 0.0 <= r * w <= w
    ensures w > 0.0 ==> r * w < w
    ensures w <= 0.0 ==> w <= r * w <= 0.0
    ensures w < 0.0 ==> w < r * w
  {
    if w > 0.0 {
      assert (1.0 - r) * w > 0.0;
    } else if w < 0.0 {
      assert (1.0 - r) * (-w) > 0.0;
    }
  }

  lemma ScaleNonNegative(r: real, w: real)
    requires 0.0 <= r < 1.0 && 0.0 <= w
    ensures 0.0 <= r * w <= w
  {
    assert (1.0 - r) * w >= 0.0;
  }

  /** `r * w` for a draw `r` in [0, 1) lies in [0, w] when `w` is not negative. */
  function Scale(r: real, w: real): (d: real)
    requires 0.0 <= r < 1.0
    ensures 0.0 <= w ==> 0.0 <= d <= w
  {
    if 0.0 <= w then ScaleNonNegative(r, w); r * w else r * w
  }

  /** `Math.floor(r * (hi - lo + 1)) + lo` for a draw `r = Math.random()` in [0, 1):
      inside [lo, hi] when the range is not empty, and inside [hi + 1, lo] otherwise. */
  function RandomInRange(lo: int, hi: int, r: real): (v: int)
    requires 0.0 <= r < 1.0
    ensures lo <= hi ==> lo <= v <= hi
    ensures hi < lo ==> hi + 1 <= v <= lo
  {
    ScaledFloorBounds(r, hi - lo + 1);
    (r * (hi - lo + 1) as real).Floor + lo
  }

  /** `Math.floor(r * w)` for a draw `r` in [0, 1) lies in [0, w) when `w` is positive,
      and in [w, 0] otherwise. */
  lemma ScaledFloorBounds(r: real, w: int)
    requires 0.0 <= r < 1.0
    ensures w > 0 ==> 0 <= (r * w as real).Floor < w
    ensures w <= 0 ==> w <= (r * w as real).Floor <= 0
  {
    var x := r * w as real;
    ScaleBounds(r, w as real);
    var f := x.Floor;
    assert f as real <= x < f as real + 1.0;
    if w > 0 {
      assert f as real < w as real;
    } else {
      assert (f + 1) as real > w as real;
    }
  }
}
