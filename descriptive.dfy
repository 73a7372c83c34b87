/**
 * The descriptive statistics pandas computes for a close column
 * (describe, median, mode, var), over exact reals.
 */
module Descriptive {
  import opened Floats

  function Sum(s: seq<real>): real {
    if s == [] then 0.0 else Sum(s[..|s| - 1]) + s[|s| - 1]
  }

  function Mean(s: seq<real>): real
    requires |s| > 0
  {
    Sum(s) / |s| as real
  }

  /** The sum of squared deviations from m. */
  function SumSqDev(s: seq<real>, m: real): (t: real)
    ensures t >= 0.0
  {
    if s == [] then 0.0
    else
      var d := s[|s| - 1] - m;
      SumSqDev(s[..|s| - 1], m) + d * d
  }

  /** Series.var() with its default ddof = 1: NaN below two observations, never negative. */
  function SampleVariance(s: seq<real>): (v: Float)
    ensures v.NaN? <==> |s| < 2
    ensures v.Fin? ==> v.v >= 0.0
  {
    if |s| < 2 then NaN else Fin(SumSqDev(s, Mean(s)) / (|s| - 1) as real)
  }

  lemma {:induction false} SumOfConstant(s: seq<real>, c: real)
    requires forall i :: 0 <= i < |s| ==> s[i] == c
    ensures Sum(s) == |s| as real * c
  {
    if s != [] {
      SumOfConstant(s[..|s| - 1], c);
    }
  }

  lemma {:induction false} SpreadOfConstant(s: seq<real>, c: real)
    requires forall i :: 0 <= i < |s| ==> s[i] == c
    ensures SumSqDev(s, c) == 0.0
  {
    if s != [] {
      SpreadOfConstant(s[..|s| - 1], c);
    }
  }

  /** A constant column has that constant as its mean. */
  lemma MeanOfConstant(s: seq<real>)
    requires |s| > 0
    requires forall i :: 0 <= i < |s| ==> s[i] == s[0]
    ensures Mean(s) == s[0]
  {
    var n := |s| as real;
    SumOfConstant(s, s[0]);
    assert Sum(s) == n * s[0];
    assert (n * s[0]) / n == s[0];
  }

  /** A constant column has zero sample variance. */
  lemma VarianceOfConstant(s: seq<real>)
    requires |s| >= 2
    requires forall i :: 0 <= i < |s| ==> s[i] == s[0]
    ensures SampleVariance(s) == Fin(0.0)
  {
    var n := |s| as real;
    SumOfConstant(s, s[0]);
    assert Mean(s) == n * s[0] / n;
    assert n * s[0] / n == s[0];
    SpreadOfConstant(s, s[0]);
  }

  predicate Ascending(s: seq<real>) {
    forall i, j :: 0 <= i < j < |s| ==> s[i] <= s[j]
  }

  /** Inserts x in front of the first element not smaller than it. */
  function Insert(x: real, s: seq<real>): seq<real> {
    if s == [] then [x]
    else if x <= s[0] then [x] + s
    else [s[0]] + Insert(x, s[1..])
  }

  /** The sorted copy pandas sorts into for min, max and the quantiles (insertion sort). */
  function SortAscending(s: seq<real>): seq<real> {
    if s == [] then [] else Insert(s[0], SortAscending(s[1..]))
  }

  lemma {:induction false} InsertKeepsElements(x: real, s: seq<real>)
    ensures multiset(Insert(x, s)) == multiset(s) + multiset{x}
  {
    if s != [] && x > s[0] {
      InsertKeepsElements(x, s[1..]);
      assert s == [s[0]] + s[1..];
    }
  }

  lemma {:induction false} InsertKeepsOrder(x: real, s: seq<real>)
    requires Ascending(s)
    ensures Ascending(Insert(x, s))
  {
    if s == [] {
    } else if x <= s[0] {
      PrependKeepsOrder(x, s);
    } else {
      var tail := s[1..];
      TailKeepsOrder(s);
      InsertKeepsOrder(x, tail);
      InsertKeepsElements(x, tail);
      var t := Insert(x, tail);
      forall k | 0 <= k < |t| ensures s[0] <= t[k] {
        assert t[k] in multiset(t);
        if t[k] != x {
          assert t[k] in multiset(tail);
          var m :| 0 <= m < |tail| && tail[m] == t[k];
          assert s[m + 1] == t[k];
        }
      }
      PrependKeepsOrder(s[0], t);
    }
  }

  lemma PrependKeepsOrder(x: real, s: seq<real>)
    requires Ascending(s)
    requires forall k :: 0 <= k < |s| ==> x <= s[k]
    ensures Ascending([x] + s)
  {
    var r := [x] + s;
    forall i, j | 0 <= i < j < |r| ensures r[i] <= r[j] {
      assert r[j] == s[j - 1];
      if i > 0 { assert r[i] == s[i - 1]; }
    }
  }

  lemma TailKeepsOrder(s: seq<real>)
    requires |s| > 0 && Ascending(s)
    ensures Ascending(s[1..])
    ensures forall k :: 0 <= k < |s| ==> s[0] <= s[k]
  {
    var tail := s[1..];
    forall i, j | 0 <= i < j < |tail| ensures tail[i] <= tail[j] {
      assert tail[i] == s[i + 1] && tail[j] == s[j + 1];
    }
  }

  /** Insertion sort returns an ascending permutation of its input. */
  lemma {:induction false} SortIsPermutationInOrder(s: seq<real>)
    ensures Ascending(SortAscending(s))
    ensures multiset(SortAscending(s)) == multiset(s)
  {
    if s != [] {
      SortIsPermutationInOrder(s[1..]);
      InsertKeepsOrder(s[0], SortAscending(s[1..]));
      InsertKeepsElements(s[0], SortAscending(s[1..]));
      assert s == [s[0]] + s[1..];
    }
  }

  /** In an ascending permutation of s, the first and last elements are s's minimum and maximum. */
  lemma EndsOfSortedPermutation(r: seq<real>, s: seq<real>)
    requires |s| > 0 && Ascending(r) && multiset(r) == multiset(s)
    ensures |r| == |s|
    ensures r[0] in s && r[|s| - 1] in s
    ensures forall x :: x in s ==> r[0] <= x <= r[|s| - 1]
  {
    assert |r| == |s| by {
      assert |multiset(r)| == |multiset(s)|;
    }
    assert r[0] in multiset(r) && r[|s| - 1] in multiset(r);
    forall x | x in s
      ensures r[0] <= x <= r[|r| - 1]
    {
      assert x in multiset(r);
      var k :| 0 <= k < |r| && r[k] == x;
      assert 0 < k ==> r[0] <= r[k];
      assert k < |r| - 1 ==> r[k] <= r[|r| - 1];
    }
  }

  /** The first and last elements of the sorted copy are the minimum and maximum. */
  lemma SortedEnds(s: seq<real>)
    requires |s| > 0
    ensures Ascending(SortAscending(s)) && |SortAscending(s)| == |s|
    ensures SortAscending(s)[0] in s && SortAscending(s)[|s| - 1] in s
    ensures forall x :: x in s ==> SortAscending(s)[0] <= x <= SortAscending(s)[|s| - 1]
  {
    SortIsPermutationInOrder(s);
    EndsOfSortedPermutation(SortAscending(s), s);
  }

  /** numpy's 'linear' quantile of sorted data: interpolate at position (n - 1) q. */
  function Quantile(s: seq<real>, q: real): (p: real)
    requires |s| > 0 && Ascending(s) && 0.0 <= q <= 1.0
    ensures s[0] <= p <= s[|s| - 1]
  {
    Interpolate(s, Position(|s|, q))
  }

  /** The fractional rank (n - 1) q, which lies in [0, n - 1]. */
  function Position(n: nat, q: real): (h: real)
    requires n > 0 && 0.0 <= q <= 1.0
    ensures 0.0 <= h <= (n - 1) as real
  {
    ScaleBelow((n - 1) as real, q);
    (n - 1) as real * q
  }

  /** The value at fractional position h between the neighbouring ranks floor(h) and floor(h) + 1. */
  function Interpolate(s: seq<real>, h: real): (p: real)
    requires |s| > 0 && Ascending(s) && 0.0 <= h <= (|s| - 1) as real
    ensures s[0] <= s[h.Floor] <= p <= s[Above(s, h)] <= s[|s| - 1]
  {
    Lerp(s[h.Floor], s[Above(s, h)] - s[h.Floor], h - h.Floor as real)
  }

  /** The upper neighbouring rank, clamped to the last index. */
  function Above(s: seq<real>, h: real): (k: nat)
    requires |s| > 0 && 0.0 <= h <= (|s| - 1) as real
    ensures h.Floor <= k < |s|
  {
    if h.Floor + 1 < |s| then h.Floor + 1 else h.Floor
  }

  /** Linear interpolation from a across a gap d >= 0, which stays inside [a, a + d]. */
  function Lerp(a: real, d: real, t: real): (r: real)
    requires d >= 0.0 && 0.0 <= t <= 1.0
    ensures a <= r <= a + d
  {
    ScaleBelow(d, t);
    a + d * t
  }

  lemma ScaleBelow(a: real, q: real)
    requires a >= 0.0 && 0.0 <= q <= 1.0
    ensures 0.0 <= a * q <= a
  {}

  lemma ScaleMonotone(a: real, q1: real, q2: real)
    requires a >= 0.0 && q1 <= q2
    ensures a * q1 <= a * q2
  {
    var g := q2 - q1;
    assert a * g >= 0.0;
    assert a * q2 == a * q1 + a * g;
  }

  lemma LerpMonotone(a: real, d: real, t1: real, t2: real)
    requires d >= 0.0 && 0.0 <= t1 <= t2 <= 1.0
    ensures Lerp(a, d, t1) <= Lerp(a, d, t2)
  {
    var p1, p2 := d * t1, d * t2;
    ScaleMonotone(d, t1, t2);
    assert p1 <= p2;
    assert Lerp(a, d, t1) == a + p1;
    assert Lerp(a, d, t2) == a + p2;
  }

  /** The textbook median: the middle value, or the mean of the two middle values. */
  function Median(s: seq<real>): real
    requires |s| > 0
  {
    var n := |s|;
    if n % 2 == 1 then s[n / 2] else (s[n / 2 - 1] + s[n / 2]) / 2.0
  }

  /** Series.median() agrees with the 50% row of describe(). */
  lemma MedianIsMiddleQuantile(s: seq<real>)
    requires |s| > 0 && Ascending(s)
    ensures Quantile(s, 0.5) == Median(s)
  {
    var n := |s|;
    var h := Position(n, 0.5);
    if n % 2 == 1 {
      assert h == ((n - 1) / 2) as real;
      assert h.Floor == n / 2;
    } else {
      assert h == (n / 2 - 1) as real + 0.5;
      assert h.Floor == n / 2 - 1;
    }
  }

  /** The 25%, 50% and 75% rows of describe() are in order. */
  lemma QuartilesInOrder(s: seq<real>)
    requires |s| > 0 && Ascending(s)
    ensures Quantile(s, 0.25) <= Quantile(s, 0.5) <= Quantile(s, 0.75)
  {
    InterpolateMonotone(s, Position(|s|, 0.25), Position(|s|, 0.5));
    InterpolateMonotone(s, Position(|s|, 0.5), Position(|s|, 0.75));
  }

  lemma InterpolateMonotone(s: seq<real>, h1: real, h2: real)
    requires |s| > 0 && Ascending(s) && 0.0 <= h1 <= h2 <= (|s| - 1) as real
    ensures Interpolate(s, h1) <= Interpolate(s, h2)
  {
    var lo1, lo2 := h1.Floor, h2.Floor;
    if lo1 == lo2 {
      LerpMonotone(s[lo1], s[Above(s, h1)] - s[lo1], h1 - lo1 as real, h2 - lo1 as real);
    } else {
      assert Above(s, h1) <= lo2;
      assert s[Above(s, h1)] <= s[lo2];
    }
  }

  /** Among the candidates, the value occurring most often in s; the smallest of the tied ones. */
  function MostFrequent(cands: seq<real>, s: seq<real>): (m: real)
    requires |cands| > 0
    ensures m in cands
    ensures forall x :: x in cands ==> multiset(s)[x] <= multiset(s)[m]
    ensures forall x :: x in cands && multiset(s)[x] == multiset(s)[m] ==> m <= x
  {
    if |cands| == 1 then cands[0]
    else
      var b := MostFrequent(cands[1..], s);
      var x := cands[0];
      assert forall y :: y in cands ==> y == x || y in cands[1..];
      if multiset(s)[x] > multiset(s)[b] || (multiset(s)[x] == multiset(s)[b] && x < b) then x else b
  }

  /** Series.mode().iloc[0]: the smallest of the most frequent values. */
  function Mode(s: seq<real>): (m: real)
    requires |s| > 0
    ensures m in s
    ensures forall x :: x in s ==> multiset(s)[x] <= multiset(s)[m]
    ensures forall x :: x in s && multiset(s)[x] == multiset(s)[m] ==> m <= x
  {
    MostFrequent(s, s)
  }

  /** The tie-break example: in [1, 1, 2, 2] both values occur twice and the mode is 1. */
  lemma ModeTieBreak()
    ensures Mode([1.0, 1.0, 2.0, 2.0]) == 1.0
  {
    var s := [1.0, 1.0, 2.0, 2.0];
    assert multiset(s)[1.0] == 2 && multiset(s)[2.0] == 2;
    assert forall x :: x in s ==> x == 1.0 || x == 2.0;
  }
}
