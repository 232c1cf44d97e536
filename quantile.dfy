/**
 * `np.percentile` with numpy's default (linear) method, definition 7 of Hyndman and Fan (1996):
 * on the samples sorted ascending, the q-th percentile sits at the fractional position
 * h = (n - 1) * q / 100 and is interpolated linearly between the order statistics on either
 * side of h.
 */
module Quantile {
  import opened Sums

  predicate Sorted(s: seq<real>)
  {
    forall i, j :: 0 <= i <= j < |s| ==> s[i] <= s[j]
  }

  /** Places `x` into the sorted sequence `s`. */
  function Insert(x: real, s: seq<real>): (r: seq<real>)
    requires Sorted(s)
    ensures Sorted(r) && multiset(r) == multiset(s) + multiset{x}
  {
    if s == [] || x <= s[0] then [x] + s
    else
      var rest := Insert(x, s[1..]);
      assert s == [s[0]] + s[1..];
      assert forall k :: 0 <= k < |rest| ==> s[0] <= rest[k] by {
        forall k | 0 <= k < |rest| ensures s[0] <= rest[k] {
          assert rest[k] in multiset(rest);
          assert rest[k] == x || rest[k] in multiset(s[1..]);
        }
      }
      [s[0]] + rest
  }

  /** The samples in ascending order (what `np.sort` returns): a sorted permutation. */
  function Sort(s: seq<real>): (r: seq<real>)
    ensures |r| == |s|
    ensures Sorted(r) && multiset(r) == multiset(s)
  {
    if s == [] then []
    else
      assert s == [s[0]] + s[1..];
      assert multiset(s) == multiset(s[1..]) + multiset{s[0]};
      Insert(s[0], Sort(s[1..]))
  }

  lemma {:induction false} SortOfSorted(s: seq<real>)
    requires Sorted(s)
    ensures Sort(s) == s
  {
    if s != [] {
      SortOfSorted(s[1..]);
    }
  }

  /** An element of the sorted samples is one of the samples. */
  lemma SortedFrom(s: seq<real>, k: nat)
    requires k < |s|
    ensures exists i :: 0 <= i < |s| && s[i] == Sort(s)[k]
  {
    var r := Sort(s);
    assert r[k] in multiset(r);
    assert r[k] in s;
  }

  /** Linear interpolation between `a` and `b` at fraction `t` stays between them. */
  lemma LerpBetween(a: real, b: real, t: real)
    requires a <= b && 0.0 <= t <= 1.0
    ensures a <= a + t * (b - a) <= b
  {
    ProductNonNegative(t, b - a);
    ProductNonNegative(1.0 - t, b - a);
    assert (1.0 - t) * (b - a) == (b - a) - t * (b - a);
  }

  /** The order statistic just above position `lo`, clipped to the last one. */
  function Above(lo: nat, n: nat): (hi: nat)
  {
    if lo + 1 < n then lo + 1 else lo
  }

  /**
   * The value at fractional position `h` of the sorted samples `s`: `s[lo]` plus the fraction
   * `h - lo` of the step to the next order statistic, where `lo` is the floor of `h`.
   */
  function Interpolate(s: seq<real>, h: real): (v: real)
    requires Sorted(s) && 0.0 <= h <= (|s| - 1) as real
    ensures h.Floor < |s| && s[h.Floor] <= v <= s[Above(h.Floor, |s|)]
    ensures h == h.Floor as real ==> v == s[h.Floor]
  {
    var lo := h.Floor;
    var hi := Above(lo, |s|);
    LerpBetween(s[lo], s[hi], h - lo as real);
    s[lo] + (h - lo as real) * (s[hi] - s[lo])
  }

  /** Scaling `n` by a fraction `q / 100` of at most one keeps it within [0, n]. */
  lemma ScaledWithin(n: real, q: real)
    requires n >= 0.0 && 0.0 <= q <= 100.0
    ensures 0.0 <= n * q / 100.0 <= n
  {
    assert n * q >= 0.0;
    assert n * (100.0 - q) >= 0.0;
  }

  /** The fractional position of the q-th percentile among `count` sorted samples. */
  function Rank(count: nat, q: real): (h: real)
    requires count > 0 && 0.0 <= q <= 100.0
    ensures 0.0 <= h <= (count - 1) as real
  {
    ScaledWithin((count - 1) as real, q);
    (count - 1) as real * q / 100.0
  }

  /** `np.percentile(samples, q)` with the linear (type-7) method. */
  function Percentile(samples: seq<real>, q: real): (v: real)
    requires |samples| > 0 && 0.0 <= q <= 100.0
    ensures exists i :: 0 <= i < |samples| && samples[i] <= v
    ensures exists j :: 0 <= j < |samples| && v <= samples[j]
  {
    var h := Rank(|samples|, q);
    var s := Sort(samples);
    SortedFrom(samples, h.Floor);
    SortedFrom(samples, Above(h.Floor, |s|));
    Interpolate(s, h)
  }

  lemma InterpolateMonotone(s: seq<real>, h1: real, h2: real)
    requires Sorted(s) && 0.0 <= h1 <= h2 <= (|s| - 1) as real
    ensures Interpolate(s, h1) <= Interpolate(s, h2)
  {
    var lo1, lo2 := h1.Floor, h2.Floor;
    if lo1 == lo2 {
      var d := s[Above(lo1, |s|)] - s[lo1];
      assert (h2 - h1) * d >= 0.0;
    } else {
      assert Above(lo1, |s|) <= lo2;
    }
  }

  lemma RankMonotone(count: nat, q1: real, q2: real)
    requires count > 0 && 0.0 <= q1 <= q2 <= 100.0
    ensures Rank(count, q1) <= Rank(count, q2)
  {
    assert (count - 1) as real * (q2 - q1) >= 0.0;
  }

  /** A higher percentile is never below a lower one. */
  lemma PercentileMonotone(samples: seq<real>, q1: real, q2: real)
    requires |samples| > 0 && 0.0 <= q1 <= q2 <= 100.0
    ensures Percentile(samples, q1) <= Percentile(samples, q2)
  {
    RankMonotone(|samples|, q1, q2);
    InterpolateMonotone(Sort(samples), Rank(|samples|, q1), Rank(|samples|, q2));
  }

  /** Every percentile of samples that all equal `c` is `c`. */
  lemma PercentileOfConstant(samples: seq<real>, q: real, c: real)
    requires |samples| > 0 && 0.0 <= q <= 100.0
    requires forall i :: 0 <= i < |samples| ==> samples[i] == c
    ensures Percentile(samples, q) == c
  {
    var h := Rank(|samples|, q);
    SortedFrom(samples, h.Floor);
    SortedFrom(samples, Above(h.Floor, |samples|));
  }

  /** On samples already in order, a percentile interpolates them directly. */
  lemma PercentileOfSorted(samples: seq<real>, q: real)
    requires |samples| > 0 && 0.0 <= q <= 100.0 && Sorted(samples)
    ensures Percentile(samples, q) == Interpolate(samples, Rank(|samples|, q))
  {
    SortOfSorted(samples);
  }

  /** The worked example of the type-7 definition: the 50th and 90th percentiles of 1, 2, ..., 10. */
  lemma PercentileOfOneToTen(s: seq<real>)
    requires |s| == 10 && forall i :: 0 <= i < 10 ==> s[i] == (i + 1) as real
    ensures Percentile(s, 50.0) == 5.5
    ensures Percentile(s, 90.0) == 9.1
  {
    assert Sorted(s);
    PercentileOfSorted(s, 50.0);
    PercentileOfSorted(s, 90.0);
    assert Rank(10, 50.0) == 4.5 && (4.5).Floor == 4;
    assert Rank(10, 90.0) == 8.1 && (8.1).Floor == 8;
    assert s[4] == 5.0 && s[5] == 6.0 && s[8] == 9.0 && s[9] == 10.0;
  }
}
