/** Sums of sequences of reals, accumulated left to right as the script's `+=` and `np.sum` do. */
module Sums {

  predicate NonNegative(s: seq<real>)
  {
    forall i :: 0 <= i < |s| ==> s[i] >= 0.0
  }

  /** The sum of `s`; the empty sum is 0, as `np.sum([])` is. */
  function Sum(s: seq<real>): (r: real)
  {
    if s == [] then 0.0 else Sum(s[..|s| - 1]) + s[|s| - 1]
  }

  /** A product of non-negative factors is not negative. */
  lemma ProductNonNegative(x: real, y: real)
    requires x >= 0.0 && y >= 0.0
    ensures x * y >= 0.0
  {
  }

  /** Adding one more element to the accumulator. */
  lemma SumAppend(s: seq<real>, x: real)
    ensures Sum(s + [x]) == Sum(s) + x
  {
    assert (s + [x])[..|s|] == s;
  }

  /** Summing one more element of a sequence's prefix. */
  lemma SumPrefixStep(s: seq<real>, i: nat)
    requires i < |s|
    ensures Sum(s[..i + 1]) == Sum(s[..i]) + s[i]
  {
    assert s[..i + 1] == s[..i] + [s[i]];
    SumAppend(s[..i], s[i]);
  }

  /** A sum of non-negative terms is not negative. */
  lemma {:induction false} SumNonNegative(s: seq<real>)
    requires NonNegative(s)
    ensures Sum(s) >= 0.0
  {
    if s != [] {
      SumNonNegative(s[..|s| - 1]);
    }
  }

  /** A sum of non-negative terms is at least any one of them. */
  lemma {:induction false} SumAtLeast(s: seq<real>, i: nat)
    requires NonNegative(s) && i < |s|
    ensures Sum(s) >= s[i]
  {
    var n := |s| - 1;
    if i == n {
      SumNonNegative(s[..n]);
    } else {
      SumAtLeast(s[..n], i);
    }
  }

  /** A sum of non-negative terms is at least any two of them. */
  lemma {:induction false} SumAtLeastTwo(s: seq<real>, i: nat, j: nat)
    requires NonNegative(s) && i < |s| && j < |s| && i != j
    ensures Sum(s) >= s[i] + s[j]
  {
    var n := |s| - 1;
    if i == n {
      SumAtLeast(s[..n], j);
    } else if j == n {
      SumAtLeast(s[..n], i);
    } else {
      SumAtLeastTwo(s[..n], i, j);
    }
  }

  /** A sum of terms each between `lo` and `hi` lies between `|s|` times each. */
  lemma {:induction false} SumBounds(s: seq<real>, lo: real, hi: real)
    requires forall k :: 0 <= k < |s| ==> lo <= s[k] <= hi
    ensures |s| as real * lo <= Sum(s) <= |s| as real * hi
  {
    if s != [] {
      SumBounds(s[..|s| - 1], lo, hi);
    }
  }
}
