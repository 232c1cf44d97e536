/**
 * The random draws of the script, as functions of the variates a seeded generator yields.
 *
 * The generator is a stream of uniform variates in [0, 1); every draw the script makes
 * (`np.random.rand()`, `np.random.choice(options)`, `np.random.choice(range(k), p=weights)`)
 * consumes exactly one of them. What each draw returns is then a function of its variate.
 */
module Sampling {
  import opened Sums

  /** The seeded generator: the i-th variate it yields. */
  type Stream = nat -> real

  ghost predicate Uniform(rng: Stream)
  {
    forall i: nat :: 0.0 <= rng(i) < 1.0
  }

  /** What numpy accepts as the `p` of a categorical choice: non-negative weights summing to 1. */
  predicate IsDistribution(p: seq<real>)
  {
    |p| > 0 && NonNegative(p) && Sum(p) == 1.0
  }

  /**
   * Searches the cumulative weights `Sum(p[..1]), Sum(p[..2]), ...` from position `i` for the
   * first one above `u`: numpy's `searchsorted(cdf, u, side='right')`.
   */
  function SearchRight(p: seq<real>, u: real, i: nat): (r: nat)
    requires i <= |p| && Sum(p[..i]) <= u
    ensures i <= r <= |p|
    ensures r < |p| ==> Sum(p[..r]) <= u < Sum(p[..r + 1])
    ensures r == |p| ==> Sum(p) <= u
    decreases |p| - i
  {
    if i == |p| then
      assert p[..i] == p;
      i
    else if u < Sum(p[..i + 1]) then i
    else SearchRight(p, u, i + 1)
  }

  /**
   * The outcome of `np.random.choice(range(0, len(p)), p=p)` for variate `u`: the index whose
   * slice [Sum(p[..i]), Sum(p[..i+1])) of the unit interval holds `u`. An outcome of weight 0
   * is never drawn.
   */
  function Categorical(p: seq<real>, u: real): (i: nat)
    requires IsDistribution(p) && 0.0 <= u < 1.0
    ensures i < |p| && p[i] > 0.0
    ensures Sum(p[..i]) <= u < Sum(p[..i + 1])
  {
    assert p[..0] == [];
    var i := SearchRight(p, u, 0);
    SumPrefixStep(p, i);
    i
  }

  /** An outcome of weight 1 is drawn whatever the variate. */
  lemma CertainOutcome(p: seq<real>, u: real, i: nat)
    requires IsDistribution(p) && 0.0 <= u < 1.0
    requires i < |p| && p[i] == 1.0
    ensures Categorical(p, u) == i
  {
    var j := Categorical(p, u);
    if j != i {
      SumAtLeastTwo(p, i, j);
      assert false;
    }
  }

  lemma ScaledBelow(u: real, n: nat)
    requires n > 0 && 0.0 <= u < 1.0
    ensures 0.0 <= u * n as real < n as real
  {
    assert (1.0 - u) * n as real > 0.0;
  }

  /**
   * The index `np.random.choice(options)` takes for variate `u` when `options` has `n`
   * elements: each index owns a slice of width 1/n of the unit interval.
   */
  function PickIndex(n: nat, u: real): (k: nat)
    requires n > 0 && 0.0 <= u < 1.0
    ensures k < n
    ensures k as real <= u * n as real < k as real + 1.0
  {
    ScaledBelow(u, n);
    (u * n as real).Floor
  }

  /** `np.random.choice(options)`: one element of `options`, drawn with variate `u`. */
  function Choice(options: seq<real>, u: real): (x: real)
    requires |options| > 0 && 0.0 <= u < 1.0
    ensures x in options
  {
    options[PickIndex(|options|, u)]
  }
}
