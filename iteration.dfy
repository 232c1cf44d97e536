/**
 * A loop that runs one step per pass, each step starting at the position the previous one
 * left off (the first at 0) and yielding one value: the values of the first `n` passes and
 * the position after them.
 */
module Iteration {

  /** The values of the first `n` passes of `step`, in order, and the position after them. */
  function Repeat(step: nat --> (real, nat), n: nat): (r: (seq<real>, nat))
    requires forall pos :: step.requires(pos)
    ensures |r.0| == n
  {
    if n == 0 then ([], 0)
    else
      var (earlier, pos) := Repeat(step, n - 1);
      var (x, next) := step(pos);
      (earlier + [x], next)
  }

  /** The passes only append: the first `m` values of `n` passes are the values of `m` passes. */
  lemma {:induction false} RepeatPrefix(step: nat --> (real, nat), m: nat, n: nat)
    requires forall pos :: step.requires(pos)
    requires m <= n
    ensures Repeat(step, n).0[..m] == Repeat(step, m).0
    decreases n
  {
    if m < n {
      RepeatPrefix(step, m, n - 1);
      var earlier := Repeat(step, n - 1).0;
      assert Repeat(step, n).0 == earlier + [Repeat(step, n).0[n - 1]];
    }
  }

  /** The i-th value is the value of the step taken where the first `i` passes left off. */
  lemma RepeatEntry(step: nat --> (real, nat), n: nat, i: nat)
    requires forall pos :: step.requires(pos)
    requires i < n
    ensures Repeat(step, n).0[i] == step(Repeat(step, i).1).0
  {
    RepeatPrefix(step, i + 1, n);
    assert Repeat(step, n).0[i] == Repeat(step, n).0[..i + 1][i];
  }

  /** Two steps that agree everywhere give the same passes. */
  lemma {:induction false} RepeatSameSteps(f: nat --> (real, nat), g: nat --> (real, nat), n: nat)
    requires forall pos :: f.requires(pos) && g.requires(pos)
    requires forall pos :: f(pos) == g(pos)
    ensures Repeat(f, n) == Repeat(g, n)
  {
    if n > 0 {
      RepeatSameSteps(f, g, n - 1);
    }
  }
}
