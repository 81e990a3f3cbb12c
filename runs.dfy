/** A loop that updates one state for each element of a sequence, in order, stated once
    for any state and any step: the final state, and the states it passes through. */
module Runs {

  /** The state after `step` has been applied for each of `xs`, first to last. */
  function Run<S, X>(step: (S, X) -> S, s: S, xs: seq<X>): S
  {
    if xs == [] then s
    else step(Run(step, s, xs[..|xs| - 1]), xs[|xs| - 1])
  }

  /** The state after each step: `Trace(step, s, xs)[k]` follows `xs[k]`. */
  function Trace<S, X>(step: (S, X) -> S, s: S, xs: seq<X>): (ts: seq<S>)
    ensures |ts| == |xs|
  {
    if xs == [] then []
    else Trace(step, s, xs[..|xs| - 1]) + [Run(step, s, xs)]
  }

  /** One more element: one more step. */
  lemma RunStep<S, X>(step: (S, X) -> S, s: S, xs: seq<X>, i: nat)
    requires i < |xs|
    ensures Run(step, s, xs[..i + 1]) == step(Run(step, s, xs[..i]), xs[i])
  {
    assert xs[..i + 1][..i] == xs[..i];
  }

  /** One more element: one more state recorded. */
  lemma TraceStep<S, X>(step: (S, X) -> S, s: S, xs: seq<X>, i: nat)
    requires i < |xs|
    ensures Trace(step, s, xs[..i + 1]) == Trace(step, s, xs[..i]) + [Run(step, s, xs[..i + 1])]
  {
    assert xs[..i + 1][..i] == xs[..i];
  }

  /** The state recorded after `xs[k]` is the run over the first `k + 1` elements. */
  lemma {:induction false} TraceAt<S, X>(step: (S, X) -> S, s: S, xs: seq<X>, k: nat)
    requires k < |xs|
    ensures Trace(step, s, xs)[k] == Run(step, s, xs[..k + 1])
  {
    var n := |xs| - 1;
    if k < n {
      TraceAt(step, s, xs[..n], k);
      assert xs[..n][..k + 1] == xs[..k + 1];
    } else {
      assert xs[..k + 1] == xs;
    }
  }

  /** When every step overrides whatever came before it, the run ends in the state the
      last step makes from the start state. */
  lemma {:induction false} RunLast<S, X>(step: (S, X) -> S, s: S, xs: seq<X>)
    requires xs != []
    requires forall x, y :: step(step(s, x), y) == step(s, y)
    ensures Run(step, s, xs) == step(s, xs[|xs| - 1])
  {
    var n := |xs| - 1;
    if n > 0 {
      var front := xs[..n];
      RunLast(step, s, front);
      assert front[|front| - 1] == xs[n - 1];
    } else {
      assert xs[..n] == [];
    }
  }
}
