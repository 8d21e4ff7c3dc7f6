/** Runs of a machine; `next` may depend on the number of the step, so on its luck. */
module Runs {
  /** n steps from s. */
  function Tried<S>(next: (S, nat) -> S, s: S, n: nat): S {
    if n == 0 then s else next(Tried(next, s, n - 1), n - 1)
  }

  /** Names a number for the steps of a run to be instantiated with. */
  predicate Tick(k: nat) { true }

  ghost predicate IsRun<S>(next: (S, nat) -> S, run: nat -> S) {
    forall k: nat {:trigger Tick(k)} :: Tick(k) ==> run(k + 1) == next(run(k), k)
  }

  lemma OneStep<S>(next: (S, nat) -> S, run: nat -> S, n: nat)
    requires IsRun(next, run)
    ensures run(n + 1) == next(run(n), n)
  {
    assert Tick(n);
  }

  lemma TriedIsRun<S>(next: (S, nat) -> S, s: S)
    ensures IsRun(next, (k: nat) => Tried(next, s, k))
  {
  }
}
