/** Runs of a state machine as sequences of states, and the induction principle for their invariants. */
module Runs {
  ghost predicate StepAt<T>(run: seq<T>, step: (T, T) -> bool, k: nat)
    requires k + 1 < |run|
  {
    step(run[k], run[k + 1])
  }

  ghost predicate Steps<T>(run: seq<T>, step: (T, T) -> bool) {
    forall k: nat :: k + 1 < |run| ==> StepAt(run, step, k)
  }

  /** What holds at one point of a run and is kept by every step holds from there on. */
  lemma {:induction false} InvariantHolds<T(!new)>(run: seq<T>, step: (T, T) -> bool, inv: T -> bool, j: nat, k: nat)
    requires Steps(run, step) && j <= k < |run| && inv(run[j])
    requires forall a, b :: inv(a) && step(a, b) ==> inv(b)
    ensures inv(run[k])
  {
    if j < k {
      InvariantHolds(run, step, inv, j, k - 1);
      assert StepAt(run, step, k - 1);
    }
  }

  lemma Extended<T>(run: seq<T>, step: (T, T) -> bool, next: T)
    requires Steps(run, step) && |run| > 0 && step(run[|run| - 1], next)
    ensures Steps(run + [next], step)
  {
    var longer := run + [next];
    forall k: nat | k + 1 < |longer|
      ensures StepAt(longer, step, k)
    {
      assert k + 1 < |run| ==> StepAt(run, step, k);
    }
  }

  /** Steps that satisfy a weaker relation wherever the invariant of the run holds. */
  lemma Weakened<T(!new)>(run: seq<T>, strong: (T, T) -> bool, inv: T -> bool, weak: (T, T) -> bool)
    requires Steps(run, strong) && |run| > 0 && inv(run[0])
    requires forall a, b :: inv(a) && strong(a, b) ==> inv(b) && weak(a, b)
    ensures Steps(run, weak)
  {
    forall k: nat | k + 1 < |run|
      ensures StepAt(run, weak, k)
    {
      InvariantHolds(run, strong, inv, 0, k);
      assert StepAt(run, strong, k);
    }
  }
}
