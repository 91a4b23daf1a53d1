/** A step that may fail, repeated a counted number of times: the shape of
    the loader's counted loops, which stop at the first exception. */
module Steps {
  import opened Wrappers

  /** `k` applications of `step` from `start`; the first failure ends the
      run and is its result. */
  function Repeat<S, E>(step: S -> Result<S, E>, start: S, k: nat): Result<S, E>
  {
    if k == 0 then Success(start)
    else
      var s :- Repeat(step, start, k - 1);
      step(s)
  }

  /** One more step from the state after `i` steps. */
  lemma RepeatStep<S, E>(step: S -> Result<S, E>, start: S, i: nat, s: S)
    requires Repeat(step, start, i) == Success(s)
    ensures Repeat(step, start, i + 1) == step(s)
  {
  }

  /** A failure after `k` steps is the result of every longer run. */
  lemma {:induction false} RepeatFailureSticks<S, E>(step: S -> Result<S, E>, start: S, k: nat, n: nat)
    requires k <= n
    requires Repeat(step, start, k).Failure?
    ensures Repeat(step, start, n) == Repeat(step, start, k)
    decreases n - k
  {
    if k < n {
      RepeatFailureSticks(step, start, k, n - 1);
    }
  }

  /** A property of states that every successful step keeps holds after
      every successful run. */
  lemma {:induction false} RepeatKeeps<S, E>(step: S -> Result<S, E>, start: S, k: nat, inv: S -> bool)
    requires inv(start)
    requires forall s :: inv(s) && step(s).Success? ==> inv(step(s).value)
    ensures Repeat(step, start, k).Success? ==> inv(Repeat(step, start, k).value)
  {
    if k > 0 {
      RepeatKeeps(step, start, k - 1, inv);
    }
  }

  /** A measure that every successful step raises by one has risen by `k`
      after a successful run of `k` steps. */
  lemma {:induction false} RepeatCounts<S, E>(step: S -> Result<S, E>, start: S, k: nat, size: S -> int)
    requires forall s :: step(s).Success? ==> size(step(s).value) == size(s) + 1
    ensures Repeat(step, start, k).Success? ==> size(Repeat(step, start, k).value) == size(start) + k
  {
    if k > 0 {
      RepeatCounts(step, start, k - 1, size);
    }
  }

  /** When every failing step fails with `e`, so does every failing run. */
  lemma {:induction false} RepeatFails<S, E>(step: S -> Result<S, E>, start: S, k: nat, e: E)
    requires forall s :: step(s).Failure? ==> step(s).error == e
    ensures Repeat(step, start, k).Failure? ==> Repeat(step, start, k).error == e
  {
    if k > 0 {
      RepeatFails(step, start, k - 1, e);
    }
  }
}
