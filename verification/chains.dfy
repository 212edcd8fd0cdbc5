/** Repeating a partial step: the walks the library takes from model to
    model (a Condition's target, a model's parent) until the step gives out.
    The facts here show that a walk confined to a finite pool either ends
    within one step more than the pool has members, or never ends. */
module Chains {
  import opened Wrappers
  import opened Seqs

  /** Where `k` steps from `x` lead, if every one of them exists. */
  function Iterate<T>(step: T -> Option<T>, x: T, k: nat): Option<T>
    decreases k
  {
    if k == 0 then Some(x)
    else match step(x)
      case None => None
      case Some(y) => Iterate(step, y, k - 1)
  }

  /** Iterate unfolded once. */
  lemma IterateStep<T>(step: T -> Option<T>, x: T, k: nat)
    requires k > 0
    ensures Iterate(step, x, k) == if step(x).None? then None else Iterate(step, step(x).value, k - 1)
  {
  }

  /** A walk that manages `k` steps manages every shorter number. */
  lemma {:induction false} IteratePrefix<T>(step: T -> Option<T>, x: T, k: nat, shorter: nat)
    requires shorter <= k && Iterate(step, x, k).Some?
    ensures Iterate(step, x, shorter).Some?
    decreases k
  {
    if shorter > 0 {
      IteratePrefix(step, step(x).value, k - 1, shorter - 1);
    }
  }

  /** `a + b` steps are `a` steps, then `b` more from where those lead. */
  lemma {:induction false} IterateAdd<T>(step: T -> Option<T>, x: T, a: nat, b: nat)
    ensures Iterate(step, x, a + b) ==
            match Iterate(step, x, a) case None => None case Some(y) => Iterate(step, y, b)
    decreases a
  {
    if a > 0 && step(x).Some? {
      IterateAdd(step, step(x).value, a - 1, b);
    }
  }

  /** A walk that manages `k + 1` steps manages `k`, and can take one more from there. */
  lemma IterateLast<T>(step: T -> Option<T>, x: T, k: nat)
    requires Iterate(step, x, k + 1).Some?
    ensures Iterate(step, x, k).Some? && step(Iterate(step, x, k).value).Some?
  {
    IterateAdd(step, x, k, 1);
  }

  /** A process that runs out of fuel exactly when it keeps stepping: it stops
      where the step gives out, uses up its fuel on a step with none left, and
      otherwise spends one unit per step. Then it runs out of `fuel` exactly
      when the walk manages `fuel + 1` steps. */
  lemma {:induction false} RunsOutIffIterates<T>(step: T -> Option<T>, runsOut: (T, nat) -> bool, x: T, fuel: nat)
    requires forall y, f: nat :: step(y).None? ==> !runsOut(y, f)
    requires forall y :: step(y).Some? ==> runsOut(y, 0)
    requires forall y, f: nat :: step(y).Some? && f > 0 ==> runsOut(y, f) == runsOut(step(y).value, f - 1)
    ensures runsOut(x, fuel) <==> Iterate(step, x, fuel + 1).Some?
    decreases fuel
  {
    IterateStep(step, x, fuel + 1);
    if step(x).Some? {
      if fuel > 0 {
        RunsOutIffIterates(step, runsOut, step(x).value, fuel - 1);
      } else {
        assert Iterate(step, step(x).value, 0).Some?;
      }
    }
  }

  /** After at least one step the walk stands in the pool every step leads into. */
  lemma {:induction false} IterateInPool<T>(step: T -> Option<T>, x: T, pool: set<T>, k: nat)
    requires forall y :: step(y).Some? ==> step(y).value in pool
    requires k >= 1 && Iterate(step, x, k).Some?
    ensures Iterate(step, x, k).value in pool
    decreases k
  {
    if k > 1 {
      IterateInPool(step, step(x).value, pool, k - 1);
    }
  }

  /** A walk that comes back to where it started goes on for ever. */
  lemma {:induction false} IterateCycle<T>(step: T -> Option<T>, y: T, period: nat, k: nat)
    requires period >= 1 && Iterate(step, y, period) == Some(y)
    ensures Iterate(step, y, k).Some?
    decreases k
  {
    if k <= period {
      IteratePrefix(step, y, period, k);
    } else {
      IterateAdd(step, y, period, k - period);
      IterateCycle(step, y, period, k - period);
    }
  }

  /** A walk confined to `pool` that manages one step more than `pool` has
      members revisits one of them, and so manages any number of steps. */
  lemma IterateForever<T>(step: T -> Option<T>, x: T, pool: set<T>, m: nat)
    requires forall y :: step(y).Some? ==> step(y).value in pool
    requires Iterate(step, x, |pool| + 1).Some?
    ensures Iterate(step, x, m).Some?
  {
    var n := |pool| + 1;
    var trail := seq(n, k requires 0 <= k < n =>
      IteratePrefix(step, x, n, k + 1);
      Iterate(step, x, k + 1).value);
    forall k | 0 <= k < n ensures trail[k] in pool {
      IteratePrefix(step, x, n, k + 1);
      IterateInPool(step, x, pool, k + 1);
    }
    Pigeonhole(trail, pool);
    var i, j :| 0 <= i < j < n && trail[i] == trail[j];
    var y := trail[i];
    IteratePrefix(step, x, n, i + 1);
    IteratePrefix(step, x, n, j + 1);
    IterateAdd(step, x, i + 1, j - i);
    assert Iterate(step, y, j - i) == Some(y);
    if m <= i + 1 {
      IteratePrefix(step, x, i + 1, m);
    } else {
      IterateAdd(step, x, i + 1, m - i - 1);
      IterateCycle(step, y, j - i, m - i - 1);
    }
  }
}
