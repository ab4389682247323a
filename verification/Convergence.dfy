/** Left alone, the build controller brings the servers that are not active to
    exactly the number the build asks for, and keeps them there. */
module Convergence {
  import opened ReconcilePlan

  // The arithmetic of one undisturbed pass

  predicate Sensible(spec: BuildSpec) {
    0 <= spec.standingBy && 0 <= spec.max && 0 < spec.addLimit && 0 < spec.deleteLimit
  }

  function Target(active: nat, spec: BuildSpec): nat {
    var t := Min(spec.standingBy, spec.max - active);
    if t > 0 then t else 0
  }

  function Trimmed(nonActive: nat, active: nat, spec: BuildSpec): (k: nat)
    ensures k <= nonActive
  {
    var budget := DeleteBudget(nonActive, active, spec);
    if budget <= 0 then 0 else Min(budget, nonActive)
  }

  function NextNonActive(nonActive: nat, active: nat, spec: BuildSpec): nat {
    nonActive - Trimmed(nonActive, active, spec) + CreateBudget(nonActive, active, spec)
  }

  /** From below, a pass closes the gap as fast as its batch allows and never
      passes the target. */
  lemma ApproachFromBelow(n: nat, active: nat, spec: BuildSpec)
    requires Sensible(spec) && n < Target(active, spec)
    ensures NextNonActive(n, active, spec) == n + Min(Target(active, spec) - n, spec.addLimit)
  {
  }

  /** From above, a pass takes what is over the limit it finds exceeded, as far
      as its batch allows. With both limits exceeded it takes what is over the
      first, and that much again on top of what is over the second. */
  lemma FallFromAbove(n: nat, active: nat, spec: BuildSpec)
    requires Sensible(spec) && Target(active, spec) < n
    ensures NextNonActive(n, active, spec) < n
    ensures spec.standingBy < n && n + active <= spec.max ==>
      NextNonActive(n, active, spec) == n - Min(n - spec.standingBy, spec.deleteLimit)
    ensures n <= spec.standingBy && spec.max < n + active ==>
      NextNonActive(n, active, spec) == n - Min(n, Min(n + active - spec.max, spec.deleteLimit))
    ensures spec.standingBy < n && spec.max < n + active ==>
      var first := Min(n - spec.standingBy, spec.deleteLimit);
      NextNonActive(n, active, spec) == n - Min(n, first + Min(first + n + active - spec.max, spec.deleteLimit))
  {
  }

  /** Both delete triggers fire, and what they ask for together is more than
      either asks for, cut off at the limit each. */
  predicate TriggersAddUp(n: nat, active: nat, spec: BuildSpec) {
    var overStandingBy, overMax := n - spec.standingBy, n + active - spec.max;
    var first := Min(overStandingBy, spec.deleteLimit);
    var both := first + Min(first + overMax, spec.deleteLimit);
    0 < overStandingBy && 0 < overMax && overStandingBy < both && overMax < both
  }

  /** A pass deletes below a target that is not zero exactly when the triggers
      add up; with a limit that does not cut either of them off, exactly when
      both of them fire. */
  lemma OverDeletesExactly(n: nat, active: nat, spec: BuildSpec)
    requires Sensible(spec) && Target(active, spec) < n
    ensures NextNonActive(n, active, spec) < Target(active, spec)
       <==> 0 < Target(active, spec) && TriggersAddUp(n, active, spec)
    ensures n - spec.standingBy <= spec.deleteLimit && n + active - spec.max <= spec.deleteLimit ==>
      (TriggersAddUp(n, active, spec) <==> spec.standingBy < n && spec.max < n + active)
  {
  }

  lemma AtRest(n: nat, active: nat, spec: BuildSpec)
    requires Sensible(spec)
    ensures NextNonActive(n, active, spec) == n <==> n == Target(active, spec)
  {
    if n < Target(active, spec) {
      ApproachFromBelow(n, active, spec);
    } else if Target(active, spec) < n {
      FallFromAbove(n, active, spec);
    }
  }

  // With both triggers a pass can delete everything although five should stay:
  // the concrete case of OverDeletesExactly.
  lemma BothTriggersOverDelete()
    ensures Target(0, BuildSpec(5, 8, 20, 20)) == 5
    ensures NextNonActive(10, 0, BuildSpec(5, 8, 20, 20)) == 0
  {
  }

  function Passes(k: nat, n: nat, active: nat, spec: BuildSpec): nat {
    if k == 0 then n else Passes(k - 1, NextNonActive(n, active, spec), active, spec)
  }

  lemma {:induction false} SettlesFromBelow(k: nat, n: nat, active: nat, spec: BuildSpec)
    requires Sensible(spec) && n <= Target(active, spec) && Target(active, spec) - n <= k
    ensures Passes(k, n, active, spec) == Target(active, spec)
  {
    if k > 0 {
      if n < Target(active, spec) {
        ApproachFromBelow(n, active, spec);
      } else {
        AtRest(n, active, spec);
      }
      SettlesFromBelow(k - 1, NextNonActive(n, active, spec), active, spec);
    }
  }

  /** From any number, the target is reached within max(n, target) passes and
      held from then on. */
  lemma {:induction false} Settles(k: nat, n: nat, active: nat, spec: BuildSpec)
    requires Sensible(spec) && n <= k && Target(active, spec) <= k
    ensures Passes(k, n, active, spec) == Target(active, spec)
    decreases n
  {
    if n <= Target(active, spec) {
      SettlesFromBelow(k, n, active, spec);
    } else {
      FallFromAbove(n, active, spec);
      var n' := NextNonActive(n, active, spec);
      if n' <= Target(active, spec) {
        SettlesFromBelow(k - 1, n', active, spec);
      } else {
        Settles(k - 1, n', active, spec);
      }
    }
  }
}
