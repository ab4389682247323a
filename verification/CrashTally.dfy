/** Which crashes the recorded total counts, and which are lost. */
module CrashTally {
  import opened Options
  import opened GameServers
  import opened ApiStore
  import opened ReconcilePlan
  import opened ClusterRuns
  import opened ClusterInvariant
  import opened CalmPasses

  // The pass in progress has removed the server as a crashed one; its crash is
  // not recorded yet.
  ghost predicate Pending(s: System, n: string) {
    && s.ctl.Running? && n in CrashNames(s.ctl.plan.items) && n !in s.counted
    && Gone(s, n) && 0 < s.store.records[n].seen
  }

  // The server is removed, and neither recorded nor listed by a pass.
  ghost predicate Lost(s: System, n: string) {
    && Buried(s, n) && n !in s.counted
    && (s.ctl.Running? ==> n !in NamesOf(s.ctl.plan.items))
  }

  lemma SweptCrashPends(s: System, m: nat, e: Event, s': System)
    requires PassOk(s, m) && Step(s, e, s') && e.Call? && e.call.Remove? && e.call.ok
    requires IsCrash(s.ctl.plan.doomed[s.ctl.swept])
    ensures Pending(s', e.call.name)
  {
    hide SweptOk, CoverOk;
    var g := s.ctl.plan.doomed[s.ctl.swept];
    assert g in s.ctl.plan.doomed && g in Filter(s.ctl.plan.items, IsCrash);
    assert g.name in CrashNames(s.ctl.plan.items) && g.name in NamesOf(s.ctl.plan.items);
  }

  lemma PassGoesOn(s: System, e: Event, s': System)
    requires Step(s, e, s') && s.ctl.Running? && s'.ctl.Running?
    ensures !e.Restart? && !e.Finish? && !e.Begin? && s'.ctl.plan == s.ctl.plan && s'.counted == s.counted
  {
  }

  lemma PendingKept(s: System, e: Event, s': System, n: string)
    requires StoreOk(s.store) && Pending(s, n) && Step(s, e, s') && s'.ctl.Running?
    ensures Pending(s', n)
  {
    PassGoesOn(s, e, s');
    GoneKept(s, e, s', n);
    StoreKept(s, e, s');
    hide Step, StoreOk, CrashNames;
  }

  lemma PassEnds(s: System, e: Event, s': System)
    requires Step(s, e, s') && s.ctl.Running? && s'.ctl.Idle?
    ensures e.Finish? ==> s'.counted == s.counted + CrashNames(s.ctl.plan.items)
    ensures !e.Finish? && !e.Restart? ==> s'.counted == s.counted
    ensures e.Restart? ==> s'.counted == {}
  {
  }

  lemma PendingEnds(s: System, e: Event, s': System, n: string)
    requires StoreOk(s.store) && Pending(s, n) && Step(s, e, s') && s'.ctl.Idle?
    ensures if e.Finish? then n in s'.counted else Lost(s', n)
  {
    PassEnds(s, e, s');
    assert Buried(s, n);
    if e.Restart? {
      RestartBuries(s, s', n);
    } else {
      BuriedKept(s, e, s', n);
    }
    hide Step, StoreOk, CrashNames, Buried;
  }

  lemma RestartBuries(s: System, s': System, n: string)
    requires StoreOk(s.store) && Buried(s, n) && Step(s, Restart, s')
    ensures Buried(s', n)
  {
  }

  lemma BeginMisses(s: System, e: Event, s': System, n: string)
    requires StoreOk(s.store) && Buried(s, n) && Step(s, e, s') && e.Begin?
    ensures n !in NamesOf(s'.ctl.plan.items) && s'.counted == s.counted
  {
    BuriedUncached(s, n);
  }

  lemma LostKept(s: System, e: Event, s': System, n: string)
    requires StoreOk(s.store) && Lost(s, n) && Step(s, e, s')
    ensures Lost(s', n)
  {
    if e.Restart? {
      RestartBuries(s, s', n);
    } else {
      BuriedKept(s, e, s', n);
      if e.Begin? {
        BeginMisses(s, e, s', n);
      } else if s.ctl.Running? && s'.ctl.Running? {
        PassGoesOn(s, e, s');
      } else if s.ctl.Running? {
        PassEnds(s, e, s');
        CrashesAreListed(s.ctl.plan.items);
      }
    }
  }

  lemma CrashesAreListed(items: seq<GameServer>)
    ensures CrashNames(items) <= NamesOf(items)
  {
  }

  lemma {:induction false} LostAlong(start: System, r: Run, i: nat, j: nat, n: string)
    requires IsRunFrom(start, r) && StoreOk(start.store) && i <= j <= |r.events| && Lost(r.states[i], n)
    ensures Lost(r.states[j], n)
  {
    hide Step, StoreOk, Lost;
    if i < j {
      LostAlong(start, r, i, j - 1, n);
      StoreOkAlong(start, r, j - 1);
      LostKept(r.states[j - 1], r.events[j - 1], r.states[j], n);
    }
  }

  lemma {:induction false} PendingAlong(start: System, r: Run, i: nat, k: nat, n: string)
    requires IsRunFrom(start, r) && StoreOk(start.store) && i <= k <= |r.events| && Pending(r.states[i], n)
    requires forall l :: i <= l <= k ==> r.states[l].ctl.Running?
    ensures Pending(r.states[k], n)
  {
    hide Step, StoreOk, Pending;
    if i < k {
      PendingAlong(start, r, i, k - 1, n);
      StoreOkAlong(start, r, k - 1);
      PendingKept(r.states[k - 1], r.events[k - 1], r.states[k], n);
    }
  }

  lemma {:induction false} CountedAlong(start: System, r: Run, i: nat, j: nat, n: string)
    requires IsRunFrom(start, r) && i <= j <= |r.events| && n in r.states[i].counted
    requires forall l :: i <= l < j ==> !r.events[l].Restart?
    ensures n in r.states[j].counted
  {
    if i < j {
      CountedAlong(start, r, i, j - 1, n);
      assert Step(r.states[j - 1], r.events[j - 1], r.states[j]);
    }
  }

  // Event i of the run removes a server its pass read as crashed or unhealthy.
  ghost predicate RemovesCrash(r: Run, i: nat) {
    && i < |r.events| < |r.states| && r.events[i].Call? && r.events[i].call.Remove? && r.events[i].call.ok
    && var c := r.states[i].ctl; c.Running? && c.swept < |c.plan.doomed| && IsCrash(c.plan.doomed[c.swept])
  }

  lemma RemovedCrashPends(r: Run, m: nat, i: nat)
    requires IsRunFrom(EMPTY, r) && MaxAtMost(r, m) && RemovesCrash(r, i)
    ensures Pending(r.states[i + 1], r.events[i].call.name)
  {
    InvAlong(r, m, i);
    hide Step, Pending, PassOk;
    SweptCrashPends(r.states[i], m, r.events[i], r.states[i + 1]);
  }

  lemma PassSettles(start: System, r: Run, i: nat, k: nat, n: string)
    requires IsRunFrom(start, r) && StoreOk(start.store) && i <= k < |r.events| && Pending(r.states[i], n)
    requires (forall l :: i <= l <= k ==> r.states[l].ctl.Running?) && r.states[k + 1].ctl.Idle?
    ensures if r.events[k].Finish? then n in r.states[k + 1].counted else Lost(r.states[k + 1], n)
  {
    hide Step, StoreOk, Pending, Lost;
    PendingAlong(start, r, i, k, n);
    StoreOkAlong(start, r, k);
    PendingEnds(r.states[k], r.events[k], r.states[k + 1], n);
  }

  // When a pass finishes

  predicate Fails(call: ApiCall) {
    match call
    case Remove(_, ok) => !ok
    case RemoveIf(_, outcome) => outcome == Failed
    case Add(_, ok) => !ok
  }

  predicate FailsAt(r: Run, l: nat)
    requires l < |r.events|
  {
    r.events[l].Call? && Fails(r.events[l].call)
  }

  // The pass that begins at b ends at k.
  ghost predicate PassFromTo(r: Run, b: nat, k: nat) {
    && b < k < |r.events| && |r.states| == |r.events| + 1
    && r.events[b].Begin?
    && (forall l :: b < l <= k ==> r.states[l].ctl.Running?) && r.states[k + 1].ctl.Idle?
  }

  lemma FailureIsNoted(s: System, e: Event, s': System)
    requires Step(s, e, s') && s.ctl.Running? && s'.ctl.Running?
    ensures s'.ctl.failed <==> s.ctl.failed || (e.Call? && Fails(e.call))
  {
  }

  lemma BeginsSound(s: System, e: Event, s': System)
    requires Step(s, e, s') && e.Begin?
    ensures s'.ctl.Running? && !s'.ctl.failed && s'.ctl.trimmed == 0
  {
  }

  lemma {:induction false} FailedExactly(start: System, r: Run, b: nat, l: nat)
    requires IsRunFrom(start, r) && b < l <= |r.events| && r.events[b].Begin?
    requires forall j :: b < j <= l ==> r.states[j].ctl.Running?
    ensures r.states[l].ctl.failed <==> exists j :: b < j < l && FailsAt(r, j)
  {
    hide Step, Fails;
    if l == b + 1 {
      BeginsSound(r.states[b], r.events[b], r.states[l]);
    } else {
      FailedExactly(start, r, b, l - 1);
      FailureIsNoted(r.states[l - 1], r.events[l - 1], r.states[l]);
      assert FailsAt(r, l - 1) <==> r.events[l - 1].Call? && Fails(r.events[l - 1].call);
    }
  }

  lemma LastEvent(s: System, e: Event, s': System)
    requires Step(s, e, s') && s.ctl.Running? && s'.ctl.Idle?
    ensures e.Finish? <==> !e.Restart? && !(e.Call? && Fails(e.call)) && !s.ctl.failed
  {
  }

  /** A pass finishes exactly when the controller is not restarted, every delete
      of the sweep and every creation succeeds, and no scale-down delete fails but
      by a conflict. */
  lemma FinishesExactly(start: System, r: Run, b: nat, k: nat)
    requires IsRunFrom(start, r) && PassFromTo(r, b, k)
    ensures r.events[k].Finish? <==> !r.events[k].Restart? && forall l :: b < l <= k ==> !FailsAt(r, l)
  {
    FailedExactly(start, r, b, k);
    LastEvent(r.states[k], r.events[k], r.states[k + 1]);
    assert FailsAt(r, k) <==> r.events[k].Call? && Fails(r.events[k].call);
    hide Step, Fails;
  }

  // Targets that are gone already

  lemma TargetIsDead(s: System, m: nat, g: GameServer)
    requires StoreOk(s.store) && PassOk(s, m) && s.ctl.Running? && s.ctl.swept == |s.ctl.plan.doomed|
    requires g in s.ctl.plan.targets && IsDoomed(g)
    ensures Live(s.store, g.name).None?
  {
    hide CoverOk, IsDoomed;
    assert g in s.ctl.plan.items;
    SweptAreDead(s, m, g);
  }

  lemma TrimExpects(s: System, call: ApiCall, s': System)
    requires Step(s, Call(call), s') && call.RemoveIf?
    ensures s.ctl.Running? && s.ctl.swept == |s.ctl.plan.doomed| && call.target in s.ctl.plan.targets
    ensures Live(s.store, call.target.name).None? ==> call.outcome == Failed
  {
  }

  /** Scale-down looks at the state of a server only, so it may choose an
      unhealthy one that the sweep of the same pass has removed. In every run its
      delete fails. */
  lemma DoomedTargetFails(r: Run, m: nat, i: nat)
    requires IsRunFrom(EMPTY, r) && MaxAtMost(r, m) && i < |r.events|
    requires r.events[i].Call? && r.events[i].call.RemoveIf? && IsDoomed(r.events[i].call.target)
    ensures r.events[i].call.outcome == Failed
  {
    InvAlong(r, m, i);
    assert Step(r.states[i], r.events[i], r.states[i + 1]);
    hide Step, StoreOk, PassOk, IsDoomed;
    TrimExpects(r.states[i], r.events[i].call, r.states[i + 1]);
    TargetIsDead(r.states[i], m, r.events[i].call.target);
  }

  lemma TrimAdvances(s: System, e: Event, s': System)
    requires Step(s, e, s') && s.ctl.Running? && s'.ctl.Running?
    ensures s'.ctl.plan == s.ctl.plan && (s.ctl.failed ==> s'.ctl.failed)
    ensures s'.ctl.trimmed == s.ctl.trimmed
         || (e.Call? && e.call.RemoveIf? && s.ctl.trimmed < |s.ctl.plan.targets|
             && e.call.target == s.ctl.plan.targets[s.ctl.trimmed] && s'.ctl.trimmed == s.ctl.trimmed + 1
             && (e.call.outcome == Failed ==> s'.ctl.failed))
  {
  }

  lemma {:induction false} DoomedTargetNoted(r: Run, m: nat, b: nat, l: nat, j: nat)
    requires IsRunFrom(EMPTY, r) && MaxAtMost(r, m) && b < l <= |r.events| && r.events[b].Begin?
    requires forall i :: b < i <= l ==> r.states[i].ctl.Running?
    requires j < |r.states[l].ctl.plan.targets| && IsDoomed(r.states[l].ctl.plan.targets[j])
    ensures j < r.states[l].ctl.trimmed ==> r.states[l].ctl.failed
  {
    hide Step, IsDoomed;
    if l == b + 1 {
      BeginsSound(r.states[b], r.events[b], r.states[l]);
    } else {
      TrimAdvances(r.states[l - 1], r.events[l - 1], r.states[l]);
      DoomedTargetNoted(r, m, b, l - 1, j);
      if r.events[l - 1].Call? && r.events[l - 1].call.RemoveIf? && IsDoomed(r.events[l - 1].call.target) {
        DoomedTargetFails(r, m, l - 1);
      }
    }
  }

  lemma FinishTriesAll(s: System, s': System)
    requires Step(s, Finish, s')
    ensures s.ctl.Running? && s.ctl.trimmed == |s.ctl.plan.targets| && !s.ctl.failed
  {
  }

  /** So a pass with such a target never finishes. */
  lemma DoomedTargetForbidsFinish(r: Run, m: nat, b: nat, k: nat)
    requires IsRunFrom(EMPTY, r) && MaxAtMost(r, m) && PassFromTo(r, b, k)
    requires exists g :: g in r.states[k].ctl.plan.targets && IsDoomed(g)
    ensures !r.events[k].Finish?
  {
    var targets := r.states[k].ctl.plan.targets;
    var g :| g in targets && IsDoomed(g);
    var j :| 0 <= j < |targets| && targets[j] == g;
    DoomedTargetNoted(r, m, b, k, j);
    if r.events[k].Finish? {
      FinishTriesAll(r.states[k], r.states[k + 1]);
    }
    hide Step, IsDoomed;
  }

  // Which crashes are counted

  lemma {:induction false} SettledFrom(r: Run, m: nat, i: nat, k: nat, j: nat)
    requires IsRunFrom(EMPTY, r) && MaxAtMost(r, m) && i < k < j <= |r.events| && RemovesCrash(r, i)
    requires (forall l :: i < l <= k ==> r.states[l].ctl.Running?) && r.states[k + 1].ctl.Idle?
    ensures !r.events[k].Finish? ==> r.events[i].call.name !in r.states[j].counted
    ensures (forall l :: k < l < j ==> !r.events[l].Restart?) ==>
      (r.events[i].call.name in r.states[j].counted <==> r.events[k].Finish?)
  {
    var n := r.events[i].call.name;
    RemovedCrashPends(r, m, i);
    hide Step, Pending, IsRunFrom;
    PassSettles(EMPTY, r, i + 1, k, n);
    if r.events[k].Finish? {
      if forall l :: k < l < j ==> !r.events[l].Restart? {
        CountedAlong(EMPTY, r, k + 1, j, n);
      }
    } else {
      LostAlong(EMPTY, r, k + 1, j, n);
    }
  }

  /** A pass from b to k removes a crashed server at i. As long as the controller
      lives, the crash is part of the recorded total exactly if nothing of the
      pass failed; otherwise it is lost, for this controller and all later ones. A
      target that the sweep has removed is such a failure. */
  lemma CrashIsTalliedExactly(r: Run, m: nat, b: nat, i: nat, k: nat, j: nat)
    requires IsRunFrom(EMPTY, r) && MaxAtMost(r, m) && PassFromTo(r, b, k)
    requires b < i < k < j <= |r.events| && RemovesCrash(r, i)
    ensures var sound := !r.events[k].Restart? && forall l :: b < l <= k ==> !FailsAt(r, l);
            && (!sound ==> r.events[i].call.name !in r.states[j].counted)
            && ((forall l :: k < l < j ==> !r.events[l].Restart?) ==>
                  (r.events[i].call.name in r.states[j].counted <==> sound))
    ensures (exists g :: g in r.states[k].ctl.plan.targets && IsDoomed(g)) ==>
      r.events[i].call.name !in r.states[j].counted
  {
    SettledFrom(r, m, i, k, j);
    FinishesExactly(EMPTY, r, b, k);
    hide IsRunFrom, IsDoomed, RemovesCrash;
    if exists g :: g in r.states[k].ctl.plan.targets && IsDoomed(g) {
      DoomedTargetForbidsFinish(r, m, b, k);
    }
  }

  // With nobody else acting

  lemma TallyOfPass(t: System, e: Event, f: System)
    requires Step(t, e, f) && (e.Finish? || e.GiveUp?)
    ensures t.ctl.Running?
    ensures f.recorded == t.recorded + if e.Finish? then t.ctl.plan.counts.crashes else 0
  {
  }

  lemma {:induction false} NoTallyBefore(s: System, spec: BuildSpec, r: Run, i: nat)
    requires IsCalmPass(s, spec, r) && i < |r.events|
    ensures r.states[i].recorded == s.recorded
  {
    if i > 0 {
      NoTallyBefore(s, spec, r, i - 1);
      TallyStands(r.states[i - 1], r.events[i - 1], r.states[i]);
    }
    hide Step, Served;
  }

  lemma TallyStands(s: System, e: Event, s': System)
    requires Step(s, e, s') && (e.Begin? || e.Call?)
    ensures s'.recorded == s.recorded
  {
  }

  lemma CrashesOfPlan(s: System, e: Event, t: System)
    requires Calm(s) && e.Begin? && Step(s, e, t)
    ensures t.ctl.Running? && t.ctl.plan.counts.crashes == |NamesThat(s.store, IsCrash)|
  {
    BeginMoves(s, e, t);
    CrashCount(e.items);
    ListedThat(s, e.items, IsCrash);
    hide Step, Calm, IsCacheListing, NamesThat, Filter, CountsOf;
  }

  /** An undisturbed pass over a calm cluster finishes exactly when no target it
      chose was doomed. */
  lemma CalmPassFinishesExactly(s: System, spec: BuildSpec, r: Run)
    requires Calm(s) && IsCalmPass(s, spec, r)
    ensures r.states[1].ctl.Running? && r.states[|r.events| - 1].ctl.Running?
    ensures r.states[|r.events| - 1].ctl.plan == r.states[1].ctl.plan
    ensures r.events[|r.events| - 1].Finish? <==> !AnyDoomed(r.states[1].ctl.plan.targets)
  {
    CalmPassResult(s, spec, r);
    PassAlong(s, spec, r, |r.events| - 1);
    hide Calm, Step, NamesThat, AnyDoomed, PassSoFar, Served, AllCounted, CalmPlan;
  }

  /** Such a pass records all the crashes there are or none: none exactly when
      scale-down chose a server that the sweep had removed. */
  lemma CalmPassTallies(s: System, spec: BuildSpec, r: Run)
    requires Calm(s) && IsCalmPass(s, spec, r)
    ensures r.states[1].ctl.Running?
    ensures r.states[|r.events|].recorded
         == s.recorded + if AnyDoomed(r.states[1].ctl.plan.targets) then 0 else |NamesThat(s.store, IsCrash)|
  {
    hide Calm, Step, NamesThat, AnyDoomed, Served;
    var last := |r.events| - 1;
    CalmPassFinishesExactly(s, spec, r);
    CrashesOfPlan(s, r.events[0], r.states[1]);
    NoTallyBefore(s, spec, r, last);
    TallyOfPass(r.states[last], r.events[last], r.states[last + 1]);
  }
}
