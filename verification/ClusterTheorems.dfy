/** What holds in every run of the cluster. */
module ClusterTheorems {
  import opened Options
  import opened GameServers
  import opened ApiStore
  import opened ReconcilePlan
  import opened ClusterRuns
  import opened ClusterInvariant

  // The maximum of the build

  /** The servers that the last pass to create one, up to i, read but matched to
      no branch. */
  function LastUnmatched(r: Run, i: nat): set<string>
    requires i < |r.states| && |r.states| == |r.events| + 1
  {
    if i == 0 then {}
    else if IsCreation(r.events[i - 1]) && r.states[i - 1].ctl.Running?
    then UnmatchedNames(r.states[i - 1].ctl.plan.items)
    else LastUnmatched(r, i - 1)
  }

  lemma SkippedMoves(s: System, e: Event, s': System)
    requires Step(s, e, s')
    ensures s'.skipped == if IsCreation(e) && s.ctl.Running? then UnmatchedNames(s.ctl.plan.items) else s.skipped
  {
    if IsCreation(e) {
      CreationSkips(s, e, s');
    } else {
      SkippedStands(s, e, s');
    }
  }

  lemma {:induction false} SkippedIsLast(r: Run, i: nat)
    requires IsRunFrom(EMPTY, r) && i <= |r.events|
    ensures r.states[i].skipped == LastUnmatched(r, i)
  {
    hide Step, UnmatchedNames;
    if i > 0 {
      SkippedIsLast(r, i - 1);
      SkippedMoves(r.states[i - 1], r.events[i - 1], r.states[i]);
    }
  }

  /** Whatever the interleaving, the lag of the cache, the failed calls and the
      restarts, the live servers number at most the largest maximum any pass
      read, not counting servers that the last creating pass read but matched to
      no branch. */
  lemma MaxIsRespected(r: Run, m: nat, i: nat)
    requires IsRunFrom(EMPTY, r) && MaxAtMost(r, m) && i <= |r.events|
    ensures |LiveNames(r.states[i].store) - LastUnmatched(r, i)| <= m
  {
    InvAlong(r, m, i);
    SkippedIsLast(r, i);
  }

  lemma PlanIsOfBegin(s: System, e: Event, s': System)
    requires Step(s, e, s') && s'.ctl.Running?
    ensures if e.Begin? then s'.ctl.plan.items == e.items else s.ctl.Running? && s'.ctl.plan == s.ctl.plan
  {
  }

  lemma {:induction false} NothingUnmatched(r: Run, i: nat)
    requires IsRunFrom(EMPTY, r) && i <= |r.events|
    requires forall j :: 0 <= j < |r.events| && r.events[j].Begin? ==> UnmatchedNames(r.events[j].items) == {}
    ensures LastUnmatched(r, i) == {}
    ensures r.states[i].ctl.Running? ==> UnmatchedNames(r.states[i].ctl.plan.items) == {}
  {
    hide Step, UnmatchedNames;
    if i > 0 {
      NothingUnmatched(r, i - 1);
      if r.states[i].ctl.Running? {
        PlanIsOfBegin(r.states[i - 1], r.events[i - 1], r.states[i]);
      }
    }
  }

  /** If no pass ever reads a server that matches no branch, the bound is on all
      live servers. */
  lemma MaxIsRespectedByAll(r: Run, m: nat, i: nat)
    requires IsRunFrom(EMPTY, r) && MaxAtMost(r, m) && i <= |r.events|
    requires forall j :: 0 <= j < |r.events| && r.events[j].Begin? ==> UnmatchedNames(r.events[j].items) == {}
    ensures |LiveNames(r.states[i].store)| <= m
  {
    MaxIsRespected(r, m, i);
    NothingUnmatched(r, i);
    assert LiveNames(r.states[i].store) - {} == LiveNames(r.states[i].store);
  }

  // Which servers match no branch: those that left the empty state without
  // ever getting a health, except crashed ones.
  lemma UnmatchedExactly(g: GameServer)
    ensures IsUnmatched(g) <==>
      g.health == Unknown && g.state in {Initializing, StandingBy, Active, GameCompleted}
  {
  }

  // Allocation

  /** A successful allocation finds its server standing by at that moment, in
      the API server itself, however old the queue entry is. */
  lemma AllocationFindsStandingBy(r: Run, m: nat, i: nat)
    requires IsRunFrom(EMPTY, r) && MaxAtMost(r, m) && i < |r.events|
    requires r.events[i].Patch? && r.events[i].ok
    ensures var n := r.events[i].ticket.name;
            && Live(r.states[i].store, n).Some? && Live(r.states[i].store, n).value.state == StandingBy
            && Live(r.states[i + 1].store, n).Some? && Live(r.states[i + 1].store, n).value.state == Active
  {
    InvAlong(r, m, i);
    assert Step(r.states[i], r.events[i], r.states[i + 1]);
    hide Step, StoreOk, Accounted, TalliesOk, PassOk, Bounded, IsTicketOf;
    var t := r.events[i].ticket;
    PatchPins(r.states[i], t, r.states[i + 1]);
    PatchActivates(r.states[i], t, r.states[i + 1]);
  }

  lemma PatchPins(s: System, t: Ticket, s': System)
    requires StoreOk(s.store) && TicketsOk(s) && Step(s, Patch(t, true), s')
    ensures Live(s.store, t.name).Some? && Live(s.store, t.name).value.state == StandingBy
  {
    assert IsTicketOf(s.store, t);
    var g :| InHistory(s.store, g) && g.name == t.name && g.version == t.version && g.state == StandingBy;
    VersionPins(s.store, g);
    hide StoreOk;
  }

  lemma PatchActivates(s: System, t: Ticket, s': System)
    requires Step(s, Patch(t, true), s')
    ensures Live(s'.store, t.name).Some? && Live(s'.store, t.name).value.state == Active
  {
  }

  ghost predicate OffDuty(s: System, name: string) {
    && name in s.store.records
    && (Live(s.store, name).Some? ==> Live(s.store, name).value.state != StandingBy)
  }

  predicate PutsOnStandBy(e: Event, name: string) {
    e.Write? && e.name == name && e.state == StandingBy
  }

  lemma OffDutyKept(s: System, e: Event, s': System, name: string)
    requires OffDuty(s, name) && Step(s, e, s') && !PutsOnStandBy(e, name)
    ensures OffDuty(s', name)
  {
    match e
    case Observe(n, upto) => LiveAfterSync(s.store, n, upto, name);
    case Write(n, state, health) => LiveAfterWritten(s.store, n, state, health, name);
    case Vanish(n) => LiveAfterDeleted(s.store, n, name);
    case Restart => LiveAfterSync(s.store, name, 0, name);
    case Patch(t, ok) => if ok { LiveAfterWritten(s.store, t.name, Active, Live(s.store, t.name).value.health, name); }
    case Call(call) => {
      match call
      case Remove(n, ok) => if ok { LiveAfterDeleted(s.store, n, name); }
      case RemoveIf(g, outcome) => if outcome == Ok { LiveAfterDeleted(s.store, g.name, name); }
      case Add(n, ok) => if ok { LiveAfterCreated(s.store, n, name); }
    }
    case _ =>
  }

  lemma {:induction false} StaysOffDuty(r: Run, m: nat, i: nat, j: nat)
    requires IsRunFrom(EMPTY, r) && MaxAtMost(r, m) && i < j <= |r.events|
    requires r.events[i].Patch? && r.events[i].ok
    requires forall k :: i < k < j ==> !PutsOnStandBy(r.events[k], r.events[i].ticket.name)
    ensures OffDuty(r.states[j], r.events[i].ticket.name)
  {
    if j == i + 1 {
      AllocationFindsStandingBy(r, m, i);
    } else {
      StaysOffDuty(r, m, i, j - 1);
      assert Step(r.states[j - 1], r.events[j - 1], r.states[j]);
      OffDutyKept(r.states[j - 1], r.events[j - 1], r.states[j], r.events[i].ticket.name);
    }
  }

  /** Two successful allocations of one server are separated by somebody else
      writing StandingBy to it. */
  lemma NoSecondAllocation(r: Run, m: nat, i: nat, j: nat)
    requires IsRunFrom(EMPTY, r) && MaxAtMost(r, m) && i < j < |r.events|
    requires r.events[i].Patch? && r.events[i].ok
    requires r.events[j].Patch? && r.events[j].ok
    requires r.events[i].ticket.name == r.events[j].ticket.name
    ensures exists k :: i < k < j && PutsOnStandBy(r.events[k], r.events[i].ticket.name)
  {
    var name := r.events[i].ticket.name;
    AllocationFindsStandingBy(r, m, j);
    if forall k :: i < k < j ==> !PutsOnStandBy(r.events[k], name) {
      StaysOffDuty(r, m, i, j);
      assert false;
    }
  }

  // Scale-down

  /** Scale-down only ever removes the very version it read, and that version
      was pending, initializing or standing by: never an allocated server. */
  lemma ScaleDownSparesActive(r: Run, m: nat, i: nat)
    requires IsRunFrom(EMPTY, r) && MaxAtMost(r, m) && i < |r.events|
    requires r.events[i].Call? && r.events[i].call.RemoveIf? && r.events[i].call.outcome == Ok
    ensures var g := r.events[i].call.target;
            Live(r.states[i].store, g.name) == Some(g) && IsTrimmable(g) && g.state != Active
  {
    InvAlong(r, m, i);
    var s, g := r.states[i], r.events[i].call.target;
    assert Step(s, r.events[i], r.states[i + 1]);
    assert g in s.ctl.plan.targets;
    VersionPins(s.store, g);
  }

  // The deletes of the sweep carry no version

  predicate MakesActive(e: Event, name: string) {
    || (e.Write? && e.name == name && e.state == Active)
    || (e.Patch? && e.ticket.name == name && e.ok)
  }

  predicate EndsActive(e: Event, name: string) {
    e.Write? && e.name == name && e.state != Active
  }

  /** Before i the server was made active, by the allocator or by a write, and no
      write has changed that since. */
  ghost predicate LastMadeActive(r: Run, i: nat, name: string)
    requires i <= |r.events|
  {
    exists k :: 0 <= k < i && MakesActive(r.events[k], name)
                && forall l :: k < l < i ==> !EndsActive(r.events[l], name)
  }

  predicate Creates(e: Event, name: string) {
    IsCreation(e) && e.call.name == name
  }

  // What one event does to the live version of a server.
  ghost predicate Moved(s: System, e: Event, s': System, name: string) {
    Live(s'.store, name).Some? ==>
      var state := Live(s'.store, name).value.state;
      if MakesActive(e, name) then state == Active
      else if EndsActive(e, name) then state != Active
      else if Creates(e, name) then name !in s.store.records && state != Active
      else Live(s'.store, name) == Live(s.store, name)
  }

  lemma CallMoves(s: System, call: ApiCall, s': System, name: string)
    requires Step(s, Call(call), s')
    ensures Moved(s, Call(call), s', name)
  {
    match call
    case Remove(n, ok) => if ok { LiveAfterDeleted(s.store, n, name); }
    case RemoveIf(g, outcome) => if outcome == Ok { LiveAfterDeleted(s.store, g.name, name); }
    case Add(n, ok) => if ok { LiveAfterCreated(s.store, n, name); }
  }

  lemma LiveMoves(s: System, e: Event, s': System, name: string)
    requires Step(s, e, s')
    ensures Moved(s, e, s', name)
  {
    match e
    case Observe(n, upto) => LiveAfterSync(s.store, n, upto, name);
    case Write(n, state, health) => LiveAfterWritten(s.store, n, state, health, name);
    case Vanish(n) => LiveAfterDeleted(s.store, n, name);
    case Restart => if name in s.store.records { LiveAfterSync(s.store, name, 0, name); }
    case Patch(t, ok) => if ok { LiveAfterWritten(s.store, t.name, Active, Live(s.store, t.name).value.health, name); }
    case Call(call) => CallMoves(s, call, s', name);
    case _ =>
  }

  lemma ActiveExists(s: System, e: Event, s': System, name: string)
    requires StoreOk(s.store) && Step(s, e, s') && (MakesActive(e, name) || name in s.store.records)
    ensures name in s'.store.records
  {
    StoreKept(s, e, s');
  }

  lemma {:induction false} MadeActiveExists(r: Run, k: nat, i: nat, name: string)
    requires IsRunFrom(EMPTY, r) && k < i <= |r.events| && MakesActive(r.events[k], name)
    ensures name in r.states[i].store.records
  {
    StoreOkAlong(EMPTY, r, i - 1);
    hide Step, StoreOk, MakesActive;
    if k < i - 1 {
      MadeActiveExists(r, k, i - 1, name);
    }
    ActiveExists(r.states[i - 1], r.events[i - 1], r.states[i], name);
  }

  lemma LastMadeActiveStep(r: Run, i: nat, name: string)
    requires i < |r.events|
    ensures MakesActive(r.events[i], name) ==> LastMadeActive(r, i + 1, name)
    ensures EndsActive(r.events[i], name) ==> !LastMadeActive(r, i + 1, name)
    ensures !MakesActive(r.events[i], name) && !EndsActive(r.events[i], name) ==>
      (LastMadeActive(r, i + 1, name) <==> LastMadeActive(r, i, name))
  {
    if LastMadeActive(r, i, name) && !EndsActive(r.events[i], name) {
      var k :| 0 <= k < i && MakesActive(r.events[k], name)
               && forall l :: k < l < i ==> !EndsActive(r.events[l], name);
      assert forall l :: k < l < i + 1 ==> !EndsActive(r.events[l], name);
    }
  }

  lemma LiveActiveStep(r: Run, i: nat, name: string)
    requires i < |r.events| < |r.states|
    requires Moved(r.states[i], r.events[i], r.states[i + 1], name) && Live(r.states[i + 1].store, name).Some?
    requires name !in r.states[i].store.records ==> !LastMadeActive(r, i, name)
    requires Live(r.states[i].store, name).Some? ==>
      (Live(r.states[i].store, name).value.state == Active <==> LastMadeActive(r, i, name))
    ensures Live(r.states[i + 1].store, name).value.state == Active <==> LastMadeActive(r, i + 1, name)
  {
    LastMadeActiveStep(r, i, name);
    hide LastMadeActive, MakesActive, EndsActive, Live, Creates;
  }

  /** A live server is active exactly when it was made so and no write has
      changed it since. */
  lemma {:induction false} LiveActiveExactly(r: Run, i: nat, name: string)
    requires IsRunFrom(EMPTY, r) && i <= |r.events| && Live(r.states[i].store, name).Some?
    ensures Live(r.states[i].store, name).value.state == Active <==> LastMadeActive(r, i, name)
  {
    if i > 0 {
      hide Step, LastMadeActive, Live, Moved;
      LiveMoves(r.states[i - 1], r.events[i - 1], r.states[i], name);
      if name !in r.states[i - 1].store.records {
        NotYetActive(r, i - 1, name);
      }
      if Live(r.states[i - 1].store, name).Some? {
        LiveActiveExactly(r, i - 1, name);
      }
      LiveActiveStep(r, i - 1, name);
    }
  }

  lemma NotYetActive(r: Run, i: nat, name: string)
    requires IsRunFrom(EMPTY, r) && i <= |r.events| && name !in r.states[i].store.records
    ensures !LastMadeActive(r, i, name)
  {
    if k :| 0 <= k < i && MakesActive(r.events[k], name) {
      MadeActiveExists(r, k, i, name);
    }
  }

  /** A delete of the sweep removes an active server exactly when the server was
      made active and not written otherwise since, whatever the pass read; only
      if its version is still the one read is it what the pass took it for. */
  lemma SweepRemovesActiveExactly(r: Run, m: nat, i: nat) returns (g: GameServer)
    requires IsRunFrom(EMPTY, r) && MaxAtMost(r, m) && i < |r.events|
    requires r.events[i].Call? && r.events[i].call.Remove? && r.events[i].call.ok
    ensures var c, name := r.states[i].ctl, r.events[i].call.name;
            && c.Running? && c.swept < |c.plan.doomed| && g == c.plan.doomed[c.swept] && IsDoomed(g) && g.name == name
            && Live(r.states[i].store, name).Some?
            && var live := Live(r.states[i].store, name).value;
               && (live.state == Active <==> LastMadeActive(r, i, name))
               && (live.version == g.version ==> live == g)
  {
    InvAlong(r, m, i);
    var s, name := r.states[i], r.events[i].call.name;
    assert Step(s, r.events[i], r.states[i + 1]);
    g := SweepTarget(s, m, r.events[i], r.states[i + 1]);
    hide Step, Inv, LastMadeActive, StoreOk, InHistory;
    if Live(s.store, name).value.version == g.version {
      VersionPins(s.store, g);
    }
    LiveActiveExactly(r, i, name);
  }

  lemma SweepTarget(s: System, m: nat, e: Event, s': System) returns (g: GameServer)
    requires PassOk(s, m) && Step(s, e, s') && e.Call? && e.call.Remove? && e.call.ok
    ensures s.ctl.Running? && s.ctl.swept < |s.ctl.plan.doomed| && g == s.ctl.plan.doomed[s.ctl.swept]
    ensures g in s.ctl.plan.items && IsDoomed(g) && g.name == e.call.name && InHistory(s.store, g)
    ensures Live(s.store, e.call.name).Some?
  {
    hide SweptOk, CoverOk, IsDoomed, IsTrimmable;
    g := s.ctl.plan.doomed[s.ctl.swept];
    assert g in s.ctl.plan.doomed;
  }

  // Crash accounting

  ghost predicate HasCrashed(s: Store, name: string) {
    exists g :: InHistory(s, g) && g.name == name && IsCrash(g)
  }

  lemma CrashStays(s: Store, s': Store, name: string)
    requires Grows(s, s') && HasCrashed(s, name)
    ensures HasCrashed(s', name)
  {
    var g :| InHistory(s, g) && g.name == name && IsCrash(g);
    HistoryGrows(s, s', g);
  }

  lemma OnlyFinishCounts(s: System, e: Event, s': System, name: string)
    requires Step(s, e, s') && name in s'.counted && name !in s.counted
    ensures s.ctl.Running? && name in CrashNames(s.ctl.plan.items)
  {
    hide CrashNames;
  }

  lemma NewlyCounted(s: System, m: nat, e: Event, s': System, name: string)
    requires Step(s, e, s') && PassOk(s, m) && name in s'.counted && name !in s.counted
    ensures HasCrashed(s.store, name)
  {
    hide Step, PlanOk, ProgressOk, SweptOk, CoverOk, IsCrash;
    OnlyFinishCounts(s, e, s', name);
    var g :| g in s.ctl.plan.items && IsCrash(g) && g.name == name;
  }

  lemma {:induction false} CountedHaveCrashed(r: Run, m: nat, i: nat, name: string)
    requires IsRunFrom(EMPTY, r) && MaxAtMost(r, m) && i <= |r.events|
    requires name in r.states[i].counted
    ensures HasCrashed(r.states[i].store, name)
  {
    if i > 0 {
      var s, e, s' := r.states[i - 1], r.events[i - 1], r.states[i];
      assert Step(s, e, s');
      InvAlong(r, m, i - 1);
      hide Step, HasCrashed, Grows;
      StoreKept(s, e, s');
      if name in s.counted {
        CountedHaveCrashed(r, m, i - 1, name);
      } else {
        NewlyCounted(s, m, e, s', name);
      }
      CrashStays(s.store, s'.store, name);
    }
  }

  /** The crash total of the build is the number of distinct servers whose crash
      was tallied; each of them was read as crashed or unhealthy and is removed. */
  lemma CrashesAreCountedOnce(r: Run, m: nat, i: nat)
    requires IsRunFrom(EMPTY, r) && MaxAtMost(r, m) && i <= |r.events|
    ensures r.states[i].recorded == |r.states[i].counted|
    ensures forall n :: n in r.states[i].counted ==>
      HasCrashed(r.states[i].store, n) && Live(r.states[i].store, n).None?
  {
    InvAlong(r, m, i);
    var s := r.states[i];
    forall n | n in s.counted
      ensures HasCrashed(s.store, n) && Live(s.store, n).None?
    {
      CountedHaveCrashed(r, m, i, n);
      assert Buried(s, n);
    }
  }

  /** Within one life of the controller the total never falls. */
  lemma {:induction false} CrashTotalGrows(start: System, r: Run, i: nat, j: nat)
    requires IsRunFrom(start, r) && i <= j <= |r.events|
    requires forall k :: i <= k < j ==> !r.events[k].Restart?
    ensures r.states[i].recorded <= r.states[j].recorded
  {
    if i < j {
      CrashTotalGrows(start, r, i, j - 1);
      assert Step(r.states[j - 1], r.events[j - 1], r.states[j]);
    }
  }
}
