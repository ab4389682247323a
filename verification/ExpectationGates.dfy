/** When the gates of the expectations open, and what keeps them shut. */
module ExpectationGates {
  import opened ApiStore
  import opened ReconcilePlan
  import opened ClusterRuns
  import opened ClusterInvariant

  // The price of the creation gate

  // A server that is expected, but was removed before any gate saw it, and
  // whose removal the cache has already seen.
  ghost predicate Orphaned(s: System, name: string) {
    && name in s.creating && name in s.store.records
    && s.store.records[name].deleted && s.store.records[name].seen == s.store.records[name].Length()
  }

  lemma OrphanStays(s: System, e: Event, s': System, name: string)
    requires Orphaned(s, name) && s.ctl.Idle? && Step(s, e, s') && !e.Restart?
    ensures Orphaned(s', name) && s'.ctl.Idle?
  {
  }

  /** From then on, until the controller restarts, the build is never reconciled
      again: no pass begins, so it makes no API call at all. */
  lemma {:induction false} OrphanBlocksForever(start: System, r: Run, name: string, i: nat)
    requires IsRunFrom(start, r) && Orphaned(start, name) && start.ctl.Idle? && i <= |r.events|
    requires forall k :: 0 <= k < |r.events| ==> !r.events[k].Restart?
    ensures Orphaned(r.states[i], name) && r.states[i].ctl.Idle?
    ensures i < |r.events| ==> !r.events[i].Begin? && !r.events[i].Call? && !r.events[i].Finish?
  {
    hide Step, Orphaned;
    if i > 0 {
      OrphanBlocksForever(start, r, name, i - 1);
      assert Step(r.states[i - 1], r.events[i - 1], r.states[i]);
      OrphanStays(r.states[i - 1], r.events[i - 1], r.states[i], name);
    }
    if i < |r.events| {
      assert Step(r.states[i], r.events[i], r.states[i + 1]);
      OrphanBlocks(r.states[i], r.events[i], r.states[i + 1], name);
    }
  }

  lemma OrphanBlocks(s: System, e: Event, s': System, name: string)
    requires Orphaned(s, name) && s.ctl.Idle? && Step(s, e, s')
    ensures !e.Begin? && !e.Call? && !e.Finish?
  {
  }

  // What the expectations of every reachable state are about

  /** Servers expected to go are removed, servers expected to appear exist or
      have existed, and no server is both; nor did the pass in progress list any
      that it created. */
  ghost predicate ExpectOk(s: System) {
    && s.creating <= s.store.records.Keys && s.creating !! s.deleting
    && (forall n :: n in s.deleting ==> n in s.store.records && s.store.records[n].deleted)
    && (s.ctl.Running? ==> ListedOk(s, s.ctl.plan))
  }

  // The plan is about servers that existed before the pass created any.
  ghost predicate ListedOk(s: System, p: Plan) {
    && (forall g :: g in p.doomed ==> g.name in s.store.records && g.name !in s.creating)
    && (forall g :: g in p.targets ==> g.name in s.store.records && g.name !in s.creating)
  }

  lemma BeginLists(s: System, e: Event, s': System)
    requires ExpectOk(s) && Step(s, e, s') && e.Begin?
    ensures ExpectOk(s')
  {
    var p := s'.ctl.plan;
    forall g | g in p.doomed || g in p.targets
      ensures g in e.items
    {
      assert g in multiset(e.sorted) <==> g in e.sorted;
      assert g in multiset(e.items) <==> g in e.items;
    }
    assert forall g :: g in e.items ==> g.name in NamesOf(e.items);
  }

  lemma RemoveExpects(s: System, call: ApiCall, s': System)
    requires StoreOk(s.store) && ExpectOk(s) && Step(s, Call(call), s') && !call.Add?
    ensures ExpectOk(s')
  {
    if call.Remove? {
      assert s.ctl.plan.doomed[s.ctl.swept] in s.ctl.plan.doomed;
    } else {
      assert call.target in s.ctl.plan.targets;
    }
  }

  lemma AddExpects(s: System, call: ApiCall, s': System)
    requires StoreOk(s.store) && ExpectOk(s) && Step(s, Call(call), s') && call.Add?
    ensures ExpectOk(s')
  {
  }

  lemma ExpectKept(s: System, e: Event, s': System)
    requires StoreOk(s.store) && ExpectOk(s) && Step(s, e, s')
    ensures ExpectOk(s')
  {
    if e.Begin? {
      BeginLists(s, e, s');
    } else if e.Call? {
      if e.call.Add? {
        AddExpects(s, e.call, s');
      } else {
        RemoveExpects(s, e.call, s');
      }
    } else {
      StoreKept(s, e, s');
      OthersExpect(s, e, s');
    }
  }

  lemma OthersExpect(s: System, e: Event, s': System)
    requires Grows(s.store, s'.store) && ExpectOk(s) && Step(s, e, s') && !e.Begin? && !e.Call?
    ensures ExpectOk(s')
  {
  }

  lemma {:induction false} ExpectAlong(start: System, r: Run, i: nat)
    requires IsRunFrom(start, r) && StoreOk(start.store) && ExpectOk(start) && i <= |r.events|
    ensures ExpectOk(r.states[i])
  {
    hide Step, StoreOk, ExpectOk;
    if i > 0 {
      ExpectAlong(start, r, i - 1);
      StoreOkAlong(start, r, i - 1);
      ExpectKept(r.states[i - 1], r.events[i - 1], r.states[i]);
    }
  }

  // Opening the gates

  predicate IsCacheStep(e: Event) {
    e.Observe? || e.ForgetCreated? || e.ForgetDeleted?
  }

  // A run in which only the cache and the gates move.
  ghost predicate IsCacheRun(start: System, r: Run) {
    IsRunFrom(start, r) && forall i :: 0 <= i < |r.events| ==> IsCacheStep(r.events[i])
  }

  lemma CacheRunGrows(start: System, r: Run, e: Event, s: System) returns (r': Run)
    requires IsCacheRun(start, r) && IsCacheStep(e) && Step(r.states[|r.events|], e, s)
    ensures IsCacheRun(start, r') && r'.states[|r'.events|] == s
  {
    r' := Run(r.states + [s], r.events + [e]);
  }

  ghost predicate NoOrphan(s: System) {
    forall n :: n in s.creating ==> !Orphaned(s, n)
  }

  // An idle state in which nothing stands between the cache and the gates.
  ghost predicate Openable(s: System) {
    StoreOk(s.store) && ExpectOk(s) && s.ctl.Idle? && NoOrphan(s)
  }

  // The cache hears of the removal, and the deletion gate forgets the server.
  lemma ForgetOneDeleted(s: System, n: string) returns (t: System, s': System, upto: nat)
    requires Openable(s) && n in s.deleting
    ensures Step(s, Observe(n, upto), t) && Step(t, ForgetDeleted(n), s')
    ensures Openable(s') && s'.deleting == s.deleting - {n} && s'.creating == s.creating
  {
    upto := s.store.records[n].Length();
    t := s.(store := Observed(s.store, n, upto));
    s' := t.(deleting := s.deleting - {n});
    ObservedOk(s.store, n, upto);
  }

  // The cache shows a version of the server, and the creation gate forgets it.
  lemma ForgetOneCreated(s: System, n: string) returns (t: System, s': System, upto: nat)
    requires Openable(s) && n in s.creating
    ensures Step(s, Observe(n, upto), t) && Step(t, ForgetCreated(n), s')
    ensures Openable(s') && s'.creating == s.creating - {n} && s'.deleting == s.deleting
  {
    var record := s.store.records[n];
    assert RecordOk(n, record, s.store.clock) && !Orphaned(s, n);
    upto := if record.seen == 0 then 1 else record.seen;
    t := s.(store := Observed(s.store, n, upto));
    s' := t.(creating := s.creating - {n});
    ObservedOk(s.store, n, upto);
    forall m | m in s'.creating
      ensures !Orphaned(s', m)
    {
      assert !Orphaned(s, m);
    }
  }

  /** Without an orphan, steps of the cache and the gates alone empty both
      expectations. */
  lemma {:induction false} CacheOpensGates(start: System, r: Run) returns (r': Run)
    requires IsCacheRun(start, r) && Openable(r.states[|r.events|])
    ensures IsCacheRun(start, r')
    ensures var f := r'.states[|r'.events|]; Openable(f) && f.creating == {} && f.deleting == {}
    decreases r.states[|r.events|].creating, r.states[|r.events|].deleting
  {
    var s := r.states[|r.events|];
    hide Openable, Step, IsRunFrom;
    if n :| n in s.creating {
      var t, s', upto := ForgetOneCreated(s, n);
      r' := CacheRunGrows(start, r, Observe(n, upto), t);
      r' := CacheRunGrows(start, r', ForgetCreated(n), s');
      r' := CacheOpensGates(start, r');
    } else if n :| n in s.deleting {
      var t, s', upto := ForgetOneDeleted(s, n);
      r' := CacheRunGrows(start, r, Observe(n, upto), t);
      r' := CacheRunGrows(start, r', ForgetDeleted(n), s');
      r' := CacheOpensGates(start, r');
    } else {
      r' := r;
    }
  }

  ghost predicate CanOpen(s: System) {
    exists r :: IsCacheRun(s, r)
      && r.states[|r.events|].ctl.Idle? && r.states[|r.events|].creating == {} && r.states[|r.events|].deleting == {}
  }

  lemma OrphanKeepsShut(s: System, r: Run, name: string)
    requires IsCacheRun(s, r) && s.ctl.Idle? && Orphaned(s, name)
    ensures name in r.states[|r.events|].creating
  {
    OrphanBlocksForever(s, r, name, |r.events|);
  }

  /** In every reachable state between two passes, the cache alone can open both
      gates exactly when no server expected to appear has been orphaned. */
  lemma GatesOpenExactly(r: Run, i: nat)
    requires IsRunFrom(EMPTY, r) && i <= |r.events| && r.states[i].ctl.Idle?
    ensures CanOpen(r.states[i]) <==> forall n :: n in r.states[i].creating ==> !Orphaned(r.states[i], n)
  {
    var s := r.states[i];
    StoreOkAlong(EMPTY, r, i);
    ExpectAlong(EMPTY, r, i);
    if NoOrphan(s) {
      var none := Run([s], []);
      assert IsCacheRun(s, none);
      var open := CacheOpensGates(s, none);
    }
    if CanOpen(s) {
      var open :| IsCacheRun(s, open) && open.states[|open.events|].ctl.Idle?
        && open.states[|open.events|].creating == {} && open.states[|open.events|].deleting == {};
      forall n | n in s.creating
        ensures !Orphaned(s, n)
      {
        if Orphaned(s, n) {
          OrphanKeepsShut(s, open, n);
        }
      }
    }
  }
}
