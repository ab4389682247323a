/** From every calm state a whole pass and a quiet state after it can be reached,
    so that the convergence of CalmPasses is about runs that exist. */
module CalmProgress {
  import opened Options
  import opened GameServers
  import opened ApiStore
  import opened ReconcilePlan
  import opened ClusterRuns
  import opened ClusterInvariant
  import opened ExpectationGates
  import opened PassTranscripts
  import opened Convergence
  import opened CalmPasses

  // A pass can begin

  lemma {:induction false} ListNames(s: Store, names: set<string>) returns (items: seq<GameServer>)
    requires StoreOk(s) && names <= CachedNames(s)
    ensures DistinctNames(items) && NamesOf(items) == names
    ensures forall g :: g in items ==> Cached(s, g.name) == Some(g)
  {
    if names == {} {
      items := [];
    } else {
      var n :| n in names;
      var rest := ListNames(s, names - {n});
      CachedInHistory(s, n);
      var g := Cached(s, n).value;
      items := rest + [g];
      assert NamesOf(items) == NamesOf(rest) + {n};
      forall i, j | 0 <= i < j < |items| ensures items[i].name != items[j].name {
        assert items[i] in rest && items[i].name in NamesOf(rest);
      }
    }
  }

  /** Between two passes nothing but the gates keeps the next one from beginning. */
  lemma PassCanBegin(s: System, spec: BuildSpec) returns (e: Event, s': System)
    requires StoreOk(s.store) && s.ctl.Idle? && s.creating == {} && s.deleting == {}
    ensures e.Begin? && e.spec == spec && Step(s, e, s')
  {
    var items := ListNames(s.store, CachedNames(s.store));
    var sorted := Arrangement(items);
    e := Begin(items, sorted, spec);
    s' := s.(ctl := Running(MakePlan(items, sorted, spec), 0, 0, 0, false));
  }

  // It can make all its calls

  // A calm pass that has begun but not ended.
  ghost predicate IsCalmStart(s: System, spec: BuildSpec, r: Run) {
    && IsRunFrom(s, r) && 1 <= |r.events|
    && r.events[0].Begin? && r.events[0].spec == spec
    && (forall i :: 0 < i < |r.events| ==> r.events[i].Call? && Served(r.states[i].store, r.events[i].call))
  }

  lemma CalmStartGrows(s: System, spec: BuildSpec, r: Run, call: ApiCall, t: System) returns (r': Run)
    requires IsCalmStart(s, spec, r) && Served(r.states[|r.events|].store, call)
    requires Step(r.states[|r.events|], Call(call), t)
    ensures IsCalmStart(s, spec, r') && r'.states[|r'.events|] == t
  {
    hide Step, Served;
    r' := Run(r.states + [t], r.events + [Call(call)]);
  }

  // What is left of the pass.
  function Left(c: Ctl): int
    requires c.Running?
  {
    |c.plan.doomed| - c.swept + |c.plan.targets| - c.trimmed + c.plan.want - c.grown
  }

  lemma SweepSteps(t: System) returns (call: ApiCall, t': System)
    requires t.ctl.Running? && t.ctl.swept < |t.ctl.plan.doomed|
    requires Live(t.store, t.ctl.plan.doomed[t.ctl.swept].name).Some?
    ensures call.Remove? && Step(t, Call(call), t') && Served(t.store, call)
    ensures t'.ctl.Running? && Left(t'.ctl) < Left(t.ctl)
  {
    var name := t.ctl.plan.doomed[t.ctl.swept].name;
    call := Remove(name, true);
    t' := t.(ctl := After(t.ctl, call), store := Deleted(t.store, name), deleting := t.deleting + {name});
    hide Deleted;
  }

  lemma SweepCanGo(s: Store, spec: BuildSpec, t: System) returns (call: ApiCall, t': System)
    requires PassSoFar(s, spec, t) && t.ctl.swept < |t.ctl.plan.doomed|
    ensures Step(t, Call(call), t') && Served(t.store, call) && t'.ctl.Running? && Left(t'.ctl) < Left(t.ctl)
    ensures PassSoFar(s, spec, t')
  {
    hide Step, Served, CalmPlan, Effect, AnyDoomed, Left;
    StillThere(s, spec, t);
    call, t' := SweepSteps(t);
    SweepCalmly(s, spec, t, call, t');
  }

  // The answer the API server gives to a scale-down delete.
  function Answer(s: Store, g: GameServer): ApiCall {
    RemoveIf(g, if Live(s, g.name).None? then Failed
                else if Live(s, g.name).value.version == g.version then Outcome.Ok else Conflict)
  }

  lemma TrimSteps(t: System) returns (call: ApiCall, t': System)
    requires t.ctl.Running? && t.ctl.swept == |t.ctl.plan.doomed| && t.ctl.trimmed < |t.ctl.plan.targets|
    ensures call.RemoveIf? && Step(t, Call(call), t') && Served(t.store, call)
    ensures t'.ctl.Running? && Left(t'.ctl) < Left(t.ctl)
  {
    var g := t.ctl.plan.targets[t.ctl.trimmed];
    call := Answer(t.store, g);
    t' := t.(ctl := After(t.ctl, call));
    if call.outcome == Outcome.Ok {
      t' := t'.(store := Deleted(t.store, g.name), deleting := t.deleting + {g.name});
    }
  }

  lemma TrimCanGo(s: Store, spec: BuildSpec, t: System) returns (call: ApiCall, t': System)
    requires PassSoFar(s, spec, t) && t.ctl.swept == |t.ctl.plan.doomed| && t.ctl.trimmed < |t.ctl.plan.targets|
    ensures Step(t, Call(call), t') && Served(t.store, call) && t'.ctl.Running? && Left(t'.ctl) < Left(t.ctl)
    ensures PassSoFar(s, spec, t')
  {
    hide Step, Served, CalmPlan, Effect, AnyDoomed, Left;
    call, t' := TrimSteps(t);
    TrimCalmly(s, spec, t, call, t');
  }

  // Longer than every name in use.
  lemma {:induction false} LongerThan(names: set<string>) returns (k: nat)
    ensures forall n :: n in names ==> |n| < k
  {
    if names == {} {
      k := 0;
    } else {
      var n :| n in names;
      k := LongerThan(names - {n});
      k := if |n| < k then k else |n| + 1;
    }
  }

  lemma FreshName(names: set<string>) returns (n: string)
    ensures n !in names
  {
    var k := LongerThan(names);
    n := seq(k, _ => 'a');
  }

  lemma WantIsSound(s: Store, spec: BuildSpec, t: System)
    requires PassSoFar(s, spec, t) && 0 < t.ctl.plan.want
    ensures !t.ctl.failed
  {
    hide Effect;
    assert t.ctl.plan.targets == [];
  }

  lemma GrowSteps(t: System) returns (call: ApiCall, t': System)
    requires t.ctl.Running? && t.ctl.swept == |t.ctl.plan.doomed| && t.ctl.trimmed == |t.ctl.plan.targets|
    requires t.ctl.grown < t.ctl.plan.want && !t.ctl.failed
    ensures call.Add? && call.ok && Step(t, Call(call), t') && Served(t.store, call)
    ensures t'.ctl.Running? && Left(t'.ctl) < Left(t.ctl)
  {
    var name := FreshName(t.store.records.Keys);
    call := Add(name, true);
    t' := t.(ctl := After(t.ctl, call), store := Created(t.store, name), creating := t.creating + {name},
             skipped := UnmatchedNames(t.ctl.plan.items));
    hide Created, UnmatchedNames;
  }

  lemma GrowCanGo(s: Store, spec: BuildSpec, t: System) returns (call: ApiCall, t': System)
    requires PassSoFar(s, spec, t) && t.ctl.swept == |t.ctl.plan.doomed| && t.ctl.trimmed == |t.ctl.plan.targets|
    requires t.ctl.grown < t.ctl.plan.want
    ensures Step(t, Call(call), t') && Served(t.store, call) && t'.ctl.Running? && Left(t'.ctl) < Left(t.ctl)
    ensures PassSoFar(s, spec, t')
  {
    hide Step, Served, CalmPlan, Effect, AnyDoomed, Left;
    WantIsSound(s, spec, t);
    call, t' := GrowSteps(t);
    GrowCalmly(s, spec, t, call, t');
  }

  lemma NextCall(s: Store, spec: BuildSpec, t: System) returns (call: ApiCall, t': System)
    requires PassSoFar(s, spec, t) && !AllCallsMade(t.ctl)
    ensures Step(t, Call(call), t') && Served(t.store, call) && PassSoFar(s, spec, t')
    ensures t.ctl.Running? && t'.ctl.Running? && Left(t'.ctl) < Left(t.ctl)
  {
    hide Step, Served, CalmPlan, Effect;
    if t.ctl.swept < |t.ctl.plan.doomed| {
      call, t' := SweepCanGo(s, spec, t);
    } else if t.ctl.trimmed < |t.ctl.plan.targets| {
      call, t' := TrimCanGo(s, spec, t);
    } else {
      call, t' := GrowCanGo(s, spec, t);
    }
  }

  lemma ProgressIsBounded(s: Store, spec: BuildSpec, t: System)
    requires PassSoFar(s, spec, t)
    ensures t.ctl.Running? && 0 <= Left(t.ctl)
  {
  }

  lemma {:induction false} CallsCanGo(s: System, spec: BuildSpec, r: Run, left: nat) returns (r': Run)
    requires IsCalmStart(s, spec, r) && PassSoFar(s.store, spec, r.states[|r.events|])
    requires r.states[|r.events|].ctl.Running? && Left(r.states[|r.events|].ctl) <= left
    ensures IsCalmStart(s, spec, r')
    ensures PassSoFar(s.store, spec, r'.states[|r'.events|]) && AllCallsMade(r'.states[|r'.events|].ctl)
    decreases left
  {
    hide Step, Served, PassSoFar, AllCallsMade, Left;
    var t := r.states[|r.events|];
    if AllCallsMade(t.ctl) {
      r' := r;
    } else {
      var call, t' := NextCall(s.store, spec, t);
      r' := CalmStartGrows(s, spec, r, call, t');
      ProgressIsBounded(s.store, spec, t');
      r' := CallsCanGo(s, spec, r', left - 1);
    }
  }

  // It ends

  lemma StartOf(s: System, spec: BuildSpec, e: Event, begun: System) returns (r: Run)
    requires Step(s, e, begun) && e.Begin? && e.spec == spec
    ensures IsCalmStart(s, spec, r) && r.states[|r.events|] == begun
  {
    hide Step;
    r := Run([s, begun], [e]);
  }

  lemma PassStarts(s: System, spec: BuildSpec) returns (r: Run)
    requires Calm(s)
    ensures IsCalmStart(s, spec, r) && PassSoFar(s.store, spec, r.states[|r.events|])
  {
    assert StoreOk(s.store) && s.ctl.Idle? && s.creating == {} && s.deleting == {};
    hide Step, Calm, PassSoFar, StoreOk, IsCalmStart;
    var e, begun := PassCanBegin(s, spec);
    BeginCalmly(s, e, begun);
    r := StartOf(s, spec, e, begun);
  }

  lemma CanEnd(t: System) returns (e: Event, f: System)
    requires t.ctl.Running? && AllCallsMade(t.ctl)
    ensures Step(t, e, f) && (e.Finish? || e.GiveUp?)
  {
    if t.ctl.failed {
      e, f := GiveUp, t.(ctl := Idle);
    } else {
      e := Finish;
      f := t.(ctl := Idle, recorded := t.recorded + t.ctl.plan.counts.crashes,
              counted := t.counted + CrashNames(t.ctl.plan.items));
    }
  }

  lemma PassOf(s: System, spec: BuildSpec, r: Run, e: Event, f: System) returns (r': Run)
    requires IsCalmStart(s, spec, r) && Step(r.states[|r.events|], e, f) && (e.Finish? || e.GiveUp?)
    ensures IsCalmPass(s, spec, r') && r'.states[|r'.events|] == f
  {
    hide Step, Served;
    r' := Run(r.states + [f], r.events + [e]);
  }

  /** From every calm state there is a whole undisturbed pass. */
  lemma CalmPassExists(s: System, spec: BuildSpec) returns (r: Run)
    requires Calm(s)
    ensures IsCalmPass(s, spec, r)
  {
    hide Calm, PassSoFar, Served, IsCalmPass, Step, AllCallsMade, Left;
    r := PassStarts(s, spec);
    ProgressIsBounded(s.store, spec, r.states[|r.events|]);
    r := CallsCanGo(s, spec, r, Left(r.states[|r.events|].ctl));
    ProgressIsBounded(s.store, spec, r.states[|r.events|]);
    var e, f := CanEnd(r.states[|r.events|]);
    r := PassOf(s, spec, r, e, f);
  }

  // How the cache finds the end of a pass: no orphan, all counted.
  ghost predicate CalmEnd(f: System) {
    Openable(f) && AllCounted(f.store)
  }

  lemma CalmExpects(s: System, r: Run)
    requires Calm(s) && IsRunFrom(s, r)
    ensures StoreOk(r.states[|r.events|].store) && ExpectOk(r.states[|r.events|])
  {
    StoreOkAlong(s, r, |r.events|);
    ExpectAlong(s, r, |r.events|);
  }

  /** Every such pass ends with all servers counted and no server orphaned. */
  lemma PassEndsCalmly(s: System, spec: BuildSpec, r: Run)
    requires Calm(s) && IsCalmPass(s, spec, r)
    ensures CalmEnd(r.states[|r.events|])
  {
    CalmPassResult(s, spec, r);
    CalmExpects(s, r);
    var f := r.states[|r.events|];
    forall n | n in f.creating
      ensures !Orphaned(f, n)
    {
      assert n in LiveNames(f.store);
    }
    hide Calm, IsCalmPass, StoreOk, ExpectOk, AllCounted, Orphaned;
  }

  // The cache catches up

  lemma CacheStepShowsOnly(s: System, e: Event, s': System, n: string)
    requires IsCacheStep(e) && Step(s, e, s')
    ensures Live(s'.store, n) == Live(s.store, n)
  {
  }

  lemma {:induction false} CacheRunShowsOnly(start: System, r: Run, i: nat, n: string)
    requires IsCacheRun(start, r) && i <= |r.events|
    ensures Live(r.states[i].store, n) == Live(start.store, n)
  {
    hide Step, Live;
    if i > 0 {
      CacheRunShowsOnly(start, r, i - 1, n);
      CacheStepShowsOnly(r.states[i - 1], r.events[i - 1], r.states[i], n);
    }
  }

  lemma SameLive(s: Store, t: Store)
    requires forall n :: Live(s, n) == Live(t, n)
    ensures LiveNames(s) == LiveNames(t) && ActiveNames(s) == ActiveNames(t)
  {
    assert forall n :: Live(s, n).Some? ==> n in s.records;
    assert forall n :: Live(t, n).Some? ==> n in t.records;
  }

  function Behind(s: Store): set<string> {
    set n | n in s.records && s.records[n].seen != s.records[n].Length()
  }

  // Nothing is expected, and only the cache may be behind.
  ghost predicate AtEase(s: System) {
    StoreOk(s.store) && s.ctl.Idle? && s.creating == {} && s.deleting == {}
  }

  lemma SyncOne(s: System, n: string) returns (e: Event, s': System)
    requires AtEase(s) && n in Behind(s.store)
    ensures IsCacheStep(e) && Step(s, e, s') && AtEase(s') && Behind(s'.store) == Behind(s.store) - {n}
  {
    assert RecordOk(n, s.store.records[n], s.store.clock);
    var upto := s.store.records[n].Length();
    e := Observe(n, upto);
    s' := s.(store := Observed(s.store, n, upto));
    ObservedOk(s.store, n, upto);
  }

  lemma {:induction false} SyncAll(start: System, r: Run) returns (r': Run)
    requires IsCacheRun(start, r) && AtEase(r.states[|r.events|])
    ensures IsCacheRun(start, r') && AtEase(r'.states[|r'.events|]) && Behind(r'.states[|r'.events|].store) == {}
    decreases Behind(r.states[|r.events|].store)
  {
    var s := r.states[|r.events|];
    hide Step, IsRunFrom, AtEase, Behind;
    if n :| n in Behind(s.store) {
      var e, s' := SyncOne(s, n);
      r' := CacheRunGrows(start, r, e, s');
      r' := SyncAll(start, r');
    } else {
      r' := r;
    }
  }

  lemma NothingBehind(s: System)
    requires AtEase(s) && Behind(s.store) == {} && AllCounted(s.store)
    ensures Quiet(s)
  {
    forall n | n in s.store.records
      ensures s.store.records[n].seen == s.store.records[n].Length()
    {
      assert n !in Behind(s.store);
    }
  }

  lemma StaysCounted(s: Store, t: Store)
    requires AllCounted(s) && forall n :: Live(s, n) == Live(t, n)
    ensures AllCounted(t)
  {
    assert forall n :: Live(s, n).Some? ==> n in s.records;
  }

  /** The cache and the gates alone take the end of a pass to a quiet state with
      the same servers. */
  lemma QuietAgain(f: System) returns (r: Run)
    requires CalmEnd(f)
    ensures IsCacheRun(f, r) && Quiet(r.states[|r.events|]) && CaughtUp(f, r.states[|r.events|])
  {
    r := Run([f], []);
    assert IsCacheRun(f, r);
    r := CacheOpensGates(f, r);
    r := SyncAll(f, r);
    var s' := r.states[|r.events|];
    forall n ensures Live(s'.store, n) == Live(f.store, n) {
      CacheRunShowsOnly(f, r, |r.events|, n);
    }
    hide AtEase, Behind, Openable, IsCacheRun, AllCounted, Quiet;
    SameLive(s'.store, f.store);
    StaysCounted(f.store, s'.store);
    NothingBehind(s');
  }

  /** From every calm state a cycle leads to a quiet one. */
  lemma CalmCycleExists(s: System, spec: BuildSpec) returns (s': System)
    requires Calm(s)
    ensures Quiet(s') && CalmCycle(s, spec, s')
  {
    var r := CalmPassExists(s, spec);
    PassEndsCalmly(s, spec, r);
    var q := QuietAgain(r.states[|r.events|]);
    s' := q.states[|q.events|];
    hide Calm, Quiet, CaughtUp, IsCacheRun, IsCalmPass;
  }

  lemma OneMoreCycle(states: seq<System>, spec: BuildSpec, s: System)
    requires AreCycles(states, spec) && Quiet(s) && CalmCycle(states[|states| - 1], spec, s)
    ensures AreCycles(states + [s], spec)
  {
    hide Calm, Quiet, CalmCycle;
  }

  lemma {:induction false} CyclesExist(s: System, spec: BuildSpec, k: nat) returns (states: seq<System>)
    requires Calm(s)
    ensures AreCycles(states, spec) && |states| == k + 1 && states[0] == s
  {
    hide Calm, Quiet, CalmCycle;
    if k == 0 {
      states := [s];
    } else {
      var before := CyclesExist(s, spec, k - 1);
      var last := before[k - 1];
      QuietIsCalm(last);
      assert Calm(last);
      var next := CalmCycleExists(last, spec);
      OneMoreCycle(before, spec, next);
      states := before + [next];
    }
  }

  /** The target is reached: from every calm state, by cycles of an undisturbed
      pass and a cache that catches up. */
  lemma TargetIsReached(s: System, spec: BuildSpec) returns (states: seq<System>)
    requires Calm(s) && Sensible(spec)
    ensures AreCycles(states, spec) && states[0] == s
    ensures var f := states[|states| - 1].store;
            ActiveNames(f) == ActiveNames(s.store) && |NonActiveNames(f)| == Target(|ActiveNames(f)|, spec)
  {
    hide Calm, Quiet, CalmCycle, NonActiveNames, ActiveNames;
    var k := |NonActiveNames(s.store)| + Target(|ActiveNames(s.store)|, spec) + 1;
    states := CyclesExist(s, spec, k);
    Stabilises(states, spec, k);
  }
}
