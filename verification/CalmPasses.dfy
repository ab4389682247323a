/** A whole pass of the build controller over a calm cluster, whatever servers
    it finds finished, crashed or unhealthy, and what repeated passes lead to. */
module CalmPasses {
  import opened Options
  import opened GameServers
  import opened ApiStore
  import opened ReconcilePlan
  import opened ClusterRuns
  import opened Convergence

  // The cache is up to date, nothing is expected, and every server matches a
  // branch.
  ghost predicate Calm(s: System) {
    && StoreOk(s.store)
    && s.ctl.Idle? && s.creating == {} && s.deleting == {}
    && (forall n :: n in s.store.records ==> s.store.records[n].seen == s.store.records[n].Length())
    && (forall n :: n in LiveNames(s.store) ==> !IsUnmatched(Live(s.store, n).value))
  }

  ghost predicate AllCounted(s: Store) {
    forall n :: n in LiveNames(s) ==> IsCounted(Live(s, n).value)
  }

  // Calm, and no server is finished, crashed or unhealthy.
  ghost predicate Quiet(s: System) {
    Calm(s) && AllCounted(s.store)
  }

  ghost function NamesThat(s: Store, p: GameServer -> bool): set<string> {
    set n | n in s.records && Live(s, n).Some? && p(Live(s, n).value)
  }

  ghost function NonActiveNames(s: Store): set<string> {
    NamesThat(s, IsNonActive)
  }

  ghost function ActiveNames(s: Store): set<string> {
    NamesThat(s, IsActive)
  }

  // The API server fails no call that it can carry out. A delete of a server
  // that is gone is an error other than a conflict.
  ghost predicate Served(s: Store, call: ApiCall) {
    match call
    case Remove(name, ok) => ok == Live(s, name).Some?
    case RemoveIf(g, outcome) =>
      outcome == if Live(s, g.name).None? then Failed
                 else if Live(s, g.name).value.version == g.version then Ok
                 else Conflict
    case Add(_, ok) => ok
  }

  // A pass nobody disturbs, from its beginning to its end, good or bad.
  ghost predicate IsCalmPass(s: System, spec: BuildSpec, r: Run) {
    && IsRunFrom(s, r)
    && 2 <= |r.events|
    && r.events[0].Begin? && r.events[0].spec == spec
    && (r.events[|r.events| - 1].Finish? || r.events[|r.events| - 1].GiveUp?)
    && (forall i :: 0 < i < |r.events| - 1 ==> r.events[i].Call? && Served(r.states[i].store, r.events[i].call))
  }

  // What the pass reads

  lemma ListingIsLive(s: System, items: seq<GameServer>)
    requires Calm(s) && IsCacheListing(s.store, items)
    ensures NamesOf(items) == LiveNames(s.store)
    ensures forall g :: g in items ==> Live(s.store, g.name) == Some(g) && !IsUnmatched(g)
  {
    forall n | n in s.store.records
      ensures Cached(s.store, n) == Live(s.store, n)
    {
      SyncedCache(s.store, n);
    }
  }

  lemma ListedThat(s: System, items: seq<GameServer>, p: GameServer -> bool)
    requires Calm(s) && IsCacheListing(s.store, items)
    ensures NamesOf(Filter(items, p)) == NamesThat(s.store, p)
    ensures |Filter(items, p)| == |NamesThat(s.store, p)|
  {
    ListingIsLive(s, items);
    forall n | n in NamesThat(s.store, p)
      ensures n in NamesOf(Filter(items, p))
    {
      assert n in NamesOf(items);
      var g :| g in items && g.name == n;
      assert g in Filter(items, p);
    }
    forall n | n in NamesOf(Filter(items, p))
      ensures n in NamesThat(s.store, p)
    {
      var g :| g in Filter(items, p) && g.name == n;
      assert g in items && n in NamesOf(items);
    }
    FilterDistinct(items, p);
    NamesSize(Filter(items, p));
  }

  lemma ListingCounts(s: System, items: seq<GameServer>)
    requires Calm(s) && IsCacheListing(s.store, items)
    ensures CountsOf(items).NonActive() == |NonActiveNames(s.store)|
    ensures CountsOf(items).active == |ActiveNames(s.store)|
  {
    NonActiveCount(items);
    ActiveCount(items);
    ListedThat(s, items, IsNonActive);
    ListedThat(s, items, IsActive);
    hide Calm, IsCacheListing, NamesThat, CountsOf, Filter;
  }

  // What the pass decides

  function TargetCount(budget: int, candidates: nat): nat {
    if budget <= 0 then 0 else Min(budget, candidates)
  }

  /** The plan of a pass over the servers of s. */
  ghost predicate CalmPlan(s: Store, spec: BuildSpec, p: Plan) {
    && DistinctNames(p.doomed) && DistinctNames(p.targets)
    && (forall g :: g in p.doomed ==> Live(s, g.name) == Some(g) && IsDoomed(g))
    && (forall g :: g in p.targets ==> Live(s, g.name) == Some(g) && IsTrimmable(g) && !IsUnmatched(g))
    && NamesOf(p.doomed) == NamesThat(s, IsDoomed)
    && |p.targets| == TargetCount(DeleteBudget(|NonActiveNames(s)|, |ActiveNames(s)|, spec), |NamesThat(s, IsTrimmable)|)
    && p.want == CreateBudget(|NonActiveNames(s)|, |ActiveNames(s)|, spec)
    && (p.targets != [] ==> p.want == 0)
  }

  lemma DistinctPermuted(a: seq<GameServer>, b: seq<GameServer>)
    requires multiset(a) == multiset(b) && DistinctNames(a)
    ensures DistinctNames(b)
  {
    NamesSize(a);
    assert forall g :: g in a <==> g in multiset(a);
    assert forall g :: g in b <==> g in multiset(b);
    assert NamesOf(a) == NamesOf(b);
    assert |multiset(a)| == |a| && |multiset(b)| == |b|;
    DistinctBySize(b);
  }

  lemma NewNameLast(init: seq<GameServer>, last: GameServer)
    requires |NamesOf(init + [last])| == |init| + 1
    ensures |NamesOf(init)| == |init| && last.name !in NamesOf(init)
  {
    NamesSize(init);
    assert NamesOf(init + [last]) == NamesOf(init) + {last.name};
    assert last.name in NamesOf(init) ==> NamesOf(init + [last]) == NamesOf(init);
  }

  lemma {:induction false} DistinctBySize(a: seq<GameServer>)
    requires |NamesOf(a)| == |a|
    ensures DistinctNames(a)
  {
    if a != [] {
      var init, last := a[..|a| - 1], a[|a| - 1];
      assert a == init + [last];
      NewNameLast(init, last);
      DistinctBySize(init);
      assert forall i :: 0 <= i < |init| ==> init[i].name in NamesOf(init);
    }
  }

  lemma TrimmableIsNonActive(g: GameServer)
    requires IsCounted(g)
    ensures IsTrimmable(g) == IsNonActive(g)
  {
  }

  lemma ChosenShape(sorted: seq<GameServer>, budget: int)
    ensures |Chosen(sorted, budget)| == if budget <= 0 then 0 else Min(budget, |Filter(sorted, IsTrimmable)|)
    ensures DistinctNames(Filter(sorted, IsTrimmable)) ==> DistinctNames(Chosen(sorted, budget))
  {
  }

  lemma {:induction false} FilterSame(items: seq<GameServer>, p: GameServer -> bool, q: GameServer -> bool)
    requires forall g :: g in items ==> p(g) == q(g)
    ensures Filter(items, p) == Filter(items, q)
  {
    if items != [] {
      FilterSame(items[..|items| - 1], p, q);
    }
  }

  lemma ListedTargets(s: System, items: seq<GameServer>, sorted: seq<GameServer>)
    requires Calm(s) && IsCacheListing(s.store, items) && SortedByState(sorted, items)
    ensures |Filter(sorted, IsTrimmable)| == |NamesThat(s.store, IsTrimmable)|
    ensures DistinctNames(Filter(sorted, IsTrimmable))
    ensures forall g :: g in sorted ==> Live(s.store, g.name) == Some(g) && !IsUnmatched(g)
  {
    ListedThat(s, items, IsTrimmable);
    FilterPermuted(sorted, items, IsTrimmable);
    DistinctPermuted(items, sorted);
    FilterDistinct(sorted, IsTrimmable);
    ListingIsLive(s, items);
    forall g | g in sorted
      ensures g in items
    {
      assert g in multiset(sorted);
    }
    hide Calm, Filter, DistinctNames, IsTrimmable, NamesThat;
  }

  lemma ListedDoomed(s: System, items: seq<GameServer>)
    requires Calm(s) && IsCacheListing(s.store, items)
    ensures DistinctNames(Filter(items, IsDoomed)) && NamesOf(Filter(items, IsDoomed)) == NamesThat(s.store, IsDoomed)
    ensures forall g :: g in Filter(items, IsDoomed) ==> Live(s.store, g.name) == Some(g) && IsDoomed(g)
  {
    ListedThat(s, items, IsDoomed);
    FilterDistinct(items, IsDoomed);
    ListingIsLive(s, items);
    hide Calm, DistinctNames, IsDoomed, NamesThat;
  }

  lemma PlanFields(items: seq<GameServer>, sorted: seq<GameServer>, spec: BuildSpec, n: nat, active: nat)
    requires CountsOf(items).NonActive() == n && CountsOf(items).active == active
    ensures var p := MakePlan(items, sorted, spec);
            && p.doomed == Filter(items, IsDoomed)
            && p.targets == Chosen(sorted, DeleteBudget(n, active, spec))
            && p.want == CreateBudget(n, active, spec)
  {
    hide CountsOf, Filter, Chosen, DeleteBudget, CreateBudget;
  }

  lemma TargetsOfCalm(s: System, items: seq<GameServer>, sorted: seq<GameServer>, budget: int)
    requires Calm(s) && IsCacheListing(s.store, items) && SortedByState(sorted, items)
    ensures var targets := Chosen(sorted, budget);
            && DistinctNames(targets)
            && |targets| == TargetCount(budget, |NamesThat(s.store, IsTrimmable)|)
            && forall g :: g in targets ==> Live(s.store, g.name) == Some(g) && IsTrimmable(g) && !IsUnmatched(g)
  {
    ListedTargets(s, items, sorted);
    ChosenShape(sorted, budget);
    hide Calm, IsCacheListing, SortedByState, NamesThat, Filter, Chosen, DistinctNames, IsTrimmable, IsUnmatched, Live;
  }

  lemma PlanOfCalm(s: System, items: seq<GameServer>, sorted: seq<GameServer>, spec: BuildSpec)
    requires Calm(s) && IsCacheListing(s.store, items) && SortedByState(sorted, items)
    ensures CalmPlan(s.store, spec, MakePlan(items, sorted, spec))
  {
    hide Calm, IsCacheListing, SortedByState, CountsOf, Filter, Chosen, NamesThat, NonActiveNames, ActiveNames;
    hide IsTrimmable, IsDoomed, IsUnmatched, DistinctNames, DeleteBudget, CreateBudget, Live, MakePlan, TargetCount;
    ListingCounts(s, items);
    ListedDoomed(s, items);
    PlanFields(items, sorted, spec, |NonActiveNames(s.store)|, |ActiveNames(s.store)|);
    TargetsOfCalm(s, items, sorted, DeleteBudget(|NonActiveNames(s.store)|, |ActiveNames(s.store)|, spec));
    TrimOrGrow(items, sorted, spec);
  }

  // What the pass does

  // From s to t some servers were removed and some pending ones created.
  ghost predicate Effect(s: Store, gone: set<string>, born: set<string>, t: Store) {
    && born !! s.records.Keys
    && t.records.Keys == s.records.Keys + born
    && (forall n :: n in s.records ==> Live(t, n) == if n in gone then None else Live(s, n))
    && (forall n :: n in born ==> Live(t, n).Some? && IsNonActive(Live(t, n).value))
  }

  lemma EffectOfDelete(s: Store, gone: set<string>, born: set<string>, t: Store, name: string)
    requires Effect(s, gone, born, t) && name in s.records
    ensures Effect(s, gone + {name}, born, Deleted(t, name))
  {
    forall n | n in t.records
      ensures Live(Deleted(t, name), n) == if n == name then None else Live(t, n)
    {
      LiveAfterDeleted(t, name, n);
    }
  }

  lemma EffectOfCreate(s: Store, gone: set<string>, born: set<string>, t: Store, name: string)
    requires Effect(s, gone, born, t) && name !in t.records
    ensures Effect(s, gone, born + {name}, Created(t, name))
  {
    var t' := Created(t, name);
    forall n | n in t'.records
      ensures Live(t', n) == if n == name then Some(GameServer(n, Unset, Unknown, t.clock)) else Live(t, n)
    {
      LiveAfterCreated(t, name, n);
    }
    assert t'.records.Keys == t.records.Keys + {name};
  }

  lemma EffectOnName(s: Store, gone: set<string>, born: set<string>, t: Store, n: string)
    requires Effect(s, gone, born, t)
    ensures n in ActiveNames(t) <==> n in ActiveNames(s) && n !in gone
    ensures n in NonActiveNames(t) <==> (n in NonActiveNames(s) && n !in gone) || n in born
    ensures n in born ==> n !in NonActiveNames(s)
  {
  }

  lemma EffectOnSets(s: Store, gone: set<string>, born: set<string>, t: Store)
    requires Effect(s, gone, born, t)
    ensures ActiveNames(t) == ActiveNames(s) - gone
    ensures NonActiveNames(t) == (NonActiveNames(s) - gone) + born
    ensures born !! NonActiveNames(s)
  {
    forall n: string
      ensures n in ActiveNames(t) <==> n in ActiveNames(s) - gone
      ensures n in NonActiveNames(t) <==> n in (NonActiveNames(s) - gone) + born
      ensures n in born ==> n !in NonActiveNames(s)
    {
      EffectOnName(s, gone, born, t, n);
    }
  }

  lemma EffectOnNames(s: Store, gone: set<string>, born: set<string>, t: Store)
    requires Effect(s, gone, born, t) && gone !! ActiveNames(s)
    ensures ActiveNames(t) == ActiveNames(s)
    ensures |NonActiveNames(t)| == |NonActiveNames(s)| - |NonActiveNames(s) * gone| + |born|
  {
    EffectOnSets(s, gone, born, t);
    assert NonActiveNames(s) - gone == NonActiveNames(s) - NonActiveNames(s) * gone;
    CardinalityOfDifference(NonActiveNames(s), NonActiveNames(s) * gone);
  }

  lemma CardinalityOfDifference(a: set<string>, b: set<string>)
    requires b <= a
    ensures |a - b| == |a| - |b|
  {
    assert a == b + (a - b);
  }

  // If all that is gone covers the doomed servers, the others are counted.
  lemma EffectIsCounted(s: Store, gone: set<string>, born: set<string>, t: Store)
    requires Effect(s, gone, born, t) && NamesThat(s, IsDoomed) <= gone
    requires forall n :: n in LiveNames(s) ==> !IsUnmatched(Live(s, n).value)
    ensures AllCounted(t) && LiveNames(t) == NonActiveNames(t) + ActiveNames(t)
  {
    forall n | n in LiveNames(t)
      ensures IsCounted(Live(t, n).value)
    {
      if n !in born {
        assert n in LiveNames(s) && n !in NamesThat(s, IsDoomed);
      }
    }
  }

  ghost predicate AnyDoomed(targets: seq<GameServer>) {
    exists g :: g in targets && IsDoomed(g)
  }

  lemma AnyDoomedGrows(targets: seq<GameServer>, k: nat)
    requires k < |targets|
    ensures AnyDoomed(targets[..k + 1]) <==> AnyDoomed(targets[..k]) || IsDoomed(targets[k])
  {
    assert targets[..k + 1] == targets[..k] + [targets[k]];
  }

  // The names a pass has tried to delete so far.
  function TriedNames(c: Ctl): set<string>
    requires c.Running? && c.swept <= |c.plan.doomed| && c.trimmed <= |c.plan.targets|
  {
    NamesOf(c.plan.doomed[..c.swept]) + NamesOf(c.plan.targets[..c.trimmed])
  }

  ghost predicate Progress(c: Ctl) {
    && c.Running? && c.swept <= |c.plan.doomed| && c.trimmed <= |c.plan.targets| && c.grown <= c.plan.want
    && (0 < c.trimmed ==> c.swept == |c.plan.doomed|)
    && (0 < c.grown ==> c.swept == |c.plan.doomed| && c.trimmed == |c.plan.targets|)
    && (c.failed <==> AnyDoomed(c.plan.targets[..c.trimmed]))
  }

  ghost predicate PassSoFar(s: Store, spec: BuildSpec, t: System) {
    && Progress(t.ctl) && CalmPlan(s, spec, t.ctl.plan)
    && |t.creating| == t.ctl.grown
    && Effect(s, TriedNames(t.ctl), t.creating, t.store)
  }

  lemma BeginMoves(s: System, e: Event, t: System)
    requires Step(s, e, t) && e.Begin?
    ensures IsCacheListing(s.store, e.items) && SortedByState(e.sorted, e.items)
    ensures t.ctl == Running(MakePlan(e.items, e.sorted, e.spec), 0, 0, 0, false)
    ensures t.store == s.store && t.creating == {}
  {
    hide IsCacheListing, SortedByState, MakePlan;
  }

  lemma NothingDone(s: Store, spec: BuildSpec, t: System)
    requires t.ctl.Running? && t.ctl == Running(t.ctl.plan, 0, 0, 0, false) && CalmPlan(s, spec, t.ctl.plan)
    requires t.store == s && t.creating == {}
    ensures PassSoFar(s, spec, t)
  {
    hide CalmPlan;
    assert t.ctl.plan.targets[..0] == [] && t.ctl.plan.doomed[..0] == [] && NamesOf([]) == {};
  }

  lemma BeginCalmly(s: System, e: Event, t: System)
    requires Calm(s) && e.Begin? && Step(s, e, t)
    ensures PassSoFar(s.store, e.spec, t)
  {
    hide Step, Calm, CalmPlan, MakePlan, IsCacheListing, SortedByState, PassSoFar;
    BeginMoves(s, e, t);
    PlanOfCalm(s, e.items, e.sorted, e.spec);
    NothingDone(s.store, e.spec, t);
  }

  lemma NamesGrow(targets: seq<GameServer>, k: nat)
    requires k < |targets|
    ensures NamesOf(targets[..k + 1]) == NamesOf(targets[..k]) + {targets[k].name}
    ensures DistinctNames(targets) ==> targets[k].name !in NamesOf(targets[..k])
  {
    assert targets[..k + 1] == targets[..k] + [targets[k]];
  }

  // How each kind of call moves the system.

  lemma SweepMoves(t: System, call: ApiCall, t': System)
    requires Step(t, Call(call), t') && call.Remove? && call.ok
    ensures t.ctl.Running? && t.ctl.swept < |t.ctl.plan.doomed| && call.name == t.ctl.plan.doomed[t.ctl.swept].name
    ensures t'.ctl == t.ctl.(swept := t.ctl.swept + 1) && t'.creating == t.creating
    ensures call.name in t.store.records && t'.store == Deleted(t.store, call.name)
  {
  }

  lemma SweepExpects(t: System, call: ApiCall, t': System)
    requires Step(t, Call(call), t') && call.Remove?
    ensures t.ctl.Running? && t.ctl.swept < |t.ctl.plan.doomed| && call.name == t.ctl.plan.doomed[t.ctl.swept].name
  {
  }

  // A doomed server not swept yet is as it was.
  lemma StillThere(s: Store, spec: BuildSpec, t: System)
    requires PassSoFar(s, spec, t) && t.ctl.swept < |t.ctl.plan.doomed|
    ensures var g := t.ctl.plan.doomed[t.ctl.swept]; Live(t.store, g.name) == Some(g)
  {
    var p, k := t.ctl.plan, t.ctl.swept;
    assert p.doomed[k] in p.doomed && p.targets[..0] == [];
    NamesGrow(p.doomed, k);
  }

  lemma SweepCalmly(s: Store, spec: BuildSpec, t: System, call: ApiCall, t': System)
    requires PassSoFar(s, spec, t) && Step(t, Call(call), t') && call.Remove? && Served(t.store, call)
    ensures PassSoFar(s, spec, t') && call.ok
  {
    SweepExpects(t, call, t');
    StillThere(s, spec, t);
    SweepMoves(t, call, t');
    var p, k := t.ctl.plan, t.ctl.swept;
    assert p.doomed[k] in p.doomed && call.name in s.records;
    NamesGrow(p.doomed, k);
    hide Step, CalmPlan, AnyDoomed, Live;
    assert TriedNames(t'.ctl) == TriedNames(t.ctl) + {call.name};
    EffectOfDelete(s, TriedNames(t.ctl), t.creating, t.store, call.name);
    hide Effect;
  }

  lemma TrimMoves(t: System, call: ApiCall, t': System)
    requires Step(t, Call(call), t') && call.RemoveIf?
    ensures t.ctl.Running? && t.ctl.swept == |t.ctl.plan.doomed| && t.ctl.trimmed < |t.ctl.plan.targets|
    ensures call.target == t.ctl.plan.targets[t.ctl.trimmed]
    ensures t'.ctl == t.ctl.(trimmed := t.ctl.trimmed + 1, failed := t.ctl.failed || call.outcome == Failed)
    ensures t'.creating == t.creating
    ensures if call.outcome == Ok
            then call.target.name in t.store.records && t'.store == Deleted(t.store, call.target.name)
            else t'.store == t.store
  {
  }

  // When its turn comes, a target has been deleted exactly if it was doomed.
  lemma TargetTried(s: Store, spec: BuildSpec, p: Plan, k: nat)
    requires CalmPlan(s, spec, p) && k < |p.targets|
    ensures var g := p.targets[k];
            && Live(s, g.name) == Some(g)
            && (IsDoomed(g) <==> g.name in NamesOf(p.doomed) + NamesOf(p.targets[..k]))
  {
    hide Live, LiveNames, IsDoomed, IsTrimmable, IsUnmatched;
    var g := p.targets[k];
    assert g in p.targets;
    DoomedNamed(s, g);
    NamesGrow(p.targets, k);
  }

  lemma DoomedNamed(s: Store, g: GameServer)
    requires Live(s, g.name) == Some(g)
    ensures IsDoomed(g) <==> g.name in NamesThat(s, IsDoomed)
  {
    hide IsDoomed;
  }

  // So its delete fails exactly then.
  lemma TargetServed(s: Store, spec: BuildSpec, t: System, call: ApiCall)
    requires PassSoFar(s, spec, t) && t.ctl.swept == |t.ctl.plan.doomed| && t.ctl.trimmed < |t.ctl.plan.targets|
    requires call.RemoveIf? && call.target == t.ctl.plan.targets[t.ctl.trimmed] && Served(t.store, call)
    ensures call.outcome == if IsDoomed(call.target) then Failed else Ok
    ensures IsDoomed(call.target) ==> call.target.name in TriedNames(t.ctl)
    ensures call.target.name in s.records
  {
    hide CalmPlan, AnyDoomed, IsDoomed, NamesOf;
    var p := t.ctl.plan;
    TargetTried(s, spec, p, t.ctl.trimmed);
    assert p.doomed[..|p.doomed|] == p.doomed;
    assert Live(s, call.target.name).Some? ==> call.target.name in s.records;
  }

  // What a delete of a target adds to the effect.
  lemma TrimEffect(s: Store, gone: set<string>, born: set<string>, t: Store, t': Store, name: string, ok: bool)
    requires Effect(s, gone, born, t) && name in s.records && (!ok ==> name in gone)
    requires ok ==> name in t.records
    requires t' == if ok then Deleted(t, name) else t
    ensures Effect(s, gone + {name}, born, t')
  {
    hide Deleted, Effect;
    if ok {
      EffectOfDelete(s, gone, born, t, name);
    } else {
      assert gone + {name} == gone;
    }
  }

  lemma TrimCalmly(s: Store, spec: BuildSpec, t: System, call: ApiCall, t': System)
    requires PassSoFar(s, spec, t) && Step(t, Call(call), t') && call.RemoveIf? && Served(t.store, call)
    ensures PassSoFar(s, spec, t') && (call.outcome == if IsDoomed(call.target) then Failed else Ok)
  {
    hide Step, CalmPlan, AnyDoomed, IsDoomed, Live, Served, Effect, Deleted;
    TrimMoves(t, call, t');
    TargetServed(s, spec, t, call);
    var p, k, name := t.ctl.plan, t.ctl.trimmed, call.target.name;
    NamesGrow(p.targets, k);
    AnyDoomedGrows(p.targets, k);
    hide NamesOf;
    assert TriedNames(t'.ctl) == TriedNames(t.ctl) + {name};
    TrimEffect(s, TriedNames(t.ctl), t.creating, t.store, t'.store, name, call.outcome == Ok);
  }

  lemma GrowMoves(t: System, call: ApiCall, t': System)
    requires Step(t, Call(call), t') && call.Add? && call.ok
    ensures t.ctl.Running? && t.ctl.swept == |t.ctl.plan.doomed| && t.ctl.trimmed == |t.ctl.plan.targets|
    ensures t.ctl.grown < t.ctl.plan.want && t'.ctl == t.ctl.(grown := t.ctl.grown + 1)
    ensures t'.creating == t.creating + {call.name}
    ensures call.name !in t.store.records && t'.store == Created(t.store, call.name)
  {
  }

  lemma GrowCalmly(s: Store, spec: BuildSpec, t: System, call: ApiCall, t': System)
    requires PassSoFar(s, spec, t) && Step(t, Call(call), t') && call.Add? && call.ok
    ensures PassSoFar(s, spec, t')
  {
    GrowMoves(t, call, t');
    hide Step, CalmPlan, AnyDoomed;
    EffectOfCreate(s, TriedNames(t.ctl), t.creating, t.store, call.name);
    assert call.name !in t.creating;
  }

  lemma PlanStays(t: System, call: ApiCall, t': System)
    requires Step(t, Call(call), t') && t'.ctl.Running?
    ensures t.ctl.Running? && t'.ctl.plan == t.ctl.plan
  {
  }

  lemma CallCalmly(s: Store, spec: BuildSpec, t: System, call: ApiCall, t': System)
    requires PassSoFar(s, spec, t) && Step(t, Call(call), t') && Served(t.store, call)
    ensures PassSoFar(s, spec, t') && t.ctl.Running? && t'.ctl.Running? && t'.ctl.plan == t.ctl.plan
  {
    hide Step, CalmPlan, Effect;
    match call
    case Remove(_, _) =>
      SweepCalmly(s, spec, t, call, t');
      PlanStays(t, call, t');
    case RemoveIf(_, _) =>
      TrimCalmly(s, spec, t, call, t');
      PlanStays(t, call, t');
    case Add(_, _) =>
      GrowCalmly(s, spec, t, call, t');
      PlanStays(t, call, t');
  }

  lemma {:induction false} PassAlong(s: System, spec: BuildSpec, r: Run, i: nat)
    requires Calm(s) && IsCalmPass(s, spec, r) && 0 < i < |r.events|
    ensures PassSoFar(s.store, spec, r.states[i])
    ensures r.states[1].ctl.Running? && r.states[i].ctl.Running? && r.states[i].ctl.plan == r.states[1].ctl.plan
  {
    hide Step, Calm, CalmPlan, Effect, Served;
    if i == 1 {
      BeginCalmly(s, r.events[0], r.states[1]);
    } else {
      PassAlong(s, spec, r, i - 1);
      CallCalmly(s.store, spec, r.states[i - 1], r.events[i - 1].call, r.states[i]);
    }
  }

  // The end of the pass

  // The servers of the plan that scale-down finds still there.
  function Healthy(p: Plan): seq<GameServer> {
    Filter(p.targets, IsNonActive)
  }

  lemma EndMoves(t: System, e: Event, f: System)
    requires Step(t, e, f) && (e.Finish? || e.GiveUp?)
    ensures t.ctl.Running? && t.ctl.swept == |t.ctl.plan.doomed| && t.ctl.trimmed == |t.ctl.plan.targets|
    ensures e.Finish? <==> !t.ctl.failed
    ensures t.ctl.grown == t.ctl.plan.want || (t.ctl.failed && t.ctl.grown == 0)
    ensures f.store == t.store && f.creating == t.creating && f.deleting == t.deleting && f.ctl.Idle?
  {
  }

  lemma GoneIsNotActive(s: Store, spec: BuildSpec, p: Plan)
    requires CalmPlan(s, spec, p)
    ensures NamesOf(p.doomed) + NamesOf(p.targets) !! ActiveNames(s)
    ensures NonActiveNames(s) * (NamesOf(p.doomed) + NamesOf(p.targets)) == NamesOf(Healthy(p))
  {
    forall n | n in NamesOf(p.doomed)
      ensures n !in ActiveNames(s) && n !in NonActiveNames(s)
    {
      var g :| g in p.doomed && g.name == n;
    }
    forall n | n in NamesOf(p.targets)
      ensures n !in ActiveNames(s)
    {
      var g :| g in p.targets && g.name == n;
    }
    HealthyNames(s, spec, p);
  }

  lemma HealthyNames(s: Store, spec: BuildSpec, p: Plan)
    requires CalmPlan(s, spec, p)
    ensures NonActiveNames(s) * NamesOf(p.targets) == NamesOf(Healthy(p))
  {
    forall n | n in NonActiveNames(s) * NamesOf(p.targets)
      ensures n in NamesOf(Healthy(p))
    {
      var g :| g in p.targets && g.name == n;
      assert g in Healthy(p);
    }
    forall n | n in NamesOf(Healthy(p))
      ensures n in NonActiveNames(s) * NamesOf(p.targets)
    {
      var g :| g in Healthy(p) && g.name == n;
    }
  }

  lemma PassTotal(s: System, spec: BuildSpec, t: System, e: Event, f: System)
    requires Calm(s) && PassSoFar(s.store, spec, t) && Step(t, e, f) && (e.Finish? || e.GiveUp?)
    ensures var p := t.ctl.plan;
            && Effect(s.store, NamesOf(p.doomed) + NamesOf(p.targets), f.creating, f.store)
            && |f.creating| == p.want && CalmPlan(s.store, spec, p)
            && (e.Finish? <==> !AnyDoomed(p.targets))
  {
    hide Step, Effect, Calm, CalmPlan, AnyDoomed;
    EndMoves(t, e, f);
    var p := t.ctl.plan;
    assert p.targets[..|p.targets|] == p.targets && p.doomed[..|p.doomed|] == p.doomed;
    if AnyDoomed(p.targets) {
      DoomedWantsNone(s.store, spec, p);
    }
  }

  lemma DoomedWantsNone(s: Store, spec: BuildSpec, p: Plan)
    requires CalmPlan(s, spec, p) && AnyDoomed(p.targets)
    ensures p.want == 0
  {
    hide IsDoomed, DeleteBudget, CreateBudget;
    assert p.targets != [];
  }

  /** An undisturbed pass over a calm cluster leaves the active servers alone and
      only counted ones besides; of the others it removes the doomed ones and its
      targets, and creates as many as it planned. It finishes exactly when it
      chose no target that was doomed already. */
  lemma CalmPassResult(s: System, spec: BuildSpec, r: Run)
    requires Calm(s) && IsCalmPass(s, spec, r)
    ensures r.states[1].ctl.Running?
    ensures var p, f := r.states[1].ctl.plan, r.states[|r.events|];
            && CalmPlan(s.store, spec, p)
            && ActiveNames(f.store) == ActiveNames(s.store) && AllCounted(f.store)
            && LiveNames(f.store) == NonActiveNames(f.store) + ActiveNames(f.store)
            && |NonActiveNames(f.store)| == |NonActiveNames(s.store)| - |Healthy(p)| + p.want
            && (r.events[|r.events| - 1].Finish? <==> !AnyDoomed(p.targets))
            && f.ctl.Idle? && (forall n :: n in f.creating ==> n in LiveNames(f.store))
  {
    var last := |r.events| - 1;
    PassAlong(s, spec, r, last);
    assert Step(r.states[last], r.events[last], r.states[last + 1]);
    PassTotal(s, spec, r.states[last], r.events[last], r.states[last + 1]);
    EndMoves(r.states[last], r.events[last], r.states[last + 1]);
    EffectTotal(s, spec, r.states[1].ctl.plan, r.states[last + 1]);
    hide Step, Calm, CalmPlan, Effect, Served, PassSoFar, IsRunFrom;
  }

  lemma EffectTotal(s: System, spec: BuildSpec, p: Plan, f: System)
    requires Calm(s) && CalmPlan(s.store, spec, p)
    requires Effect(s.store, NamesOf(p.doomed) + NamesOf(p.targets), f.creating, f.store) && |f.creating| == p.want
    ensures ActiveNames(f.store) == ActiveNames(s.store) && AllCounted(f.store)
    ensures LiveNames(f.store) == NonActiveNames(f.store) + ActiveNames(f.store)
    ensures |NonActiveNames(f.store)| == |NonActiveNames(s.store)| - |Healthy(p)| + p.want
    ensures forall n :: n in f.creating ==> n in LiveNames(f.store)
  {
    var gone := NamesOf(p.doomed) + NamesOf(p.targets);
    GoneIsNotActive(s.store, spec, p);
    EffectOnNames(s.store, gone, f.creating, f.store);
    EffectIsCounted(s.store, gone, f.creating, f.store);
    FilterDistinct(p.targets, IsNonActive);
    NamesSize(Healthy(p));
    hide Calm, CalmPlan, NonActiveNames, ActiveNames, AllCounted, Filter;
  }

  /** In such a pass a scale-down delete fails exactly when its target was doomed;
      it never conflicts. */
  lemma TrimFailsExactly(s: System, spec: BuildSpec, r: Run, i: nat)
    requires Calm(s) && IsCalmPass(s, spec, r) && 0 < i < |r.events| - 1
    requires r.events[i].Call? && r.events[i].call.RemoveIf?
    ensures r.events[i].call.outcome == if IsDoomed(r.events[i].call.target) then Failed else Ok
  {
    PassAlong(s, spec, r, i);
    hide Step, Calm, PassSoFar;
    TrimCalmly(s.store, spec, r.states[i], r.events[i].call, r.states[i + 1]);
  }

  // In numbers

  lemma HealthyCount(s: Store, spec: BuildSpec, p: Plan)
    requires CalmPlan(s, spec, p)
    ensures |Healthy(p)| <= |p.targets| && |Healthy(p)| <= |NonActiveNames(s)|
  {
    HealthyNames(s, spec, p);
    FilterDistinct(p.targets, IsNonActive);
    NamesSize(Healthy(p));
    assert NonActiveNames(s) * NamesOf(p.targets) + (NonActiveNames(s) - NamesOf(p.targets)) == NonActiveNames(s);
    hide CalmPlan, NonActiveNames;
  }

  // No pass goes beyond the target, or beyond where it started.
  lemma StaysBelow(n: nat, active: nat, spec: BuildSpec, healthy: nat, want: nat)
    requires healthy <= n && want == CreateBudget(n, active, spec)
    ensures n - healthy + want <= n || n - healthy + want <= Target(active, spec)
  {
  }

  lemma QuietCandidates(s: System)
    requires Quiet(s)
    ensures NamesThat(s.store, IsTrimmable) == NonActiveNames(s.store)
  {
    forall n | n in LiveNames(s.store)
      ensures IsTrimmable(Live(s.store, n).value) == IsNonActive(Live(s.store, n).value)
    {
      TrimmableIsNonActive(Live(s.store, n).value);
    }
    assert forall n :: n in NamesThat(s.store, IsTrimmable) ==> n in LiveNames(s.store);
    assert forall n :: n in NonActiveNames(s.store) ==> n in LiveNames(s.store);
    hide Calm, IsTrimmable, IsNonActive, IsCounted;
  }

  lemma QuietTargets(s: System, spec: BuildSpec, p: Plan)
    requires Quiet(s) && CalmPlan(s.store, spec, p)
    ensures Healthy(p) == p.targets && !AnyDoomed(p.targets)
    ensures |p.targets| == Trimmed(|NonActiveNames(s.store)|, |ActiveNames(s.store)|, spec)
  {
    QuietCandidates(s);
    forall g | g in p.targets
      ensures IsNonActive(g) && !IsDoomed(g)
    {
      assert g.name in LiveNames(s.store);
      TrimmableIsNonActive(g);
    }
    FilterAll(p.targets, IsNonActive);
    hide Calm, IsNonActive, IsDoomed, Filter;
  }

  /** If all servers are counted already, the pass finishes and changes their
      number as NextNonActive says. */
  lemma QuietPassResult(s: System, spec: BuildSpec, r: Run)
    requires Quiet(s) && IsCalmPass(s, spec, r)
    ensures r.events[|r.events| - 1].Finish?
    ensures var f := r.states[|r.events|].store;
            && ActiveNames(f) == ActiveNames(s.store)
            && |NonActiveNames(f)| == NextNonActive(|NonActiveNames(s.store)|, |ActiveNames(s.store)|, spec)
  {
    CalmPassResult(s, spec, r);
    QuietTargets(s, spec, r.states[1].ctl.plan);
    assert r.states[1].ctl.plan.want == CreateBudget(|NonActiveNames(s.store)|, |ActiveNames(s.store)|, spec);
    hide Calm, CalmPlan, IsCalmPass, NonActiveNames, ActiveNames, AllCounted;
  }

  // Convergence

  /** One undisturbed pass, after which the cache catches up. Meanwhile servers
      may move between pending, initializing and standing by. */
  ghost predicate CalmCycle(s: System, spec: BuildSpec, s': System) {
    exists r :: IsCalmPass(s, spec, r) && CaughtUp(r.states[|r.events|], s')
  }

  ghost predicate CaughtUp(f: System, s': System) {
    LiveNames(s'.store) == LiveNames(f.store) && ActiveNames(s'.store) == ActiveNames(f.store)
  }

  lemma QuietSplit(s: System)
    requires Quiet(s)
    ensures LiveNames(s.store) == NonActiveNames(s.store) + ActiveNames(s.store)
  {
  }

  lemma SameNonActive(f: Store, f': Store)
    requires LiveNames(f') == LiveNames(f) && ActiveNames(f') == ActiveNames(f)
    requires LiveNames(f) == NonActiveNames(f) + ActiveNames(f) && LiveNames(f') == NonActiveNames(f') + ActiveNames(f')
    ensures NonActiveNames(f') == NonActiveNames(f)
  {
    assert NonActiveNames(f) == LiveNames(f) - ActiveNames(f);
    assert NonActiveNames(f') == LiveNames(f') - ActiveNames(f');
  }

  lemma CycleResult(s: System, spec: BuildSpec, s': System)
    requires Calm(s) && Quiet(s') && CalmCycle(s, spec, s')
    ensures ActiveNames(s'.store) == ActiveNames(s.store)
    ensures var n, active := |NonActiveNames(s.store)|, |ActiveNames(s.store)|;
            && (Quiet(s) ==> |NonActiveNames(s'.store)| == NextNonActive(n, active, spec))
            && (|NonActiveNames(s'.store)| <= n || |NonActiveNames(s'.store)| <= Target(active, spec))
  {
    var r :| IsCalmPass(s, spec, r) && CaughtUp(r.states[|r.events|], s');
    CalmPassResult(s, spec, r);
    HealthyCount(s.store, spec, r.states[1].ctl.plan);
    if Quiet(s) {
      QuietPassResult(s, spec, r);
    }
    QuietSplit(s');
    SameNonActive(r.states[|r.events|].store, s'.store);
    var p := r.states[1].ctl.plan;
    assert p.want == CreateBudget(|NonActiveNames(s.store)|, |ActiveNames(s.store)|, spec);
    hide Calm, CalmPlan, IsCalmPass, NonActiveNames, ActiveNames, AllCounted, LiveNames, Healthy;
    StaysBelow(|NonActiveNames(s.store)|, |ActiveNames(s.store)|, spec, |Healthy(p)|, p.want);
  }

  /** Cycles from a calm state: after each, no server is doomed any more. */
  ghost predicate AreCycles(states: seq<System>, spec: BuildSpec) {
    && 0 < |states| && Calm(states[0])
    && (forall i :: 0 < i < |states| ==> Quiet(states[i]))
    && (forall i :: 0 <= i < |states| - 1 ==> CalmCycle(states[i], spec, states[i + 1]))
  }

  lemma CyclesFrom(states: seq<System>, spec: BuildSpec, k: nat)
    requires AreCycles(states, spec) && k < |states|
    ensures AreCycles(states[k..], spec)
  {
    hide Calm, CalmCycle, Quiet;
    assert forall i :: 0 <= i < |states| - k ==> states[k..][i] == states[k + i];
    assert 0 < k ==> Quiet(states[k]);
    QuietIsCalm(states[k]);
    forall i | 0 <= i < |states[k..]| - 1
      ensures CalmCycle(states[k..][i], spec, states[k..][i + 1])
    {
      assert CalmCycle(states[k + i], spec, states[k + i + 1]);
    }
  }

  lemma QuietIsCalm(s: System)
    ensures Quiet(s) ==> Calm(s)
  {
  }

  lemma {:induction false} CyclesFollowArithmetic(states: seq<System>, spec: BuildSpec, k: nat)
    requires AreCycles(states, spec) && k < |states| && Quiet(states[0])
    ensures ActiveNames(states[k].store) == ActiveNames(states[0].store)
    ensures |NonActiveNames(states[k].store)|
         == Passes(k, |NonActiveNames(states[0].store)|, |ActiveNames(states[0].store)|, spec)
  {
    hide Quiet, Calm, CalmCycle, NonActiveNames, ActiveNames;
    if k > 0 {
      CycleResult(states[0], spec, states[1]);
      CyclesFrom(states, spec, 1);
      CyclesFollowArithmetic(states[1..], spec, k - 1);
    }
  }

  /** Repeated passes from any calm state, with whatever servers finished, crashed
      or unhealthy, reach exactly max(0, min(StandingBy, Max - active)) servers
      that are not active, one pass after the larger of that number and the
      initial one at the latest, and hold it; without the doomed servers that one
      pass is not needed. */
  lemma Stabilises(states: seq<System>, spec: BuildSpec, k: nat)
    requires Sensible(spec) && AreCycles(states, spec) && k < |states|
    requires var k' := if Quiet(states[0]) then k else k - 1;
             |NonActiveNames(states[0].store)| <= k' && Target(|ActiveNames(states[0].store)|, spec) <= k'
    ensures ActiveNames(states[k].store) == ActiveNames(states[0].store)
    ensures |NonActiveNames(states[k].store)| == Target(|ActiveNames(states[k].store)|, spec)
  {
    hide Quiet, Calm, CalmCycle, NonActiveNames, ActiveNames;
    if Quiet(states[0]) {
      CyclesFollowArithmetic(states, spec, k);
      Settles(k, |NonActiveNames(states[0].store)|, |ActiveNames(states[0].store)|, spec);
    } else {
      CycleResult(states[0], spec, states[1]);
      CyclesFrom(states, spec, 1);
      CyclesFollowArithmetic(states[1..], spec, k - 1);
      Settles(k - 1, |NonActiveNames(states[1].store)|, |ActiveNames(states[1].store)|, spec);
    }
  }
}
