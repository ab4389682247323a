/** Concrete runs showing that the conditions of ClusterTheorems are needed. */
module ClusterWitnesses {
  import opened Options
  import opened GameServers
  import opened ApiStore
  import opened ReconcilePlan
  import opened ClusterRuns
  import opened ClusterTheorems
  import opened ExpectationGates

  const ONE := BuildSpec(1, 1, 1, 1)

  lemma Extend(r: Run, e: Event, s': System) returns (r': Run)
    requires IsRunFrom(EMPTY, r) && MaxAtMost(r, 1) && Step(r.states[|r.events|], e, s')
    requires e.Begin? ==> e.spec == ONE
    ensures IsRunFrom(EMPTY, r') && MaxAtMost(r', 1)
    ensures r'.events == r.events + [e] && r'.states == r.states + [s']
  {
    r' := Run(r.states + [s'], r.events + [e]);
  }

  // A pass that reads nothing and wants one server.
  const HIRE := Plan([], [], [], 1, Counts(0, 0, 0, 0, 0))

  lemma EmptyListing()
    ensures MakePlan([], [], ONE) == HIRE
    ensures UnmatchedNames([]) == {} && CrashNames([]) == {} && CachedNames(EMPTY.store) == {}
  {
  }

  function Version(state: State, health: Health, version: nat): GameServer {
    GameServer("a", state, health, version)
  }

  // Server "a" with the given history.
  function Holding(versions: seq<GameServer>, deleted: bool, seen: nat, clock: nat): Store {
    Store(map["a" := Record(versions, deleted, seen)], clock)
  }

  const BORN := Version(Unset, Unknown, 1)

  const HIRING := EMPTY.(ctl := Running(HIRE, 0, 0, 0, false))

  const HIRED := EMPTY.(store := Holding([BORN], false, 0, 2), creating := {"a"})

  const HIRING_DONE := HIRED.(ctl := Running(HIRE, 0, 0, 1, false))

  lemma HireBegins()
    ensures Step(EMPTY, Begin([], [], ONE), HIRING)
  {
    EmptyListing();
    hide MakePlan, CachedNames;
  }

  lemma HireCreates()
    ensures Step(HIRING, Call(Add("a", true)), HIRING_DONE)
  {
    EmptyListing();
    hide MakePlan, UnmatchedNames;
    AddSteps(HIRING, "a");
    FirstServer();
    hide Created, Step;
  }

  lemma AddSteps(s: System, name: string)
    requires Expects(s.ctl, Add(name, true)) && name !in s.store.records
    ensures Step(s, Call(Add(name, true)),
                 s.(store := Created(s.store, name), creating := s.creating + {name}, ctl := After(s.ctl, Add(name, true)),
                    skipped := UnmatchedNames(s.ctl.plan.items)))
  {
    hide Created, UnmatchedNames, Expects;
  }

  lemma FirstServer()
    ensures Created(EMPTY.store, "a") == HIRED.store
  {
  }

  lemma FinishSteps(s: System)
    requires Succeeds(s.ctl)
    ensures Step(s, Finish, s.(ctl := Idle, recorded := s.recorded + s.ctl.plan.counts.crashes,
                               counted := s.counted + CrashNames(s.ctl.plan.items)))
  {
    hide Succeeds, CrashNames;
  }

  // The end of a pass that read nothing.
  lemma FinishNothing(s: System)
    requires Succeeds(s.ctl) && s.ctl.plan.items == [] && s.ctl.plan.counts.crashes == 0
    ensures Step(s, Finish, s.(ctl := Idle))
  {
    hide Step, Succeeds, CrashNames;
    FinishSteps(s);
    NoCrashes(s.counted);
  }

  lemma NoCrashes(counted: set<string>)
    ensures counted + CrashNames([]) == counted
  {
    assert CrashNames([]) == {};
    hide CrashNames;
  }

  lemma HiringIsDone()
    ensures Succeeds(HIRING_DONE.ctl)
  {
  }

  lemma HireFinishes()
    ensures Step(HIRING_DONE, Finish, HIRED)
  {
    hide Step, Holding, Succeeds;
    HiringIsDone();
    FinishNothing(HIRING_DONE);
  }

  lemma FirstPass() returns (r: Run)
    ensures IsRunFrom(EMPTY, r) && MaxAtMost(r, 1) && r.states[|r.events|] == HIRED
  {
    HireBegins();
    HireCreates();
    HireFinishes();
    hide Step;
    r := Run([EMPTY], []);
    r := Extend(r, Begin([], [], ONE), HIRING);
    r := Extend(r, Call(Add("a", true)), HIRING_DONE);
    r := Extend(r, Finish, HIRED);
  }

  /** A server removed by somebody else right after its creation leaves the
      build blocked (see OrphanBlocksForever). */
  lemma OrphanReachable() returns (r: Run)
    ensures IsRunFrom(EMPTY, r) && Orphaned(r.states[|r.events|], "a") && r.states[|r.events|].ctl.Idle?
  {
    r := FirstPass();
    var dead := HIRED.(store := Holding([BORN], true, 0, 2));
    r := Extend(r, Vanish("a"), dead);
    r := Extend(r, Observe("a", 2), dead.(store := Holding([BORN], true, 2, 2)));
  }

  // The server reports versions while the cache and the expectations catch up.
  lemma Report(r: Run, state: State, health: Health) returns (r': Run)
    requires IsRunFrom(EMPTY, r) && MaxAtMost(r, 1)
    requires r.states[|r.events|] == HIRED.(store := Holding([BORN], false, 0, 2))
    ensures IsRunFrom(EMPTY, r') && MaxAtMost(r', 1)
    ensures r'.states[|r'.events|]
         == EMPTY.(store := Holding([BORN, Version(state, health, 2)], false, 2, 3))
  {
    var versions := [BORN, Version(state, health, 2)];
    assert [BORN] + [Version(state, health, 2)] == versions;
    assert Written(HIRED.store, "a", state, health) == Holding(versions, false, 0, 3);
    r' := Extend(r, Write("a", state, health), HIRED.(store := Holding(versions, false, 0, 3)));
    r' := Extend(r', Observe("a", 2), HIRED.(store := Holding(versions, false, 2, 3)));
    r' := Extend(r', ForgetCreated("a"), EMPTY.(store := Holding(versions, false, 2, 3)));
  }

  const FINISHED := Version(GameCompleted, Unknown, 2)

  const REHIRE := Plan([FINISHED], [], [], 1, Counts(0, 0, 0, 0, 0))

  lemma UnmatchedCounts(g: GameServer)
    requires IsUnmatched(g)
    ensures CountsOf([g]) == Counts(0, 0, 0, 0, 0)
  {
    assert [g][..0] == [];
    assert CountsOf([g]) == Tally(CountsOf([]), g);
  }

  lemma UnmatchedSets(g: GameServer)
    requires IsUnmatched(g)
    ensures Filter([g], IsDoomed) == []
    ensures UnmatchedNames([g]) == {g.name}
  {
    FilterOne(g, IsDoomed);
    FilterOne(g, IsUnmatched);
  }

  lemma NothingChosen(sorted: seq<GameServer>)
    ensures Chosen(sorted, 0) == []
  {
  }

  lemma BudgetsFromNothing()
    ensures DeleteBudget(0, 0, ONE) == 0 && CreateBudget(0, 0, ONE) == 1
  {
  }

  // A pass that reads one server of no branch plans as if it had read none.
  lemma UnmatchedPlan(g: GameServer)
    requires IsUnmatched(g)
    ensures MakePlan([g], [g], ONE) == Plan([g], [], [], 1, Counts(0, 0, 0, 0, 0))
  {
    UnmatchedCounts(g);
    UnmatchedSets(g);
    NothingChosen([g]);
    BudgetsFromNothing();
    hide CountsOf, Filter, UnmatchedNames, Chosen, DeleteBudget, CreateBudget, IsUnmatched;
  }

  lemma OnlyListing(s: Store, g: GameServer)
    requires s.records.Keys == {"a"} && Cached(s, "a") == Some(g) && g.name == "a"
    ensures IsCacheListing(s, [g])
  {
    assert CachedNames(s) == {"a"};
  }

  lemma TwoLive(s: Store)
    requires s.records.Keys == {"a", "b"} && Live(s, "a").Some? && Live(s, "b").Some?
    ensures |LiveNames(s)| == 2
  {
    assert LiveNames(s) == {"a", "b"};
  }

  /** A server whose process exits before it ever reported a health is neither
      counted nor removed, so the next pass creates one more: two live servers
      for a maximum of one. */
  lemma MaxNeedsTheCondition() returns (r: Run)
    ensures IsRunFrom(EMPTY, r) && MaxAtMost(r, 1)
    ensures |LiveNames(r.states[|r.events|].store)| == 2
  {
    r := FirstPass();
    r := Report(r, GameCompleted, Unknown);
    r := SecondHire(r);
    hide IsRunFrom;
    TwoLive(r.states[|r.events|].store);
  }

  const IDLING := EMPTY.(store := Holding([BORN, FINISHED], false, 2, 3))
  const REHIRING := IDLING.(ctl := Running(REHIRE, 0, 0, 0, false))
  const REHIRED := REHIRING.(
    store := Created(IDLING.store, "b"), creating := {"b"}, ctl := Running(REHIRE, 0, 0, 1, false), skipped := {"a"})

  lemma FinishedListing()
    ensures MakePlan([FINISHED], [FINISHED], ONE) == REHIRE
    ensures IsCacheListing(IDLING.store, [FINISHED]) && SortedByState([FINISHED], [FINISHED])
  {
    hide MakePlan, IsCacheListing, CachedNames;
    UnmatchedPlan(FINISHED);
    assert Cached(IDLING.store, "a") == Some(FINISHED);
    OnlyListing(IDLING.store, FINISHED);
  }

  lemma RehireBegins()
    ensures Step(IDLING, Begin([FINISHED], [FINISHED], ONE), REHIRING)
  {
    FinishedListing();
    hide MakePlan, IsCacheListing, SortedByState, Holding;
  }

  lemma RehireCreates()
    ensures Step(REHIRING, Call(Add("b", true)), REHIRED)
  {
    UnmatchedSets(FINISHED);
  }

  lemma SecondHire(before: Run) returns (r: Run)
    requires IsRunFrom(EMPTY, before) && MaxAtMost(before, 1) && before.states[|before.events|] == IDLING
    ensures IsRunFrom(EMPTY, r) && MaxAtMost(r, 1) && r.states[|r.events|] == REHIRED
  {
    RehireBegins();
    RehireCreates();
    hide Step;
    r := Extend(before, Begin([FINISHED], [FINISHED], ONE), REHIRING);
    r := Extend(r, Call(Add("b", true)), REHIRED);
  }

  const SICK := Version(StandingBy, Unhealthy, 2)

  lemma SickPlan()
    ensures MakePlan([SICK], [SICK], ONE).doomed == [SICK]
  {
    FilterOne(SICK, IsDoomed);
  }

  const LEASED := Holding([BORN, SICK, Version(Active, Unhealthy, 3)], false, 2, 4)

  // The sick server is standing by, so the allocator hands it out.
  lemma AllocateSick() returns (r: Run)
    ensures IsRunFrom(EMPTY, r) && MaxAtMost(r, 1)
    ensures r.states[|r.events|] == EMPTY.(store := LEASED)
  {
    r := FirstPass();
    r := Report(r, StandingBy, Unhealthy);
    var s := r.states[|r.events|];
    var t := Ticket("a", 2);
    r := Extend(r, Enqueue("a"), s.(queue := multiset{t}));
    r := Extend(r, Pop(t), s.(inflight := multiset{t}));
    assert [BORN, SICK] + [Version(Active, Unhealthy, 3)] == [BORN, SICK, Version(Active, Unhealthy, 3)];
    assert Written(s.store, "a", Active, Unhealthy) == LEASED;
    r := Extend(r, Patch(t, true), s.(store := LEASED));
  }

  /** The sweep deletes without a precondition: a server that was unhealthy in
      the list but has been allocated since is removed while Active. */
  lemma SweepCanRemoveActive() returns (r: Run)
    ensures IsRunFrom(EMPTY, r) && 0 < |r.events|
    ensures var i := |r.events| - 1;
            && r.events[i] == Call(Remove("a", true))
            && Live(r.states[i].store, "a").Some? && Live(r.states[i].store, "a").value.state == Active
  {
    r := AllocateSick();
    var s := r.states[|r.events|];
    SickPlan();
    OnlyListing(LEASED, SICK);
    var plan := MakePlan([SICK], [SICK], ONE);
    var running := s.(ctl := Running(plan, 0, 0, 0, false));
    r := Extend(r, Begin([SICK], [SICK], ONE), running);
    assert Live(LEASED, "a") == Some(Version(Active, Unhealthy, 3));
    r := Extend(r, Call(Remove("a", true)),
                running.(store := Deleted(LEASED, "a"), deleting := {"a"}, ctl := Running(plan, 1, 0, 0, false)));
  }
}
