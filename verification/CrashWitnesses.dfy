/** A concrete run in which a crash is lost although nobody but the controller
    and the servers act, and the API server does all it is asked for. */
module CrashWitnesses {
  import opened Options
  import opened GameServers
  import opened ApiStore
  import opened ReconcilePlan
  import opened ClusterRuns
  import opened CalmPasses
  import opened CrashTally
  import opened Expectations
  import opened ClusterWitnesses

  // The build wants two servers at first, then none to stand by.
  const TWO := BuildSpec(2, 5, 5, 5)
  const NONE := BuildSpec(0, 5, 5, 5)

  const NO_COUNTS := Counts(0, 0, 0, 0, 0)
  const HIRE_TWO := Plan([], [], [], 2, NO_COUNTS)

  const BORN_A := GameServer("a", Unset, Unknown, 1)
  const BORN_B := GameServer("b", Unset, Unknown, 2)

  // Never heard from, and marked by the node agent.
  const SILENT := GameServer("a", Unset, Unhealthy, 3)
  const WELL := GameServer("b", StandingBy, Healthy, 4)

  function Both(a: Record, b: Record, clock: nat): Store {
    Store(map["a" := a, "b" := b], clock)
  }

  function StoreAfter(k: nat): Store {
    if k == 0 then EMPTY.store
    else if k == 1 then Store(map["a" := Record([BORN_A], false, 0)], 2)
    else if k == 2 then Both(Record([BORN_A], false, 0), Record([BORN_B], false, 0), 3)
    else if k == 3 then Both(Record([BORN_A, SILENT], false, 0), Record([BORN_B], false, 0), 4)
    else if k == 4 then Both(Record([BORN_A, SILENT], false, 0), Record([BORN_B, WELL], false, 0), 5)
    else if k == 5 then Both(Record([BORN_A, SILENT], false, 2), Record([BORN_B, WELL], false, 0), 5)
    else Both(Record([BORN_A, SILENT], false, 2), Record([BORN_B, WELL], false, 2), 5)
  }

  // Idle, with the servers k steps into the story and some of them expected.
  function At(k: nat, creating: set<string>): System {
    EMPTY.(store := StoreAfter(k), creating := creating)
  }

  function Hiring(k: nat, creating: set<string>): System {
    At(k, creating).(ctl := Running(HIRE_TWO, 0, 0, k, false))
  }

  lemma On(r: Run, e: Event, s: System) returns (r': Run)
    requires IsRunFrom(EMPTY, r) && MaxAtMost(r, 5) && Step(r.states[|r.events|], e, s)
    requires e.Begin? ==> e.spec.max <= 5
    ensures IsRunFrom(EMPTY, r') && MaxAtMost(r', 5)
    ensures r'.events == r.events + [e] && r'.states == r.states + [s]
  {
    hide Step;
    r' := Run(r.states + [s], r.events + [e]);
  }

  // Two servers are made

  lemma HireTwoBegins()
    ensures Step(At(0, {}), Begin([], [], TWO), Hiring(0, {}))
  {
    hide MakePlan, CachedNames;
    HireTwoPlan();
    EmptyListing();
  }

  lemma HireTwoPlan()
    ensures MakePlan([], [], TWO) == HIRE_TWO
  {
  }

  lemma CreatedStores()
    ensures Created(StoreAfter(0), "a") == StoreAfter(1)
    ensures Created(StoreAfter(1), "b") == StoreAfter(2)
    ensures UnmatchedNames([]) == {}
  {
  }

  lemma HireA()
    ensures Step(Hiring(0, {}), Call(Add("a", true)), Hiring(1, {"a"}))
  {
    CreatedStores();
    hide UnmatchedNames, Created;
    AddSteps(Hiring(0, {}), "a");
    hide Step;
    assert {} + {"a"} == {"a"};
  }

  lemma HireB()
    ensures Step(Hiring(1, {"a"}), Call(Add("b", true)), Hiring(2, {"a", "b"}))
  {
    CreatedStores();
    hide UnmatchedNames, Created;
    AddSteps(Hiring(1, {"a"}), "b");
    hide Step;
    assert {"a"} + {"b"} == {"a", "b"};
  }

  lemma HireTwoFinishes()
    ensures Step(Hiring(2, {"a", "b"}), Finish, At(2, {"a", "b"}))
  {
    FinishSteps(Hiring(2, {"a", "b"}));
    assert CrashNames([]) == {};
    hide Step, CrashNames, StoreAfter;
  }

  lemma MakeTwo() returns (r: Run)
    ensures IsRunFrom(EMPTY, r) && MaxAtMost(r, 5) && r.states[|r.events|] == At(2, {"a", "b"})
  {
    HireTwoBegins();
    HireA();
    HireB();
    HireTwoFinishes();
    r := Run([EMPTY], []);
    assert EMPTY == At(0, {});
    hide Step, At, Hiring;
    r := On(r, Begin([], [], TWO), Hiring(0, {}));
    r := On(r, Call(Add("a", true)), Hiring(1, {"a"}));
    r := On(r, Call(Add("b", true)), Hiring(2, {"a", "b"}));
    r := On(r, Finish, At(2, {"a", "b"}));
  }

  // One is never heard from, the other stands by, and the cache sees both

  lemma SilentA(creating: set<string>)
    ensures Step(At(2, creating), Write("a", Unset, Unhealthy), At(3, creating))
  {
    assert [BORN_A] + [SILENT] == [BORN_A, SILENT];
  }

  lemma WellB(creating: set<string>)
    ensures Step(At(3, creating), Write("b", StandingBy, Healthy), At(4, creating))
  {
    assert [BORN_B] + [WELL] == [BORN_B, WELL];
  }

  lemma SeenA(creating: set<string>)
    ensures Step(At(4, creating), Observe("a", 2), At(5, creating))
  {
  }

  lemma SeenB(creating: set<string>)
    ensures Step(At(5, creating), Observe("b", 2), At(6, creating))
  {
  }

  lemma Forgotten()
    ensures Step(At(6, {"a", "b"}), ForgetCreated("a"), At(6, {"b"}))
    ensures Step(At(6, {"b"}), ForgetCreated("b"), At(6, {}))
  {
  }

  lemma ReportBoth(r: Run) returns (r': Run)
    requires IsRunFrom(EMPTY, r) && MaxAtMost(r, 5) && r.states[|r.events|] == At(2, {"a", "b"})
    ensures IsRunFrom(EMPTY, r') && MaxAtMost(r', 5) && r'.states[|r'.events|] == At(6, {})
  {
    var expected := {"a", "b"};
    SilentA(expected);
    WellB(expected);
    SeenA(expected);
    SeenB(expected);
    Forgotten();
    hide Step, At;
    r' := On(r, Write("a", Unset, Unhealthy), At(3, expected));
    r' := On(r', Write("b", StandingBy, Healthy), At(4, expected));
    r' := On(r', Observe("a", 2), At(5, expected));
    r' := On(r', Observe("b", 2), At(6, expected));
    r' := On(r', ForgetCreated("a"), At(6, {"b"}));
    r' := On(r', ForgetCreated("b"), At(6, {}));
  }

  // The pass that removes the silent server and then fails on it

  const LIST := [SILENT, WELL]
  const LOSING := Plan(LIST, [SILENT], [SILENT], 0, Counts(0, 0, 1, 0, 1))

  lemma FilterTwo(a: GameServer, b: GameServer, p: GameServer -> bool)
    ensures Filter([a, b], p) == (if p(a) then [a] else []) + (if p(b) then [b] else [])
  {
    FilterOne(a, p);
    assert [a, b][..1] == [a];
  }

  lemma LosingCounts()
    ensures CountsOf(LIST) == Counts(0, 0, 1, 0, 1)
  {
    assert LIST[..0] == [] && LIST[..1] == [SILENT] && LIST[..2] == LIST;
    CountsStep(LIST, 0);
    CountsStep(LIST, 1);
  }

  lemma LosingTargets()
    ensures Chosen(LIST, 1) == [SILENT] && Filter(LIST, IsDoomed) == [SILENT]
  {
    FilterTwo(SILENT, WELL, IsDoomed);
    FilterTwo(SILENT, WELL, IsTrimmable);
    hide Filter;
    assert [SILENT] + [WELL] == LIST && [SILENT] + [] == [SILENT] && LIST[..1] == [SILENT];
  }

  lemma LosingBudgets()
    ensures DeleteBudget(1, 0, NONE) == 1 && CreateBudget(1, 0, NONE) == 0
  {
  }

  lemma LosingOrder()
    ensures SortedByState(LIST, LIST)
  {
  }

  /** Scale-down chooses the very server that the sweep removes. */
  lemma LosingPlan()
    ensures MakePlan(LIST, LIST, NONE) == LOSING
  {
    LosingCounts();
    LosingTargets();
    LosingBudgets();
    hide CountsOf, Filter, Chosen, DeleteBudget, CreateBudget;
  }

  lemma LosingListing()
    ensures IsCacheListing(StoreAfter(6), LIST)
  {
    assert CachedNames(StoreAfter(6)) == {"a", "b"};
    assert NamesOf(LIST) == {"a", "b"};
  }

  function Losing(swept: nat, trimmed: nat): System
    requires swept <= 1
  {
    At(6, {}).(
      store := if swept == 0 then StoreAfter(6) else Deleted(StoreAfter(6), "a"),
      deleting := if swept == 0 then {} else {"a"},
      ctl := Running(LOSING, swept, trimmed, 0, 0 < trimmed))
  }

  lemma LosingBegins()
    ensures Step(At(6, {}), Begin(LIST, LIST, NONE), Losing(0, 0))
  {
    LosingPlan();
    LosingOrder();
    LosingListing();
    hide MakePlan, IsCacheListing, SortedByState, StoreAfter;
  }

  lemma LosingSweeps()
    ensures Step(Losing(0, 0), Call(Remove("a", true)), Losing(1, 0))
    ensures Served(Losing(0, 0).store, Remove("a", true))
  {
  }

  lemma LosingTrims()
    ensures Step(Losing(1, 0), Call(RemoveIf(SILENT, Failed)), Losing(1, 1))
    ensures Served(Losing(1, 0).store, RemoveIf(SILENT, Failed))
  {
  }

  lemma LosingGivesUp()
    ensures Step(Losing(1, 1), GiveUp, Losing(1, 1).(ctl := Idle))
  {
  }

  lemma LosingPass() returns (q: Run)
    ensures IsCalmPass(At(6, {}), NONE, q) && |q.events| == 4
    ensures q.events == [Begin(LIST, LIST, NONE), Call(Remove("a", true)), Call(RemoveIf(SILENT, Failed)), GiveUp]
    ensures q.states[4] == Losing(1, 1).(ctl := Idle)
  {
    LosingBegins();
    LosingSweeps();
    LosingTrims();
    LosingGivesUp();
    hide Step, Served, At, Losing;
    q := Run([At(6, {}), Losing(0, 0), Losing(1, 0), Losing(1, 1), Losing(1, 1).(ctl := Idle)],
             [Begin(LIST, LIST, NONE), Call(Remove("a", true)), Call(RemoveIf(SILENT, Failed)), GiveUp]);
  }

  /** From the empty build such a state is reached and a whole undisturbed pass
      follows; at its end the server is removed and its crash not counted. */
  lemma UnhealthyTargetLosesCrash() returns (r: Run, q: Run, all: Run)
    ensures IsRunFrom(EMPTY, r) && IsRunFrom(EMPTY, all) && all.events == r.events + q.events
    ensures IsCalmPass(r.states[|r.events|], NONE, q)
    ensures InHistory(q.states[0].store, SILENT) && IsCrash(SILENT)
    ensures var f := all.states[|all.events|];
            Live(f.store, "a").None? && f.recorded == 0 && f.counted == {} && f.ctl.Idle?
  {
    r := MakeTwo();
    r := ReportBoth(r);
    q := LosingPass();
    hide Step, Served;
    assert q.states[0] == At(6, {});
    assert InHistory(StoreAfter(6), SILENT);
    all := Joined(EMPTY, r, q);
  }
}
