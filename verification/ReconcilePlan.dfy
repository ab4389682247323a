/** What one pass of the build controller decides from the list it read, and
    the API calls it then makes, in order. */
module ReconcilePlan {
  import opened GameServers

  // The numbers a pass reads from the build and from the configuration.
  datatype BuildSpec = BuildSpec(standingBy: int, max: int, addLimit: int, deleteLimit: int)

  datatype Counts = Counts(pending: nat, initializing: nat, standingBy: nat, active: nat, crashes: nat) {
    function NonActive(): nat {
      standingBy + initializing + pending
    }
  }

  function Tally(c: Counts, g: GameServer): Counts {
    match BranchOf(g)
    case CountPending => c.(pending := c.pending + 1)
    case CountInitializing => c.(initializing := c.initializing + 1)
    case CountStandingBy => c.(standingBy := c.standingBy + 1)
    case CountActive => c.(active := c.active + 1)
    case DeleteCrashed => c.(crashes := c.crashes + 1)
    case DeleteUnhealthy => c.(crashes := c.crashes + 1)
    case DeleteCompleted => c
    case NoBranch => c
  }

  function CountsOf(items: seq<GameServer>): Counts {
    if items == [] then Counts(0, 0, 0, 0, 0)
    else Tally(CountsOf(items[..|items| - 1]), items[|items| - 1])
  }

  lemma CountsStep(items: seq<GameServer>, i: nat)
    requires i < |items|
    ensures CountsOf(items[..i + 1]) == Tally(CountsOf(items[..i]), items[i])
  {
    assert items[..i + 1][..i] == items[..i];
  }

  function Min(a: int, b: int): (r: int)
    ensures r <= a && r <= b && (r == a || r == b)
  {
    if a <= b then a else b
  }

  function DeleteBudget(nonActive: nat, active: nat, spec: BuildSpec): int {
    var surplus := if nonActive > spec.standingBy then Min(nonActive - spec.standingBy, spec.deleteLimit) else 0;
    if nonActive + active > spec.max
    then surplus + Min(surplus + (nonActive + active - spec.max), spec.deleteLimit)
    else surplus
  }

  function CreateBudget(nonActive: nat, active: nat, spec: BuildSpec): (k: nat)
    ensures k > 0 ==> nonActive < spec.standingBy && nonActive + active + k <= spec.max
  {
    var k := Min(Min(spec.standingBy - nonActive, spec.max - nonActive - active), spec.addLimit);
    if k > 0 then k else 0
  }

  /** The budget counts exactly the rounds whose guard lets another server be created. */
  lemma CreateBudgetIsGuard(nonActive: nat, active: nat, spec: BuildSpec, i: nat)
    ensures i < CreateBudget(nonActive, active, spec) <==>
      i < spec.standingBy - nonActive && i + nonActive + active < spec.max && i < spec.addLimit
  {
  }

  // sort.Sort is not stable: any arrangement of the list ordered by state.
  ghost predicate SortedByState(sorted: seq<GameServer>, items: seq<GameServer>) {
    && multiset(sorted) == multiset(items)
    && (forall i, j :: 0 <= i < j < |sorted| ==> Rank(sorted[i]) <= Rank(sorted[j]))
  }

  function Chosen(sorted: seq<GameServer>, budget: int): (r: seq<GameServer>)
    ensures forall g :: g in r ==> g in sorted && IsTrimmable(g)
  {
    var candidates := Filter(sorted, IsTrimmable);
    if budget <= 0 then [] else candidates[..Min(budget, |candidates|)]
  }

  datatype Plan = Plan(
    items: seq<GameServer>,     // the list the pass read from the cache
    doomed: seq<GameServer>,    // completed, crashed and unhealthy servers
    targets: seq<GameServer>,   // scale-down selection
    want: nat,                  // servers to create
    counts: Counts)

  function MakePlan(items: seq<GameServer>, sorted: seq<GameServer>, spec: BuildSpec): Plan {
    var c := CountsOf(items);
    Plan(items,
         Filter(items, IsDoomed),
         Chosen(sorted, DeleteBudget(c.NonActive(), c.active, spec)),
         CreateBudget(c.NonActive(), c.active, spec),
         c)
  }

  // The API calls of a pass, with their results.
  datatype Outcome = Ok | Conflict | Failed
  datatype ApiCall =
    | Remove(name: string, ok: bool)                    // unconditional delete
    | RemoveIf(target: GameServer, outcome: Outcome)    // delete with a version precondition
    | Add(name: string, ok: bool)

  // A pass in progress: how far it is through its plan.
  datatype Ctl =
    | Idle
    | Running(plan: Plan, swept: nat, trimmed: nat, grown: nat, failed: bool)

  predicate Expects(c: Ctl, call: ApiCall) {
    c.Running? &&
    match call
    case Remove(name, _) => c.swept < |c.plan.doomed| && name == c.plan.doomed[c.swept].name
    case RemoveIf(g, _) => c.swept == |c.plan.doomed| && c.trimmed < |c.plan.targets| && g == c.plan.targets[c.trimmed]
    case Add(_, _) =>
      && c.swept == |c.plan.doomed| && c.trimmed == |c.plan.targets| && c.grown < c.plan.want
      && (c.failed ==> 0 < c.grown)   // a failed scale-down ends the pass before any creation
  }

  function After(c: Ctl, call: ApiCall): Ctl
    requires Expects(c, call)
  {
    match call
    case Remove(_, ok) => if ok then c.(swept := c.swept + 1) else Idle
    case RemoveIf(_, outcome) => c.(trimmed := c.trimmed + 1, failed := c.failed || outcome == Failed)
    case Add(_, ok) => c.(grown := c.grown + 1, failed := c.failed || !ok)
  }

  predicate AllCallsMade(c: Ctl) {
    c.Running? && c.swept == |c.plan.doomed| && c.trimmed == |c.plan.targets| && c.grown == c.plan.want
  }

  // The pass reaches updateStatus.
  predicate Succeeds(c: Ctl) {
    AllCallsMade(c) && !c.failed
  }

  // The pass returns an error collected from its parallel calls.
  predicate GivesUp(c: Ctl) {
    c.Running? && c.failed && c.swept == |c.plan.doomed| && c.trimmed == |c.plan.targets|
    && (c.grown == 0 || c.grown == c.plan.want)
  }

  // Facts about plans

  /** A pass never both scales down and creates. */
  lemma TrimOrGrow(items: seq<GameServer>, sorted: seq<GameServer>, spec: BuildSpec)
    ensures var p := MakePlan(items, sorted, spec); p.targets != [] ==> p.want == 0
  {
    var c := CountsOf(items);
    if CreateBudget(c.NonActive(), c.active, spec) > 0 {
      assert DeleteBudget(c.NonActive(), c.active, spec) == 0;
    }
  }

  function NamesOf(items: seq<GameServer>): (r: set<string>)
    ensures forall n :: n in r <==> exists i :: 0 <= i < |items| && items[i].name == n
  {
    set g | g in items :: g.name
  }

  ghost predicate DistinctNames(items: seq<GameServer>) {
    forall i, j :: 0 <= i < j < |items| ==> items[i].name != items[j].name
  }

  function CountedNames(items: seq<GameServer>): set<string> {
    NamesOf(Filter(items, IsCounted))
  }

  function CrashNames(items: seq<GameServer>): set<string> {
    NamesOf(Filter(items, IsCrash))
  }

  function UnmatchedNames(items: seq<GameServer>): set<string> {
    NamesOf(Filter(items, IsUnmatched))
  }

  lemma {:induction false} NamesSize(items: seq<GameServer>)
    ensures |NamesOf(items)| <= |items|
    ensures DistinctNames(items) ==> |NamesOf(items)| == |items|
  {
    if items == [] {
      assert NamesOf(items) == {};
    } else {
      var init, last := items[..|items| - 1], items[|items| - 1];
      NamesSize(init);
      assert items == init + [last];
      assert NamesOf(items) == NamesOf(init) + {last.name};
    }
  }

  lemma {:induction false} FilterDistinct(items: seq<GameServer>, p: GameServer -> bool)
    requires DistinctNames(items)
    ensures DistinctNames(Filter(items, p))
  {
    if items != [] {
      var init, last := items[..|items| - 1], items[|items| - 1];
      FilterDistinct(init, p);
      var kept := Filter(init, p);
      forall j | 0 <= j < |kept|
        ensures kept[j].name != last.name
      {
        assert kept[j] in init;
      }
    }
  }

  predicate IsNonActive(g: GameServer) {
    IsCounted(g) && BranchOf(g) != CountActive
  }

  predicate IsActive(g: GameServer) {
    BranchOf(g) == CountActive
  }

  lemma TallyAdds(c: Counts, g: GameServer)
    ensures Tally(c, g).NonActive() == c.NonActive() + if IsNonActive(g) then 1 else 0
    ensures Tally(c, g).active == c.active + if IsActive(g) then 1 else 0
    ensures Tally(c, g).crashes == c.crashes + if IsCrash(g) then 1 else 0
    ensures IsCounted(g) <==> IsNonActive(g) || IsActive(g)
    ensures !(IsNonActive(g) && IsActive(g))
  {
  }

  lemma FilterStep(items: seq<GameServer>, p: GameServer -> bool)
    requires items != []
    ensures |Filter(items, p)| == |Filter(items[..|items| - 1], p)| + if p(items[|items| - 1]) then 1 else 0
  {
  }

  // The counters of the loop count what they are named after.

  lemma {:induction false} NonActiveCount(items: seq<GameServer>)
    ensures CountsOf(items).NonActive() == |Filter(items, IsNonActive)|
  {
    hide Filter, Tally;
    if items != [] {
      NonActiveCount(items[..|items| - 1]);
      FilterStep(items, IsNonActive);
      TallyAdds(CountsOf(items[..|items| - 1]), items[|items| - 1]);
    }
  }

  lemma {:induction false} ActiveCount(items: seq<GameServer>)
    ensures CountsOf(items).active == |Filter(items, IsActive)|
  {
    hide Filter, Tally;
    if items != [] {
      ActiveCount(items[..|items| - 1]);
      FilterStep(items, IsActive);
      TallyAdds(CountsOf(items[..|items| - 1]), items[|items| - 1]);
    }
  }

  lemma {:induction false} CrashCount(items: seq<GameServer>)
    ensures CountsOf(items).crashes == |Filter(items, IsCrash)|
  {
    hide Filter, Tally;
    if items != [] {
      CrashCount(items[..|items| - 1]);
      FilterStep(items, IsCrash);
      TallyAdds(CountsOf(items[..|items| - 1]), items[|items| - 1]);
    }
  }

  // What the counters stand for, by state and health

  predicate IsPending(g: GameServer) {
    g.state == Unset && g.health != Unhealthy
  }

  predicate IsHealthyInitializing(g: GameServer) {
    g.state == Initializing && g.health == Healthy
  }

  predicate IsHealthyStandingBy(g: GameServer) {
    g.state == StandingBy && g.health == Healthy
  }

  predicate IsHealthyActive(g: GameServer) {
    g.state == Active && g.health == Healthy
  }

  predicate IsBroken(g: GameServer) {
    g.state == Crashed || g.health == Unhealthy
  }

  predicate IsFinished(g: GameServer) {
    g.state == GameCompleted && g.health == Healthy
  }

  predicate IsOver(g: GameServer) {
    IsBroken(g) || IsFinished(g)
  }

  // The counts of a list in these terms.
  ghost predicate CountsByState(items: seq<GameServer>, c: Counts) {
    && c.pending == |Filter(items, IsPending)|
    && c.initializing == |Filter(items, IsHealthyInitializing)|
    && c.standingBy == |Filter(items, IsHealthyStandingBy)|
    && c.active == |Filter(items, IsHealthyActive)|
    && c.crashes == |Filter(items, IsBroken)|
  }

  lemma CountsByStateStep(items: seq<GameServer>, c: Counts)
    requires items != [] && CountsByState(items[..|items| - 1], c)
    ensures CountsByState(items, Tally(c, items[|items| - 1]))
  {
    hide Filter;
    FilterStep(items, IsPending);
    FilterStep(items, IsHealthyInitializing);
    FilterStep(items, IsHealthyStandingBy);
    FilterStep(items, IsHealthyActive);
    FilterStep(items, IsBroken);
  }

  /** Each server is counted under its own state if it is healthy, a new one
      unless it is unhealthy; the crash counter takes the crashed and unhealthy. */
  lemma {:induction false} CountersByState(items: seq<GameServer>)
    ensures CountsByState(items, CountsOf(items))
  {
    if items != [] {
      CountersByState(items[..|items| - 1]);
      CountsByStateStep(items, CountsOf(items[..|items| - 1]));
      hide CountsByState, Tally;
    }
  }

  /** The sweep deletes the broken servers and those whose game is over, in the
      order of the list, and nothing else. */
  lemma {:induction false} DoomedByState(items: seq<GameServer>)
    ensures Filter(items, IsDoomed) == Filter(items, IsOver)
  {
    if items != [] {
      DoomedByState(items[..|items| - 1]);
    }
  }

  lemma {:induction false} CountedCount(items: seq<GameServer>)
    ensures CountsOf(items).NonActive() + CountsOf(items).active == |Filter(items, IsCounted)|
  {
    hide Filter, Tally;
    if items != [] {
      CountedCount(items[..|items| - 1]);
      FilterStep(items, IsCounted);
      TallyAdds(CountsOf(items[..|items| - 1]), items[|items| - 1]);
    }
  }

  lemma CountedNamesBound(items: seq<GameServer>)
    ensures |CountedNames(items)| <= CountsOf(items).NonActive() + CountsOf(items).active
  {
    CountedCount(items);
    NamesSize(Filter(items, IsCounted));
  }

  lemma CrashNamesCount(items: seq<GameServer>)
    requires DistinctNames(items)
    ensures |CrashNames(items)| == CountsOf(items).crashes
  {
    CrashCount(items);
    FilterDistinct(items, IsCrash);
    NamesSize(Filter(items, IsCrash));
  }
}
