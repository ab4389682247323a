/** The build controller, the allocator, the cache and everybody else acting on
    the GameServers of one build, one API call or one cache event at a time. */
module ClusterRuns {
  import opened Options
  import opened GameServers
  import opened ApiStore
  import opened ReconcilePlan

  // A snapshot the allocator took when it queued a server.
  datatype Ticket = Ticket(name: string, version: nat)

  datatype System = System(
    store: Store,
    creating: set<string>,        // creation expectations of the build
    deleting: set<string>,        // deletion expectations of the build
    ctl: Ctl,                     // the pass in progress, if any
    queue: multiset<Ticket>,      // the allocator's queue for the build
    inflight: multiset<Ticket>,   // popped, patch not answered yet
    recorded: nat,                // the build's entry in crashesPerBuild
    counted: set<string>,         // history: servers whose crash is in recorded
    skipped: set<string>)         // history: servers the last creating pass matched to no branch

  datatype Event =
    // anybody else
    | Observe(name: string, upto: nat)
    | Write(name: string, state: State, health: Health)
    | Vanish(name: string)
    | Restart
    // the allocator
    | Enqueue(name: string)
    | Dequeue(ticket: Ticket)
    | Pop(ticket: Ticket)
    | Patch(ticket: Ticket, ok: bool)
    // the build controller
    | ForgetDeleted(name: string)
    | ForgetCreated(name: string)
    | Begin(items: seq<GameServer>, sorted: seq<GameServer>, spec: BuildSpec)
    | Call(call: ApiCall)
    | Finish
    | GiveUp

  const EMPTY: System :=
    System(Store(map[], 1), {}, {}, Idle, multiset{}, multiset{}, 0, {}, {})

  // The list a pass reads: every cached server of the build, once.
  ghost predicate IsCacheListing(s: Store, items: seq<GameServer>) {
    && DistinctNames(items)
    && NamesOf(items) == CachedNames(s)
    && (forall g :: g in items ==> Cached(s, g.name) == Some(g))
  }

  /** An API call of the build controller and its effect. */
  ghost predicate CallStep(s: System, call: ApiCall, s': System) {
    && Expects(s.ctl, call)
    && var t := s.(ctl := After(s.ctl, call));
    match call
    case Remove(name, ok) =>
      if ok then
        && Live(s.store, name).Some?
        && s' == t.(store := Deleted(s.store, name), deleting := s.deleting + {name})
      else s' == t
    case RemoveIf(g, outcome) =>
      if outcome == Ok then
        && Live(s.store, g.name).Some?
        && Live(s.store, g.name).value.version == g.version
        && s' == t.(store := Deleted(s.store, g.name), deleting := s.deleting + {g.name})
      else if outcome == Conflict then
        && Live(s.store, g.name).Some?
        && Live(s.store, g.name).value.version != g.version
        && s' == t
      else s' == t
    case Add(name, ok) =>
      if ok then
        && name !in s.store.records
        && s' == t.(store := Created(s.store, name), creating := s.creating + {name},
                    skipped := UnmatchedNames(s.ctl.plan.items))
      else s' == t
  }

  ghost predicate Step(s: System, e: Event, s': System) {
    match e
    case Observe(name, upto) =>
      && name in s.store.records
      && s.store.records[name].seen <= upto <= s.store.records[name].Length()
      && s' == s.(store := Observed(s.store, name, upto))
    case Write(name, state, health) =>
      && Live(s.store, name).Some?
      && s' == s.(store := Written(s.store, name, state, health))
    case Vanish(name) =>
      && Live(s.store, name).Some?
      && s' == s.(store := Deleted(s.store, name))
    case Restart =>
      // a new controller process: empty memory, and a cache filled before it starts
      s' == s.(store := Resynced(s.store), creating := {}, deleting := {}, ctl := Idle,
               queue := multiset{}, inflight := multiset{}, recorded := 0, counted := {})
    case Enqueue(name) =>
      && Cached(s.store, name).Some?
      && Cached(s.store, name).value.state == StandingBy
      && s' == s.(queue := s.queue + multiset{Ticket(name, Cached(s.store, name).value.version)})
    case Dequeue(t) =>
      && t in s.queue
      && s' == s.(queue := s.queue - multiset{t})
    case Pop(t) =>
      && t in s.queue
      && s' == s.(queue := s.queue - multiset{t}, inflight := s.inflight + multiset{t})
    case Patch(t, ok) =>
      && t in s.inflight
      && var u := s.(inflight := s.inflight - multiset{t});
      if ok then
        && Live(s.store, t.name).Some?
        && Live(s.store, t.name).value.version == t.version
        && s' == u.(store := Written(s.store, t.name, Active, Live(s.store, t.name).value.health))
      else s' == u
    case ForgetDeleted(name) =>
      && s.ctl.Idle?
      && name in s.deleting && Cached(s.store, name).None?
      && s' == s.(deleting := s.deleting - {name})
    case ForgetCreated(name) =>
      && s.ctl.Idle?
      && name in s.creating && Cached(s.store, name).Some?
      && s' == s.(creating := s.creating - {name})
    case Begin(items, sorted, spec) =>
      // both gates are open
      && s.ctl.Idle? && s.deleting == {} && s.creating == {}
      && IsCacheListing(s.store, items) && SortedByState(sorted, items)
      && s' == s.(ctl := Running(MakePlan(items, sorted, spec), 0, 0, 0, false))
    case Call(call) =>
      CallStep(s, call, s')
    case Finish =>
      && Succeeds(s.ctl)
      && s' == s.(ctl := Idle,
                  recorded := s.recorded + s.ctl.plan.counts.crashes,
                  counted := s.counted + CrashNames(s.ctl.plan.items))
    case GiveUp =>
      && GivesUp(s.ctl)
      && s' == s.(ctl := Idle)
  }

  datatype Run = Run(states: seq<System>, events: seq<Event>)

  ghost predicate IsRunFrom(start: System, r: Run) {
    && |r.states| == |r.events| + 1
    && r.states[0] == start
    && (forall i :: 0 <= i < |r.events| ==> Step(r.states[i], r.events[i], r.states[i + 1]))
  }

  // No pass of the run read a maximum above m from its build.
  ghost predicate MaxAtMost(r: Run, m: nat) {
    forall i :: 0 <= i < |r.events| ==> r.events[i].Begin? ==> r.events[i].spec.max <= m
  }

  // The invariant

  ghost predicate IsTicketOf(s: Store, t: Ticket) {
    exists g :: InHistory(s, g) && g.name == t.name && g.version == t.version && g.state == StandingBy
  }

  // Every live server is either cached or expected.
  ghost predicate Accounted(s: System) {
    forall n :: n in s.store.records && Live(s.store, n).Some? ==> Cached(s.store, n).Some? || n in s.creating
  }

  // A crash that has been tallied belongs to a removed server, and no pass can
  // read that server again: it is still expected to go, or gone from the cache.
  ghost predicate Buried(s: System, n: string) {
    && n in s.store.records && s.store.records[n].deleted && 0 < s.store.records[n].seen
    && (n in s.deleting || s.store.records[n].seen == s.store.records[n].Length())
  }

  ghost predicate TalliesOk(s: System) {
    && s.recorded == |s.counted|
    && (forall n :: n in s.counted ==> Buried(s, n))
  }

  ghost predicate TicketsOk(s: System) {
    forall t :: t in s.queue || t in s.inflight ==> IsTicketOf(s.store, t)
  }

  ghost predicate PlanOk(p: Plan, m: nat) {
    && DistinctNames(p.items)
    && (forall g :: g in p.targets ==> g in p.items && IsTrimmable(g))
    && p.doomed == Filter(p.items, IsDoomed)
    && p.counts == CountsOf(p.items)
    && (0 < p.want ==> p.counts.NonActive() + p.counts.active + p.want <= m)
  }

  ghost predicate ProgressOk(c: Ctl)
    requires c.Running?
  {
    && c.swept <= |c.plan.doomed| && c.trimmed <= |c.plan.targets| && c.grown <= c.plan.want
    && (0 < c.grown ==> c.swept == |c.plan.doomed|)
  }

  // The list of the pass was read from the cache.
  ghost predicate ListRead(s: System, items: seq<GameServer>) {
    && (forall g :: g in items ==> InHistory(s.store, g) && 0 < s.store.records[g.name].seen)
    && NamesOf(items) !! s.counted
  }

  ghost predicate Gone(s: System, name: string) {
    name in s.deleting && name in s.store.records && s.store.records[name].deleted
  }

  ghost predicate SweptOk(s: System)
    requires s.ctl.Running? && s.ctl.swept <= |s.ctl.plan.doomed|
  {
    forall i :: 0 <= i < s.ctl.swept ==> Gone(s, s.ctl.plan.doomed[i].name)
  }

  ghost predicate CoverOk(s: System)
    requires s.ctl.Running?
  {
    LiveNames(s.store) <= NamesOf(s.ctl.plan.items) + s.creating && |s.creating| <= s.ctl.grown
  }

  ghost predicate PassOk(s: System, m: nat) {
    s.ctl.Running? ==>
      && PlanOk(s.ctl.plan, m) && ProgressOk(s.ctl)
      && ListRead(s, s.ctl.plan.items) && SweptOk(s) && CoverOk(s)
  }

  ghost predicate Bounded(s: System, m: nat) {
    |LiveNames(s.store) - s.skipped| <= m
  }

  ghost predicate Inv(s: System, m: nat) {
    StoreOk(s.store) && Accounted(s) && TalliesOk(s) && TicketsOk(s) && PassOk(s, m) && Bounded(s, m)
  }

  lemma InitInv(m: nat)
    ensures Inv(EMPTY, m)
  {
    assert LiveNames(EMPTY.store) == {};
  }
}
