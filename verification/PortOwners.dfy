/** Whose the held ports are: creations of game servers and the registry
    together, until the controller restarts. */
module PortOwners {
  import opened PortWalk
  import opened PortLedger
  import opened PodPorts
  import opened PortRegistries
  import opened HostPortAssignment
  import QueueSpec

  // made: the namespaced names of all servers the API server ever accepted.
  datatype Fleet = Fleet(registry: Registry, made: set<string>)

  datatype Event =
    // ports are asked for, and only if they are granted is the server created
    | Create(name: string, count: nat, grant: Grant, accepted: bool)
    // a server that exists no longer is reconciled
    | Reconciled(name: string)
    | NodesChange(op: Op)

  predicate Wasted(e: Event) {
    e.Create? && e.grant.Granted? && !e.accepted
  }

  ghost predicate Step(range: Range, s: Fleet, e: Event, s': Fleet) {
    match e
    case Create(name, count, grant, accepted) =>
      && name !in s.made && (accepted ==> grant.Granted?)   // names are generated anew
      && PortLedger.Step(range, s.registry, Allocate(name, count, grant), s'.registry)
      && s'.made == if accepted then s.made + {name} else s.made
    case Reconciled(name) =>
      && name in s.made   // only what existed is ever reconciled
      && PortLedger.Step(range, s.registry, Release(name), s'.registry)
      && s'.made == s.made
    case NodesChange(op) =>
      && (op == AddNode || op == RemoveNode)
      && PortLedger.Step(range, s.registry, op, s'.registry)
      && s'.made == s.made
  }

  datatype Run = Run(states: seq<Fleet>, events: seq<Event>)

  // One life of the controller: it starts with ports in use but held by nobody.
  ghost predicate IsRun(range: Range, r: Run) {
    && |r.states| == |r.events| + 1
    && r.states[0].registry.held == map[]
    && (forall i :: 0 <= i < |r.events| ==> Step(range, r.states[i], r.events[i], r.states[i + 1]))
  }

  // Ports held by a name no server has.
  ghost predicate Leaks(s: Fleet, name: string) {
    name in s.registry.held && name !in s.made
  }

  lemma LeakStep(range: Range, s: Fleet, e: Event, s': Fleet, name: string)
    requires Step(range, s, e, s')
    ensures Leaks(s, name) ==> Leaks(s', name) && s'.registry.held[name] == s.registry.held[name]
    ensures Leaks(s', name) ==> Leaks(s, name) || (Wasted(e) && e.name == name)
    ensures Wasted(e) && e.name == name ==> Leaks(s', name) && s'.registry.held[name] == e.grant.ports
  {
  }

  lemma NoLeakAtFirst(range: Range, r: Run, name: string)
    requires IsRun(range, r)
    ensures !Leaks(r.states[0], name)
  {
    hide Step;
  }

  /** A creation that fails after its ports were granted leaks them for as long
      as the controller lives, and nothing else leaks any. */
  lemma {:induction false} LeaksExactly(range: Range, r: Run, i: nat, name: string)
    requires IsRun(range, r) && i <= |r.events|
    ensures Leaks(r.states[i], name) <==> exists k :: 0 <= k < i && Wasted(r.events[k]) && r.events[k].name == name
  {
    hide Step, Leaks;
    if i > 0 {
      LeaksExactly(range, r, i - 1, name);
      LeakStep(range, r.states[i - 1], r.events[i - 1], r.states[i], name);
    } else {
      NoLeakAtFirst(range, r, name);
    }
  }

  /** The very ports that were granted stay held. */
  lemma {:induction false} LeakKeepsPorts(range: Range, r: Run, k: nat, i: nat)
    requires IsRun(range, r) && k < i <= |r.events| && Wasted(r.events[k])
    ensures Leaks(r.states[i], r.events[k].name)
    ensures r.states[i].registry.held[r.events[k].name] == r.events[k].grant.ports
  {
    if k < i - 1 {
      LeakKeepsPorts(range, r, k, i - 1);
    }
    LeakStep(range, r.states[i - 1], r.events[i - 1], r.states[i], r.events[k].name);
    hide Step;
  }

  /** The names that hold ports all belong to servers that existed exactly when
      no creation failed after its ports were granted. */
  lemma HoldersExisted(range: Range, r: Run, i: nat)
    requires IsRun(range, r) && i <= |r.events|
    ensures r.states[i].registry.held.Keys <= r.states[i].made
       <==> forall k :: 0 <= k < i ==> !Wasted(r.events[k])
  {
    var s := r.states[i];
    if k :| 0 <= k < i && Wasted(r.events[k]) {
      LeaksExactly(range, r, i, r.events[k].name);
      assert Leaks(s, r.events[k].name);
    } else {
      forall name | name in s.registry.held
        ensures name in s.made
      {
        LeaksExactly(range, r, i, name);
      }
    }
  }

  const ONE_PORT := Range(1, 1)
  const UNUSED := Fleet(Registry(map[1 := 0], map[], 1, 1, 1), {})
  const LEAKED := Fleet(Registry(map[1 := 1], map["a" := [1]], 1, 0, 1), {})

  lemma OnePortIsGranted()
    ensures Grants(ONE_PORT, UNUSED.registry, "a", [1], LEAKED.registry)
  {
    var slots, end := [Slot(0, 0)], Slot(1, 0);
    assert IsWalk(UNUSED.registry.usage, 1, ONE_PORT, 1, slots, end);
    assert Collects(ONE_PORT, UNUSED.registry, slots, end, [1]);
    assert [1][..0] == [];
    assert Take(UNUSED.registry.usage, [1]) == map[1 := 1];
  }

  /** The condition is needed: a registry in good order, one creation that the
      API server refuses, and the only port is held by the name of no server. */
  lemma RefusedCreationHolds() returns (r: Run)
    ensures IsRun(ONE_PORT, r) && Inv(ONE_PORT, r.states[0].registry.usage, r.states[0].registry)
    ensures r.events == [Create("a", 1, Granted([1]), false)]
    ensures r.states[1].made == {} && r.states[1].registry.held == map["a" := [1]] && r.states[1].registry.free == 0
  {
    OnePortIsGranted();
    hide Grants;
    r := Run([UNUSED, LEAKED], [Create("a", 1, Granted([1]), false)]);
  }

  datatype Creation = Accepted | NotAccepted | Panicked

  /** What one creation of the controller does: ports, then the object. An index
      out of range ends the process, and the registry with it. */
  method CreateGameServer(registry: PortRegistry, spec: PodSpec, portsToExpose: seq<int>, namespace: string, name: string,
                          apiAccepts: bool, ghost made: set<string>)
    returns (r: Creation, grant: Grant)
    requires registry.Valid() && QueueSpec.Key(namespace, name) !in made
    modifies registry
    ensures registry.Valid()
    ensures var key := QueueSpec.Key(namespace, name);
            Step(registry.InRange(), Fleet(old(registry.View()), made),
                 Create(key, |portsToExpose|, grant, r == Accepted),
                 Fleet(registry.View(), if r == Accepted then made + {key} else made))
    ensures r == Accepted <==>
      grant.Granted? && apiAccepts && CountExposed(AllPorts(spec.containers), portsToExpose) <= |grant.ports|
    ensures r == Panicked <==>
      grant.Granted? && CountExposed(AllPorts(spec.containers), portsToExpose) > |grant.ports|
  {
    var server;
    server, grant := NewGameServer(registry, spec, portsToExpose, namespace, name);
    r := if server.IndexOutOfRange? then Panicked
         else if server.Created? && apiAccepts then Accepted
         else NotAccepted;
  }

  method ReconcileMissing(registry: PortRegistry, namespace: string, name: string, ghost made: set<string>)
    requires registry.Valid() && QueueSpec.Key(namespace, name) in made
    modifies registry
    ensures registry.Valid()
    ensures Step(registry.InRange(), Fleet(old(registry.View()), made), Reconciled(QueueSpec.Key(namespace, name)),
                 Fleet(registry.View(), made))
  {
    var ports := registry.DeregisterPorts(namespace, name);
  }
}
