/** What every run of the port registry keeps, and what one call undoes. */
module PortTheorems {
  import opened MapSums
  import opened PortWalk
  import opened PortLedger

  // The pigeonhole argument

  function Ports(min: int, max: int): (ports: set<int>)
    requires min <= max + 1
    ensures forall port :: port in ports <==> min <= port <= max
    ensures |ports| == max - min + 1
    decreases max - min + 1
  {
    if min > max then {} else Ports(min, max - 1) + {max}
  }

  lemma TakeNotNegative(usage: map<int, int>, ports: seq<int>)
    requires NotNegative(usage)
    ensures NotNegative(Take(usage, ports))
  {
    forall p | p in Take(usage, ports) ensures 0 <= Take(usage, ports)[p] {
      TakeCounts(usage, ports, p);
      assert Get(usage, p) >= 0;
    }
  }

  // If every port of the range is used n times, the counts fill n nodes.
  lemma FullRange(range: Range, usage: map<int, int>, n: int)
    requires NotNegative(usage) && range.min <= range.max
    requires forall port :: range.Has(port) ==> port in usage && Get(usage, port) >= n
    ensures n * range.Size() <= Sum(usage)
  {
    var all := Ports(range.min, range.max);
    forall port | port in all ensures port in usage && n <= usage[port] {
      assert range.Has(port);
    }
    SumAtLeast(usage, all, n);
  }

  /** As long as the free count covers the request, no round of the scan comes
      back empty, no matter how the counts and the nodes got where they are. */
  lemma RunsDryNever(range: Range, base: map<int, int>, r: Registry, count: nat, r': Registry)
    requires Inv(range, base, r) && NotNegative(base) && count <= r.free
    ensures !RunsDry(range, r, count, r')
  {
    if RunsDry(range, r, count, r') {
      var ports: seq<int> :|
        && |ports| < count
        && r' == Registry(Take(r.usage, ports), r.held, r.nodes, r.free - |ports|, r'.next)
        && forall port :: range.Has(port) ==> Get(r'.usage, port) >= r.nodes;
      CountsNotNegative(range, base, r);
      TakeNotNegative(r.usage, ports);
      TakeSum(r.usage, ports);
      forall port | range.Has(port) ensures port in r'.usage {
        TakeCounts(r.usage, ports, port);
      }
      hide Counted, NotNegative, Take;
      FullRange(range, r'.usage, r.nodes);
    }
  }

  // The invariant is kept

  lemma GrantKeepsInv(range: Range, base: map<int, int>, r: Registry, name: string, ports: seq<int>, r': Registry)
    requires Inv(range, base, r) && name !in r.held && Grants(range, r, name, ports, r')
    ensures Inv(range, base, r')
  {
    var slots: seq<Slot>, end: Slot :|
      && Collects(range, r, slots, end, ports)
      && r' == Registry(Take(r.usage, ports), r.held[name := ports], r.nodes, r.free - |ports|,
                        PortAt(range, r.next, end.pos));
    TakeSum(r.usage, ports);
    PortAtStep(range, r.next, end);
    forall port ensures Get(r'.usage, port) == Get(base, port) + Occurrences(r'.held, port) {
      TakeCounts(r.usage, ports, port);
      OccurrencesOfNewName(r.held, name, ports, port);
    }
    forall port | range.Has(port) ensures port in r'.usage {
      TakeCounts(r.usage, ports, port);
    }
    forall port | port in ports ensures range.Has(port) {
      var i :| 0 <= i < |ports| && ports[i] == port;
      assert slots[i] in slots;
      PortAtStep(range, r.next, slots[i]);
    }
  }

  lemma ReleaseKeepsInv(range: Range, base: map<int, int>, r: Registry, name: string, r': Registry)
    requires Inv(range, base, r) && NotNegative(base) && name in r.held && Step(range, r, Release(name), r')
    ensures Inv(range, base, r') && r'.free == r.free + |r.held[name]|
  {
    var ports := r.held[name];
    AssignedAreCounted(range, base, r, name);
    GiveBackSum(r.usage, ports);
    forall port ensures Get(r'.usage, port) == Get(base, port) + Occurrences(r'.held, port) {
      GiveBackCounts(r.usage, ports, port);
      OccurrencesWithoutName(r.held, name, port);
    }
    forall port | range.Has(port) ensures port in r'.usage {
      GiveBackCounts(r.usage, ports, port);
    }
  }

  lemma OneMore(a: int, b: int)
    ensures (a + 1) * b == a * b + b && (a - 1) * b == a * b - b
  {
  }

  /** Capacity and per-port accounting hold after every operation. */
  lemma InvKept(range: Range, base: map<int, int>, r: Registry, op: Op, r': Registry)
    requires Inv(range, base, r) && NotNegative(base) && Step(range, r, op, r')
    ensures Inv(range, base, r')
  {
    match op
    case Allocate(name, count, grant) =>
      if grant.Granted? {
        GrantKeepsInv(range, base, r, name, grant.ports, r');
      } else if grant.NoAvailablePorts? {
        RunsDryNever(range, base, r, count, r');
      }
    case Release(name) =>
      if name in r.held {
        ReleaseKeepsInv(range, base, r, name, r');
      }
    case AddNode => OneMore(r.nodes, range.Size());
    case RemoveNode => OneMore(r.nodes, range.Size());
  }

  // Runs

  datatype Run = Run(states: seq<Registry>, ops: seq<Op>)

  ghost predicate IsRun(range: Range, run: Run) {
    && |run.states| == |run.ops| + 1
    && forall i :: 0 <= i < |run.ops| ==> Step(range, run.states[i], run.ops[i], run.states[i + 1])
  }

  lemma RunGrows(range: Range, run: Run, op: Op, r: Registry)
    requires IsRun(range, run) && Step(range, run.states[|run.ops|], op, r)
    ensures IsRun(range, Run(run.states + [r], run.ops + [op]))
  {
  }

  lemma {:induction false} InvAlong(range: Range, base: map<int, int>, run: Run, i: nat)
    requires IsRun(range, run) && i < |run.states|
    requires Inv(range, base, run.states[0]) && NotNegative(base)
    ensures Inv(range, base, run.states[i])
  {
    if i > 0 {
      InvAlong(range, base, run, i - 1);
      InvKept(range, base, run.states[i - 1], run.ops[i - 1], run.states[i]);
    }
  }

  /** In every run, FreePortsCount is the capacity of the nodes less all counts,
      and no port's count is below the number of times names hold it. */
  lemma CapacityIsConserved(range: Range, base: map<int, int>, run: Run, i: nat)
    requires IsRun(range, run) && i < |run.states|
    requires Inv(range, base, run.states[0]) && NotNegative(base)
    ensures run.states[i].free == run.states[i].nodes * range.Size() - Sum(run.states[i].usage)
    ensures range.Has(run.states[i].next)
    ensures forall port :: Occurrences(run.states[i].held, port) <= Get(run.states[i].usage, port)
  {
    InvAlong(range, base, run, i);
    assert forall port :: Get(base, port) >= 0;
  }

  /** The check of the free count decides every allocation: the scan behind it
      always succeeds, and a call that fails leaves no trace. */
  lemma AllocationSucceedsExactly(range: Range, base: map<int, int>, r: Registry,
                                  name: string, count: nat, grant: Grant, r': Registry)
    requires Inv(range, base, r) && NotNegative(base) && Step(range, r, Allocate(name, count, grant), r')
    ensures grant.Granted? <==> count <= r.free && name !in r.held
    ensures grant != NoAvailablePorts
    ensures !grant.Granted? ==> r' == r
  {
    if grant == NoAvailablePorts {
      RunsDryNever(range, base, r, count, r');
    }
  }

  // The same port is granted again only in a later lap.
  lemma EarlierVisit(range: Range, r: Registry, slots: seq<Slot>, end: Slot, ports: seq<int>, i: nat, j: nat)
    requires range.Has(r.next) && Collects(range, r, slots, end, ports) && i < j < |ports|
    ensures |slots| == |ports|
    ensures ports[i] == ports[j] ==> slots[i].lap < slots[j].lap
  {
    assert slots[i] in slots && slots[j] in slots && Before(slots[i], slots[j]);
    if ports[i] == ports[j] {
      PortAtInjective(range, r.next, slots[i].pos, slots[j].pos);
    }
  }

  // Before a visit in some lap, its port was granted at most once for each earlier lap.
  lemma {:induction false} GrantedOncePerLap(range: Range, r: Registry, slots: seq<Slot>, end: Slot, ports: seq<int>,
                                             k: nat, j: nat)
    requires range.Has(r.next) && Collects(range, r, slots, end, ports) && k <= j < |ports|
    ensures |slots| == |ports| && multiset(ports[..k])[ports[j]] <= slots[j].lap
  {
    assert |slots| == |ports|;
    hide Collects;
    if k > 0 {
      CountLast(ports[..k], ports[j]);
      assert ports[..k][..k - 1] == ports[..k - 1];
      EarlierVisit(range, r, slots, end, ports, k - 1, j);
      if ports[k - 1] == ports[j] {
        GrantedOncePerLap(range, r, slots, end, ports, k - 1, k - 1);
      } else {
        GrantedOncePerLap(range, r, slots, end, ports, k - 1, j);
      }
    }
  }

  lemma VisitHasRoom(range: Range, r: Registry, slots: seq<Slot>, end: Slot, ports: seq<int>, i: nat)
    requires range.Has(r.next) && Collects(range, r, slots, end, ports) && i < |ports|
    ensures |slots| == |ports| && range.Has(ports[i]) && Get(r.usage, ports[i]) + slots[i].lap < r.nodes
  {
    assert slots[i] in slots;
    PortAtStep(range, r.next, slots[i]);
  }

  lemma {:induction false} FirstPortsFit(range: Range, r: Registry, slots: seq<Slot>, end: Slot, ports: seq<int>,
                                         k: nat, port: int)
    requires range.Has(r.next) && Collects(range, r, slots, end, ports) && k <= |ports|
    requires port in ports[..k]
    ensures range.Has(port) && Get(r.usage, port) + multiset(ports[..k])[port] <= r.nodes
  {
    hide Collects;
    CountLast(ports[..k], port);
    assert ports[..k][..k - 1] == ports[..k - 1];
    if ports[k - 1] == port {
      VisitHasRoom(range, r, slots, end, ports, k - 1);
      GrantedOncePerLap(range, r, slots, end, ports, k - 1, k - 1);
    } else {
      FirstPortsFit(range, r, slots, end, ports, k - 1, port);
    }
  }

  /** Every port granted is in the range, and its count stays within the number of nodes. */
  lemma GrantedPortsFit(range: Range, r: Registry, name: string, count: nat, ports: seq<int>, r': Registry, port: int)
    requires range.Has(r.next) && Step(range, r, Allocate(name, count, Granted(ports)), r')
    requires port in ports
    ensures range.Has(port) && Get(r'.usage, port) <= r.nodes
  {
    var slots: seq<Slot>, end: Slot :|
      && Collects(range, r, slots, end, ports)
      && r' == Registry(Take(r.usage, ports), r.held[name := ports], r.nodes, r.free - |ports|,
                        PortAt(range, r.next, end.pos));
    assert ports[..|ports|] == ports;
    FirstPortsFit(range, r, slots, end, ports, |ports|, port);
    TakeCounts(r.usage, ports, port);
  }

  // Releasing undoes allocating

  predicate Concerns(op: Op, name: string) {
    (op.Allocate? || op.Release?) && op.name == name
  }

  lemma {:induction false} HeldWhileOthersWork(range: Range, run: Run, name: string, from: nat, to: nat)
    requires IsRun(range, run) && from <= to < |run.states| && name in run.states[from].held
    requires forall i :: from <= i < to ==> !Concerns(run.ops[i], name)
    ensures name in run.states[to].held && run.states[to].held[name] == run.states[from].held[name]
  {
    if from < to {
      HeldWhileOthersWork(range, run, name, from, to - 1);
      var op, r, r' := run.ops[to - 1], run.states[to - 1], run.states[to];
      assert Step(range, r, op, r') && !Concerns(op, name);
    }
  }

  /** A run that begins by granting a name its ports and ends by releasing the
      name changes each count, and the free count, just as its middle does:
      whatever other names and the nodes did meanwhile, the grant leaves no
      trace, every one of its ports was given back, and releasing it once more
      does nothing. */
  lemma ReleaseUndoesAllocation(range: Range, base: map<int, int>, run: Run, name: string, ports: seq<int>,
                                last: nat, port: int, again: Registry)
    requires IsRun(range, run) && Inv(range, base, run.states[0]) && NotNegative(base)
    requires |run.ops| == last + 1 >= 2
    requires run.ops[0] == Allocate(name, |ports|, Granted(ports)) && run.ops[last] == Release(name)
    requires forall i :: 1 <= i < last ==> !Concerns(run.ops[i], name)
    ensures name in run.states[last].held && run.states[last].held[name] == ports
    ensures GivenBack(run.states[last].usage, ports) == |ports|
    ensures run.states[last + 1].held == run.states[last].held - {name}
    ensures Get(run.states[last + 1].usage, port) - Get(run.states[0].usage, port)
         == Get(run.states[last].usage, port) - Get(run.states[1].usage, port)
    ensures run.states[last + 1].free - run.states[0].free == run.states[last].free - run.states[1].free
    ensures Step(range, run.states[last + 1], Release(name), again) ==> again == run.states[last + 1]
  {
    assert Step(range, run.states[0], run.ops[0], run.states[1]);
    assert run.states[1].held == run.states[0].held[name := ports];
    HeldWhileOthersWork(range, run, name, 1, last);
    InvAlong(range, base, run, last);
    assert Step(range, run.states[last], run.ops[last], run.states[last + 1]);
    AssignedAreCounted(range, base, run.states[last], name);
    GiveBackSum(run.states[last].usage, ports);
    GiveBackCounts(run.states[last].usage, ports, port);
    TakeCounts(run.states[0].usage, ports, port);
  }

  // The simple specification of the scan

  function Stop(positions: seq<nat>): nat {
    if positions == [] then 0 else positions[|positions| - 1] + 1
  }

  /** The ports are those of increasing positions on the circle, and these are
      exactly the positions up to the last one whose port had room. */
  ghost predicate Selects(range: Range, r: Registry, positions: seq<nat>, ports: seq<int>) {
    && |positions| == |ports| && Stop(positions) <= range.Size()
    && (forall i, j :: 0 <= i < j < |positions| ==> positions[i] < positions[j])
    && (forall pos: nat :: pos in positions <==>
          pos < Stop(positions) && Get(r.usage, PortAt(range, r.next, pos)) < r.nodes)
    && (forall i :: 0 <= i < |ports| ==> ports[i] == PortAt(range, r.next, positions[i]))
  }

  lemma {:induction false} ListedAtLeast(ports: set<int>, listed: seq<int>)
    requires forall port :: port in ports ==> port in listed
    ensures |ports| <= |listed|
  {
    if listed == [] {
      forall port ensures port !in ports {
        assert port !in listed;
      }
      assert ports == {};
    } else {
      ListedAtLeast(ports - {listed[0]}, listed[1..]);
      assert ports <= ports - {listed[0]} + {listed[0]};
      assert |ports| <= |ports - {listed[0]}| + 1;
    }
  }

  // A visit of a later lap comes after a visit of each port that had room.
  lemma LaterLap(range: Range, r: Registry, slots: seq<Slot>, end: Slot, ports: seq<int>, j: nat)
    requires range.Has(r.next) && Collects(range, r, slots, end, ports) && j < |slots| && slots[j].lap > 0
    ensures |Available(r.usage, r.nodes, range)| <= j
  {
    var available := Available(r.usage, r.nodes, range);
    assert slots[j] in slots;
    forall port | port in available ensures port in ports[..j] {
      var pos := PortAtOnto(range, r.next, port);
      assert Offers(r.usage, r.nodes, range, r.next, Slot(0, pos)) && Before(Slot(0, pos), end);
      var i :| 0 <= i < |slots| && slots[i] == Slot(0, pos);
      assert i < j && ports[..j][i] == port;
    }
    ListedAtLeast(available, ports[..j]);
  }

  ghost predicate InFirstLap(range: Range, slots: seq<Slot>, positions: seq<nat>) {
    && |positions| == |slots|
    && forall i :: 0 <= i < |slots| ==> slots[i] == Slot(0, positions[i]) && positions[i] < range.Size()
  }

  lemma FirstLapPosition(range: Range, r: Registry, slots: seq<Slot>, end: Slot, ports: seq<int>, positions: seq<nat>,
                         pos: nat)
    requires Collects(range, r, slots, end, ports) && InFirstLap(range, slots, positions)
    ensures pos in positions <==> pos < Stop(positions) && Get(r.usage, PortAt(range, r.next, pos)) < r.nodes
  {
    var slot := Slot(0, pos);
    if pos in positions {
      var i :| 0 <= i < |positions| && positions[i] == pos;
      assert slots[i] == slot;
    }
    if slot in slots {
      var i :| 0 <= i < |slots| && slots[i] == slot;
      assert positions[i] == pos;
    }
    assert slot in slots <==> Offers(r.usage, r.nodes, range, r.next, slot) && Before(slot, end);
  }

  lemma FirstLapEnd(range: Range, slots: seq<Slot>, end: Slot, positions: seq<nat>)
    requires range.Size() > 0 && InFirstLap(range, slots, positions)
    requires if slots == [] then end == Slot(0, 0) else end == NextSlot(range, slots[|slots| - 1])
    ensures Stop(positions) <= range.Size()
    ensures end.pos == Stop(positions) % range.Size()
  {
  }

  lemma OneLap(range: Range, r: Registry, slots: seq<Slot>, end: Slot, ports: seq<int>) returns (positions: seq<nat>)
    requires range.Has(r.next) && Collects(range, r, slots, end, ports)
    requires forall i :: 0 <= i < |slots| ==> slots[i].lap == 0
    ensures Selects(range, r, positions, ports)
    ensures end.pos == Stop(positions) % range.Size()
  {
    positions := seq(|slots|, i requires 0 <= i < |slots| => slots[i].pos);
    forall i | 0 <= i < |slots| ensures slots[i] == Slot(0, positions[i]) && positions[i] < range.Size() {
      assert slots[i] in slots;
    }
    FirstLapEnd(range, slots, end, positions);
    forall i, j | 0 <= i < j < |positions| ensures positions[i] < positions[j] {
      assert Before(slots[i], slots[j]);
    }
    forall pos: nat
      ensures pos in positions <==> pos < Stop(positions) && Get(r.usage, PortAt(range, r.next, pos)) < r.nodes
    {
      FirstLapPosition(range, r, slots, end, ports, positions, pos);
    }
  }

  /** When enough ports of the range had room, the ports granted are simply the
      first such ports round the circle, each once, and the next scan begins
      just past the last of them. */
  lemma GrantsFirstAvailable(range: Range, r: Registry, name: string, count: nat, ports: seq<int>, r': Registry)
      returns (positions: seq<nat>)
    requires range.Has(r.next) && Step(range, r, Allocate(name, count, Granted(ports)), r')
    requires count <= |Available(r.usage, r.nodes, range)|
    ensures Selects(range, r, positions, ports)
    ensures r'.next == PortAt(range, r.next, Stop(positions) % range.Size())
    ensures forall i, j :: 0 <= i < j < |ports| ==> ports[i] != ports[j]
  {
    var slots: seq<Slot>, end: Slot :|
      && Collects(range, r, slots, end, ports)
      && r' == Registry(Take(r.usage, ports), r.held[name := ports], r.nodes, r.free - |ports|,
                        PortAt(range, r.next, end.pos));
    forall j | 0 <= j < |slots| ensures slots[j].lap == 0 {
      if slots[j].lap > 0 {
        LaterLap(range, r, slots, end, ports, j);
      }
    }
    positions := OneLap(range, r, slots, end, ports);
    forall i, j | 0 <= i < j < |ports| ensures ports[i] != ports[j] {
      if ports[i] == ports[j] {
        PortAtInjective(range, r.next, positions[i], positions[j]);
      }
    }
  }
}
