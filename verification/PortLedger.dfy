/** The port registry as a state machine: what allocation, release and node
    changes do to the usage counts, the free count and the ports held. */
module PortLedger {
  import opened MapSums
  import opened PortWalk

  datatype Registry = Registry(
    usage: map<int, int>, held: map<string, seq<int>>, nodes: int, free: int, next: int)

  datatype Grant = NotEnoughFreePorts | AlreadyAssigned | NoAvailablePorts | Granted(ports: seq<int>)

  datatype Op =
    | Allocate(name: string, count: nat, grant: Grant)
    | Release(name: string)
    | AddNode
    | RemoveNode

  // Ports are taken one after the other, each raising its own count.
  function Take(usage: map<int, int>, ports: seq<int>): map<int, int> {
    if ports == [] then usage
    else
      var before := Take(usage, ports[..|ports| - 1]);
      var port := ports[|ports| - 1];
      before[port := Get(before, port) + 1]
  }

  // Ports are given back one after the other; a count of zero is left alone.
  function GiveBack(usage: map<int, int>, ports: seq<int>): map<int, int> {
    if ports == [] then usage
    else
      var before := GiveBack(usage, ports[..|ports| - 1]);
      var port := ports[|ports| - 1];
      if Get(before, port) > 0 then before[port := Get(before, port) - 1] else before
  }

  function GivenBack(usage: map<int, int>, ports: seq<int>): nat {
    if ports == [] then 0
    else
      var before := GiveBack(usage, ports[..|ports| - 1]);
      GivenBack(usage, ports[..|ports| - 1]) + if Get(before, ports[|ports| - 1]) > 0 then 1 else 0
  }

  /** The ports are those of the given visits, which are all the visits that
      offer a port up to and including the last one granted. */
  ghost predicate Collects(range: Range, r: Registry, slots: seq<Slot>, end: Slot, ports: seq<int>) {
    && IsWalk(r.usage, r.nodes, range, r.next, slots, end)
    && |slots| == |ports|
    && (forall i :: 0 <= i < |ports| ==> ports[i] == PortAt(range, r.next, slots[i].pos))
    && (if slots == [] then end == Slot(0, 0) else end == NextSlot(range, slots[|slots| - 1]))
  }

  lemma CollectsNone(range: Range, r: Registry)
    requires range.Has(r.next)
    ensures Collects(range, r, [], Slot(0, 0), []) && Take(r.usage, []) == r.usage
    ensures PortAt(range, r.next, 0) == r.next
  {
    WalkBegins(r.usage, r.nodes, range, r.next);
  }

  lemma CollectsOneMore(range: Range, r: Registry, slots: seq<Slot>, end: Slot, ports: seq<int>, last: Slot, port: int)
    requires Collects(range, r, slots, end, ports) && port == PortAt(range, r.next, last.pos)
    requires IsWalk(r.usage, r.nodes, range, r.next, slots + [last], NextSlot(range, last))
    ensures Collects(range, r, slots + [last], NextSlot(range, last), ports + [port])
    ensures var before := Take(r.usage, ports);
            Take(r.usage, ports + [port]) == before[port := Get(before, port) + 1]
  {
    hide IsWalk;
    assert (ports + [port])[..|ports|] == ports;
  }

  lemma CollectsWalk(range: Range, r: Registry, slots: seq<Slot>, end: Slot, ports: seq<int>)
    requires Collects(range, r, slots, end, ports)
    ensures IsWalk(r.usage, r.nodes, range, r.next, slots, end)
  {
  }

  ghost predicate Grants(range: Range, r: Registry, name: string, ports: seq<int>, r': Registry) {
    exists slots: seq<Slot>, end: Slot ::
      && Collects(range, r, slots, end, ports)
      && r' == Registry(Take(r.usage, ports), r.held[name := ports], r.nodes, r.free - |ports|,
                        PortAt(range, r.next, end.pos))
  }

  /** What is left behind when a whole round finds no port: the ports found
      before stay counted, but nobody holds them. */
  ghost predicate RunsDry(range: Range, r: Registry, count: nat, r': Registry) {
    exists ports: seq<int> ::
      && |ports| < count
      && r' == Registry(Take(r.usage, ports), r.held, r.nodes, r.free - |ports|, r'.next)
      && forall port :: range.Has(port) ==> Get(r'.usage, port) >= r.nodes
  }

  ghost predicate Step(range: Range, r: Registry, op: Op, r': Registry) {
    match op
    case Allocate(name, count, NotEnoughFreePorts) => count > r.free && r' == r
    case Allocate(name, count, AlreadyAssigned) => count <= r.free && name in r.held && r' == r
    case Allocate(name, count, NoAvailablePorts) =>
      count <= r.free && name !in r.held && RunsDry(range, r, count, r')
    case Allocate(name, count, Granted(ports)) =>
      count <= r.free && name !in r.held && |ports| == count && Grants(range, r, name, ports, r')
    case Release(name) =>
      if name !in r.held then r' == r
      else
        var ports := r.held[name];
        r' == r.(usage := GiveBack(r.usage, ports), held := r.held - {name},
                 free := r.free + GivenBack(r.usage, ports))
    case AddNode => r' == r.(nodes := r.nodes + 1, free := r.free + range.Size())
    case RemoveNode => r' == r.(nodes := r.nodes - 1, free := r.free - range.Size())
  }

  // How often a port occurs among all the held ports

  function Uses(held: map<string, seq<int>>, port: int): map<string, int> {
    map name | name in held :: multiset(held[name])[port]
  }

  ghost function Occurrences(held: map<string, seq<int>>, port: int): int {
    Sum(Uses(held, port))
  }

  lemma OccurrencesOfNewName(held: map<string, seq<int>>, name: string, ports: seq<int>, port: int)
    requires name !in held
    ensures Occurrences(held[name := ports], port) == Occurrences(held, port) + multiset(ports)[port]
  {
    assert Uses(held[name := ports], port) == Uses(held, port)[name := multiset(ports)[port]];
    SumUpdate(Uses(held, port), name, multiset(ports)[port]);
  }

  lemma OccurrencesWithoutName(held: map<string, seq<int>>, name: string, port: int)
    requires name in held
    ensures Occurrences(held, port) == Occurrences(held - {name}, port) + multiset(held[name])[port]
  {
    assert Uses(held - {name}, port) == Uses(held, port) - {name};
    SumWithout(Uses(held, port), name);
  }

  lemma OccurrencesNotNegative(held: map<string, seq<int>>, port: int)
    ensures 0 <= Occurrences(held, port)
  {
    SumNotNegative(Uses(held, port));
  }

  // What taking and giving back does to the counts

  lemma CountLast(ports: seq<int>, port: int)
    requires ports != []
    ensures multiset(ports)[port]
         == multiset(ports[..|ports| - 1])[port] + if ports[|ports| - 1] == port then 1 else 0
  {
    assert ports == ports[..|ports| - 1] + [ports[|ports| - 1]];
  }

  lemma {:induction false} TakeCounts(usage: map<int, int>, ports: seq<int>, port: int)
    ensures Get(Take(usage, ports), port) == Get(usage, port) + multiset(ports)[port]
    ensures port in usage ==> port in Take(usage, ports)
  {
    if ports != [] {
      TakeCounts(usage, ports[..|ports| - 1], port);
      CountLast(ports, port);
    }
  }

  lemma {:induction false} TakeSum(usage: map<int, int>, ports: seq<int>)
    ensures Sum(Take(usage, ports)) == Sum(usage) + |ports|
  {
    if ports != [] {
      var before := Take(usage, ports[..|ports| - 1]);
      var port := ports[|ports| - 1];
      TakeSum(usage, ports[..|ports| - 1]);
      SumUpdate(before, port, Get(before, port) + 1);
    }
  }

  // Counts that cover the ports are never zero when their turn comes.
  lemma {:induction false} GiveBackCounts(usage: map<int, int>, ports: seq<int>, port: int)
    requires forall p :: multiset(ports)[p] <= Get(usage, p)
    ensures Get(GiveBack(usage, ports), port) == Get(usage, port) - multiset(ports)[port]
    ensures port in usage ==> port in GiveBack(usage, ports)
  {
    if ports != [] {
      var first, last := ports[..|ports| - 1], ports[|ports| - 1];
      forall p ensures multiset(first)[p] <= Get(usage, p) {
        CountLast(ports, p);
      }
      GiveBackCounts(usage, first, port);
      GiveBackCounts(usage, first, last);
      CountLast(ports, port);
      CountLast(ports, last);
    }
  }

  lemma {:induction false} GiveBackSum(usage: map<int, int>, ports: seq<int>)
    requires forall p :: multiset(ports)[p] <= Get(usage, p)
    ensures GivenBack(usage, ports) == |ports|
    ensures Sum(GiveBack(usage, ports)) == Sum(usage) - |ports|
  {
    if ports != [] {
      var first, last := ports[..|ports| - 1], ports[|ports| - 1];
      forall p ensures multiset(first)[p] <= Get(usage, p) {
        CountLast(ports, p);
      }
      GiveBackSum(usage, first);
      GiveBackCounts(usage, first, last);
      CountLast(ports, last);
      var before := GiveBack(usage, first);
      SumUpdate(before, last, Get(before, last) - 1);
    }
  }

  // The invariant

  /** base holds the counts registered at start-up, which no name owns. */
  ghost predicate Counted(base: map<int, int>, r: Registry) {
    forall port :: Get(r.usage, port) == Get(base, port) + Occurrences(r.held, port)
  }

  ghost predicate Inv(range: Range, base: map<int, int>, r: Registry) {
    && range.Has(r.next)
    && (forall port :: range.Has(port) ==> port in r.usage)
    && r.free == r.nodes * range.Size() - Sum(r.usage)
    && Counted(base, r)
    && (forall name :: name in r.held ==> forall port :: port in r.held[name] ==> range.Has(port))
  }

  predicate NotNegative(usage: map<int, int>) {
    forall port :: port in usage ==> 0 <= usage[port]
  }

  // Every port some name holds is counted, and so are all of them together.
  lemma AssignedAreCounted(range: Range, base: map<int, int>, r: Registry, name: string)
    requires Inv(range, base, r) && NotNegative(base) && name in r.held
    ensures forall p :: multiset(r.held[name])[p] <= Get(r.usage, p)
  {
    forall p ensures multiset(r.held[name])[p] <= Get(r.usage, p) {
      OccurrencesWithoutName(r.held, name, p);
      OccurrencesNotNegative(r.held - {name}, p);
    }
  }

  lemma CountsNotNegative(range: Range, base: map<int, int>, r: Registry)
    requires Inv(range, base, r) && NotNegative(base)
    ensures NotNegative(r.usage)
  {
    forall port | port in r.usage ensures 0 <= r.usage[port] {
      OccurrencesNotNegative(r.held, port);
      assert Get(r.usage, port) == r.usage[port];
    }
  }
}
