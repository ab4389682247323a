/** The circular walk over the port range that hands out host ports. */
module PortWalk {
  import opened MapSums

  datatype Range = Range(min: int, max: int) {
    function Size(): int {
      max - min + 1
    }

    predicate Has(port: int) {
      min <= port <= max
    }
  }

  // The pos-th port of the circle that begins at start.
  function PortAt(range: Range, start: int, pos: nat): int {
    if start + pos <= range.max then start + pos else start + pos - range.Size()
  }

  function NextPort(range: Range, port: int): int {
    if port + 1 > range.max then range.min else port + 1
  }

  // A visit of the walk: the pos-th port of the circle, the lap-th time round.
  datatype Slot = Slot(lap: nat, pos: nat)

  predicate Before(a: Slot, b: Slot) {
    a.lap < b.lap || (a.lap == b.lap && a.pos < b.pos)
  }

  function NextSlot(range: Range, s: Slot): Slot {
    if s.pos + 1 < range.Size() then Slot(s.lap, s.pos + 1) else Slot(s.lap + 1, 0)
  }

  // On entry the port was used so rarely that this visit still finds it free.
  predicate Offers(usage: map<int, int>, nodes: int, range: Range, start: int, s: Slot) {
    s.pos < range.Size() && Get(usage, PortAt(range, start, s.pos)) + s.lap < nodes
  }

  /** slots are, in order, all the visits before end that offer a port. */
  ghost predicate IsWalk(usage: map<int, int>, nodes: int, range: Range, start: int, slots: seq<Slot>, end: Slot) {
    && end.pos < range.Size()
    && (forall i, j :: 0 <= i < j < |slots| ==> Before(slots[i], slots[j]))
    && (forall s :: s in slots <==> Offers(usage, nodes, range, start, s) && Before(s, end))
  }

  // How often position pos has been visited before end.
  function Visits(pos: nat, end: Slot): nat {
    end.lap + if pos < end.pos then 1 else 0
  }

  function UsedAfter(used: int, nodes: int, visits: nat): int {
    if used >= nodes then used
    else if visits <= nodes - used then used + visits
    else nodes
  }

  // The usage counts in the middle of the walk.
  ghost predicate UsageAt(before: map<int, int>, usage: map<int, int>, nodes: int, range: Range, start: int, end: Slot) {
    forall pos: nat :: pos < range.Size() ==>
      Get(usage, PortAt(range, start, pos)) == UsedAfter(Get(before, PortAt(range, start, pos)), nodes, Visits(pos, end))
  }

  lemma PortAtStep(range: Range, start: int, s: Slot)
    requires range.Has(start) && s.pos < range.Size()
    ensures range.Has(PortAt(range, start, s.pos))
    ensures PortAt(range, start, NextSlot(range, s).pos) == NextPort(range, PortAt(range, start, s.pos))
  {
  }

  lemma PortAtInjective(range: Range, start: int, a: nat, b: nat)
    requires range.Has(start) && a < range.Size() && b < range.Size()
    requires PortAt(range, start, a) == PortAt(range, start, b)
    ensures a == b
  {
  }

  // Every port of the range is on the circle.
  lemma PortAtOnto(range: Range, start: int, port: int) returns (pos: nat)
    requires range.Has(start) && range.Has(port)
    ensures pos < range.Size() && PortAt(range, start, pos) == port
  {
    pos := if port >= start then port - start else port - start + range.Size();
  }

  lemma VisitFinds(before: map<int, int>, usage: map<int, int>, nodes: int, range: Range, start: int, end: Slot)
    requires UsageAt(before, usage, nodes, range, start, end) && end.pos < range.Size()
    ensures Get(usage, PortAt(range, start, end.pos)) < nodes <==> Offers(before, nodes, range, start, end)
  {
  }

  // One visit of the walk, whether it takes the port or passes it.
  lemma VisitCounts(before: map<int, int>, usage: map<int, int>, nodes: int, range: Range, start: int, end: Slot)
    requires range.Has(start) && UsageAt(before, usage, nodes, range, start, end) && end.pos < range.Size()
    ensures var port := PortAt(range, start, end.pos);
            var usage' := if Get(usage, port) < nodes then usage[port := Get(usage, port) + 1] else usage;
            UsageAt(before, usage', nodes, range, start, NextSlot(range, end))
  {
    var port := PortAt(range, start, end.pos);
    var usage' := if Get(usage, port) < nodes then usage[port := Get(usage, port) + 1] else usage;
    forall pos: nat | pos < range.Size()
      ensures Get(usage', PortAt(range, start, pos))
           == UsedAfter(Get(before, PortAt(range, start, pos)), nodes, Visits(pos, NextSlot(range, end)))
    {
      if pos != end.pos && PortAt(range, start, pos) == port {
        PortAtInjective(range, start, pos, end.pos);
      }
      assert Get(usage, PortAt(range, start, pos))
          == UsedAfter(Get(before, PortAt(range, start, pos)), nodes, Visits(pos, end));
    }
  }

  lemma VisitExtends(before: map<int, int>, nodes: int, range: Range, start: int, slots: seq<Slot>, end: Slot)
    requires IsWalk(before, nodes, range, start, slots, end)
    ensures var slots' := if Offers(before, nodes, range, start, end) then slots + [end] else slots;
            IsWalk(before, nodes, range, start, slots', NextSlot(range, end))
  {
    assert forall s: Slot :: s.pos < range.Size() ==>
      (Before(s, NextSlot(range, end)) <==> Before(s, end) || s == end);
    var slots' := slots + [end];
    assert forall s :: s in slots' <==> s in slots || s == end;
    forall i, j | 0 <= i < j < |slots'|
      ensures Before(slots'[i], slots'[j])
    {
      assert slots'[i] == slots[i] && slots[i] in slots;
    }
  }

  /** One visit: the port is taken exactly when its count on entry and the laps
      before leave room for it, and the walk goes on to the next port. */
  lemma Visit(before: map<int, int>, usage: map<int, int>, nodes: int, range: Range, start: int,
              slots: seq<Slot>, end: Slot)
    requires range.Has(start) && IsWalk(before, nodes, range, start, slots, end)
    requires UsageAt(before, usage, nodes, range, start, end)
    ensures var port := PortAt(range, start, end.pos);
            var found := Get(usage, port) < nodes;
            && IsWalk(before, nodes, range, start, if found then slots + [end] else slots, NextSlot(range, end))
            && UsageAt(before, if found then usage[port := Get(usage, port) + 1] else usage, nodes, range, start,
                       NextSlot(range, end))
            && range.Has(port) && PortAt(range, start, NextSlot(range, end).pos) == NextPort(range, port)
  {
    VisitFinds(before, usage, nodes, range, start, end);
    VisitCounts(before, usage, nodes, range, start, end);
    VisitExtends(before, nodes, range, start, slots, end);
    PortAtStep(range, start, end);
  }

  lemma WalkBegins(usage: map<int, int>, nodes: int, range: Range, start: int)
    requires range.Has(start)
    ensures IsWalk(usage, nodes, range, start, [], Slot(0, 0))
    ensures UsageAt(usage, usage, nodes, range, start, Slot(0, 0))
  {
  }

  // The ports of the range that still have room.
  function Available(usage: map<int, int>, nodes: int, range: Range): set<int> {
    set port | range.min <= port <= range.max && Get(usage, port) < nodes
  }
}
