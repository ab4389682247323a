/** The registry that hands out host ports, field by field. */
module PortRegistries {
  import opened Options
  import opened MapSums
  import opened PortWalk
  import opened PortLedger
  import opened PortTheorems
  import opened GameServers
  import opened PodPorts
  import QueueSpec

  // A node as the port registry sees it.
  datatype Condition = Condition(ready: bool, holds: bool)
  datatype Node = Node(unschedulable: bool, conditions: seq<Condition>)

  predicate ReadyAndSchedulable(node: Node) {
    !node.unschedulable && exists c :: c in node.conditions && c.ready && c.holds
  }

  method IsNodeReadyAndSchedulable(node: Node) returns (r: bool)
    ensures r <==> ReadyAndSchedulable(node)
    ensures r ==> !node.unschedulable && Condition(true, true) in node.conditions
    ensures !r ==> node.unschedulable || Condition(true, true) !in node.conditions
  {
    if !node.unschedulable {
      for i := 0 to |node.conditions|
        invariant forall k :: 0 <= k < i ==> !(node.conditions[k].ready && node.conditions[k].holds)
      {
        if node.conditions[i].ready && node.conditions[i].holds {
          return true;
        }
      }
    }
    r := false;
  }

  method CountSchedulable(nodes: seq<Node>) returns (schedulableNodesCount: nat)
    ensures schedulableNodesCount == |Filter(nodes, ReadyAndSchedulable)|
  {
    schedulableNodesCount := 0;
    for i := 0 to |nodes|
      invariant schedulableNodesCount == |Filter(nodes[..i], ReadyAndSchedulable)|
    {
      FilterPrefix(nodes, i, ReadyAndSchedulable);
      var counts := IsNodeReadyAndSchedulable(nodes[i]);
      if counts {
        schedulableNodesCount := schedulableNodesCount + 1;
      }
    }
    assert nodes[..|nodes|] == nodes;
  }

  // All host ports, zeros included, in the order of the containers

  function HostPorts(ports: seq<ContainerPort>): (r: seq<int>)
    ensures |r| == |ports|
  {
    if ports == [] then [] else HostPorts(ports[..|ports| - 1]) + [ports[|ports| - 1].hostPort]
  }

  function HostPortsOfContainers(containers: seq<Container>): seq<int> {
    if containers == [] then []
    else HostPortsOfContainers(containers[..|containers| - 1]) + HostPorts(containers[|containers| - 1].ports)
  }

  function HostPortsOfServers(servers: seq<seq<Container>>): seq<int> {
    if servers == [] then []
    else HostPortsOfServers(servers[..|servers| - 1]) + HostPortsOfContainers(servers[|servers| - 1])
  }

  function Zeros(n: nat): seq<int> {
    seq(n, _ => 0)
  }

  // Counts that hold exactly these ports over the range.
  ghost predicate Holds(usage: map<int, int>, range: Range, ports: seq<int>) {
    && (forall port :: Get(usage, port) == multiset(ports)[port])
    && (forall port :: range.Has(port) ==> port in usage)
    && Sum(usage) == |ports|
  }

  lemma HoldsMore(usage: map<int, int>, range: Range, ports: seq<int>, more: seq<int>, same: seq<int>)
    requires Holds(usage, range, ports) && multiset(more) == multiset(same) && |more| == |same|
    ensures Holds(Take(usage, more), range, ports + same)
  {
    TakeSum(usage, more);
    forall port
      ensures Get(Take(usage, more), port) == multiset(ports + same)[port]
      ensures port in usage ==> port in Take(usage, more)
    {
      TakeCounts(usage, more, port);
    }
  }

  // A buffer that is filled with the host ports other than zero and padded with zeros.
  ghost predicate Padded(so: seq<int>, ports: seq<ContainerPort>) {
    |so| <= |ports| && multiset(so + Zeros(|ports| - |so|)) == multiset(HostPorts(ports))
  }

  lemma ZerosShift(so: seq<int>, n: nat, hostPort: int)
    requires 0 < n
    ensures |so + Zeros(n)| == |so| + n
    ensures (so + Zeros(n))[|so| := hostPort] == so + [hostPort] + Zeros(n - 1)
  {
  }

  // The host ports of the container, zeros included, in some order.
  ghost predicate Exposes(ports: seq<int>, container: Container) {
    multiset(ports) == multiset(HostPorts(container.ports)) && |ports| == |container.ports|
  }

  lemma PaddedGrows(so: seq<int>, ports: seq<ContainerPort>, i: nat)
    requires i < |ports| && Padded(so, ports[..i])
    ensures Padded(so + [ports[i].hostPort], ports[..i + 1])
    ensures ports[i].hostPort == 0 ==> Padded(so, ports[..i + 1])
  {
    var hostPort, zeros := ports[i].hostPort, Zeros(i - |so|);
    assert ports[..i + 1][..i] == ports[..i];
    assert HostPorts(ports[..i + 1]) == HostPorts(ports[..i]) + [hostPort];
    assert multiset(so + [hostPort] + zeros) == multiset(so + zeros) + multiset{hostPort};
    assert Zeros(i + 1 - |so|) == zeros + [0];
    assert so + Zeros(i + 1 - |so|) == so + zeros + [0];
  }

  /** The buffer has one cell for each port of the container; ports without a
      host port are skipped and leave their cells, zeros, at the end. */
  method ExposedPorts(container: Container) returns (ports: seq<int>)
    ensures Exposes(ports, container)
  {
    ports := Zeros(|container.ports|);
    var portsExposedIndex := 0;
    ghost var so: seq<int> := [];
    assert Padded(so, container.ports[..0]);
    hide Padded, Exposes, Zeros;
    for i := 0 to |container.ports|
      invariant |so| == portsExposedIndex <= i
      invariant ports == so + Zeros(|container.ports| - |so|)
      invariant Padded(so, container.ports[..i])
    {
      PaddedGrows(so, container.ports, i);
      var hostPort := container.ports[i].hostPort;
      if hostPort != 0 {
        ZerosShift(so, |container.ports| - |so|, hostPort);
        ports := ports[portsExposedIndex := hostPort];
        portsExposedIndex := portsExposedIndex + 1;
        so := so + [hostPort];
      }
    }
    assert container.ports[..|container.ports|] == container.ports;
    PaddedIsAll(so, container, ports);
  }

  lemma PaddedIsAll(so: seq<int>, container: Container, ports: seq<int>)
    requires |so| <= |container.ports| && Padded(so, container.ports)
    requires ports == so + Zeros(|container.ports| - |so|)
    ensures Exposes(ports, container)
  {
  }

  lemma ContainersGrow(containers: seq<Container>, i: nat, ports: seq<int>)
    requires i < |containers|
    ensures ports + HostPortsOfContainers(containers[..i + 1])
         == ports + HostPortsOfContainers(containers[..i]) + HostPorts(containers[i].ports)
    ensures |HostPortsOfContainers(containers[..i + 1])|
         == |HostPortsOfContainers(containers[..i])| + |containers[i].ports|
  {
    assert containers[..i + 1][..i] == containers[..i];
  }

  lemma ServersGrow(servers: seq<seq<Container>>, i: nat)
    requires i < |servers|
    ensures HostPortsOfServers(servers[..i + 1]) == HostPortsOfServers(servers[..i]) + HostPortsOfContainers(servers[i])
    ensures servers[i] == [] ==> HostPortsOfServers(servers[..i + 1]) == HostPortsOfServers(servers[..i])
  {
    assert servers[..i + 1][..i] == servers[..i];
  }

  class PortRegistry {
    const min: int
    const max: int
    var hostPortsUsage: map<int, int>
    var hostPortsPerGameServer: map<string, seq<int>>
    var nodeCount: int
    var freePortsCount: int
    var nextPortNumber: int

    function InRange(): Range {
      Range(min, max)
    }

    ghost function View(): Registry
      reads this
    {
      Registry(hostPortsUsage, hostPortsPerGameServer, nodeCount, freePortsCount, nextPortNumber)
    }

    ghost predicate Valid()
      reads this
    {
      InRange().Has(nextPortNumber)
    }

    constructor (min: int, max: int, nodeCount: nat)
      requires min <= max
      ensures Valid() && InRange() == Range(min, max)
      ensures Holds(hostPortsUsage, InRange(), [])
      ensures hostPortsPerGameServer == map[] && this.nodeCount == nodeCount && nextPortNumber == min
      ensures freePortsCount == nodeCount * InRange().Size()
    {
      this.min, this.max, this.nodeCount, nextPortNumber := min, max, nodeCount, min;
      freePortsCount := nodeCount * (max - min + 1);
      hostPortsPerGameServer, hostPortsUsage := map[], map[];
      new;
      var port := min;
      while port <= max
        invariant min <= port <= max + 1
        invariant forall p :: p in hostPortsUsage <==> min <= p < port
        invariant forall p :: p in hostPortsUsage ==> hostPortsUsage[p] == 0
        invariant Sum(hostPortsUsage) == 0
        invariant hostPortsPerGameServer == map[] && this.nodeCount == nodeCount && nextPortNumber == min
        invariant freePortsCount == nodeCount * InRange().Size()
      {
        SumUpdate(hostPortsUsage, port, 0);
        hostPortsUsage := hostPortsUsage[port := 0];
        port := port + 1;
      }
    }

    method AssignRegisteredPorts(ports: seq<int>)
      modifies this`hostPortsUsage, this`freePortsCount
      ensures hostPortsUsage == Take(old(hostPortsUsage), ports)
      ensures freePortsCount == old(freePortsCount) - |ports|
    {
      for i := 0 to |ports|
        invariant hostPortsUsage == Take(old(hostPortsUsage), ports[..i])
        invariant freePortsCount == old(freePortsCount) - i
      {
        assert ports[..i + 1][..i] == ports[..i];
        hostPortsUsage := hostPortsUsage[ports[i] := Get(hostPortsUsage, ports[i]) + 1];
        freePortsCount := freePortsCount - 1;
      }
      assert ports[..|ports|] == ports;
    }

    method AssignContainers(containers: seq<Container>, ghost ports: seq<int>)
      requires Holds(hostPortsUsage, InRange(), ports)
      modifies this`hostPortsUsage, this`freePortsCount
      ensures Holds(hostPortsUsage, InRange(), ports + HostPortsOfContainers(containers))
      ensures freePortsCount == old(freePortsCount) - |HostPortsOfContainers(containers)|
    {
      assert ports + HostPortsOfContainers([]) == ports;
      hide Holds, HostPortsOfContainers;
      for i := 0 to |containers|
        invariant Holds(hostPortsUsage, InRange(), ports + HostPortsOfContainers(containers[..i]))
        invariant freePortsCount == old(freePortsCount) - |HostPortsOfContainers(containers[..i])|
      {
        var exposed := ExposedPorts(containers[i]);
        HoldsMore(hostPortsUsage, InRange(), ports + HostPortsOfContainers(containers[..i]), exposed,
                  HostPorts(containers[i].ports));
        ContainersGrow(containers, i, ports);
        AssignRegisteredPorts(exposed);
      }
      assert containers[..|containers|] == containers;
    }

    /** Refuses an empty range. Otherwise the counts are exactly how often each
        number stands as a host port of the listed servers, where a port without
        a host port stands for the number zero; all of them cost free ports, and
        no server holds any. */
    static method NewPortRegistry(servers: seq<seq<Container>>, min: int, max: int, nodeCount: nat)
      returns (r: Option<PortRegistry>)
      ensures r.Some? <==> min <= max
      ensures r.Some? ==>
        var registry := r.value;
        && fresh(registry) && registry.InRange() == Range(min, max)
        && registry.nodeCount == nodeCount && registry.hostPortsPerGameServer == map[]
        && registry.freePortsCount == nodeCount * registry.InRange().Size() - |HostPortsOfServers(servers)|
        && (forall port :: Get(registry.hostPortsUsage, port) == multiset(HostPortsOfServers(servers))[port])
        && Inv(registry.InRange(), registry.hostPortsUsage, registry.View())
        && NotNegative(registry.hostPortsUsage)
    {
      if min > max {
        return None;
      }
      var registry := new PortRegistry(min, max, nodeCount);
      registry.AssignServers(servers);
      registry.BeginsInvariant(HostPortsOfServers(servers));
      r := Some(registry);
    }

    // The ports of the servers that are there at start-up.
    method AssignServers(servers: seq<seq<Container>>)
      requires Holds(hostPortsUsage, InRange(), [])
      modifies this`hostPortsUsage, this`freePortsCount
      ensures Holds(hostPortsUsage, InRange(), HostPortsOfServers(servers))
      ensures freePortsCount == old(freePortsCount) - |HostPortsOfServers(servers)|
    {
      assert HostPortsOfServers(servers[..0]) == [];
      hide Holds, HostPortsOfServers;
      for i := 0 to |servers|
        invariant Holds(hostPortsUsage, InRange(), HostPortsOfServers(servers[..i]))
        invariant freePortsCount == old(freePortsCount) - |HostPortsOfServers(servers[..i])|
      {
        ServersGrow(servers, i);
        if |servers[i]| == 0 {
          continue;
        }
        AssignContainers(servers[i], HostPortsOfServers(servers[..i]));
      }
      assert servers[..|servers|] == servers;
    }

    lemma BeginsInvariant(ports: seq<int>)
      requires Valid() && hostPortsPerGameServer == map[] && Holds(hostPortsUsage, InRange(), ports)
      requires freePortsCount == nodeCount * InRange().Size() - |ports|
      ensures Inv(InRange(), hostPortsUsage, View()) && NotNegative(hostPortsUsage)
      ensures forall port :: Get(hostPortsUsage, port) == multiset(ports)[port]
    {
      forall port
        ensures Occurrences(hostPortsPerGameServer, port) == 0 && Get(hostPortsUsage, port) >= 0
      {
        assert Uses(hostPortsPerGameServer, port) == map[];
      }
      assert forall port :: port in hostPortsUsage ==> hostPortsUsage[port] == Get(hostPortsUsage, port);
    }

    /** The inner loop: at most one round of the circle, up to the first port
        with room. */
    method ScanForPort(ghost before: Registry, ghost slots: seq<Slot>, ghost end: Slot)
      returns (portFound: bool, port: int, ghost last: Slot)
      requires InRange().Has(before.next) && nodeCount == before.nodes
      requires IsWalk(before.usage, before.nodes, InRange(), before.next, slots, end)
      requires UsageAt(before.usage, hostPortsUsage, before.nodes, InRange(), before.next, end)
      requires nextPortNumber == PortAt(InRange(), before.next, end.pos)
      modifies this`hostPortsUsage, this`freePortsCount, this`nextPortNumber
      ensures !portFound ==>
        && hostPortsUsage == old(hostPortsUsage) && freePortsCount == old(freePortsCount)
        && forall p :: InRange().Has(p) ==> Get(hostPortsUsage, p) >= nodeCount
      ensures portFound ==>
        && hostPortsUsage == old(hostPortsUsage)[port := Get(old(hostPortsUsage), port) + 1]
        && freePortsCount == old(freePortsCount) - 1
        && last.pos < InRange().Size() && port == PortAt(InRange(), before.next, last.pos)
        && IsWalk(before.usage, before.nodes, InRange(), before.next, slots + [last], NextSlot(InRange(), last))
        && UsageAt(before.usage, hostPortsUsage, before.nodes, InRange(), before.next, NextSlot(InRange(), last))
        && nextPortNumber == PortAt(InRange(), before.next, NextSlot(InRange(), last).pos)
      ensures InRange().Has(nextPortNumber)
    {
      hide UsageAt;
      portFound, port, last := false, 0, end;
      ghost var start := nextPortNumber;
      PortAtStep(InRange(), before.next, end);
      var j := 0;
      while j < max - min + 1
        invariant 0 <= j <= max - min + 1 && !portFound
        invariant hostPortsUsage == old(hostPortsUsage) && freePortsCount == old(freePortsCount)
        invariant IsWalk(before.usage, before.nodes, InRange(), before.next, slots, last)
        invariant UsageAt(before.usage, hostPortsUsage, before.nodes, InRange(), before.next, last)
        invariant nextPortNumber == PortAt(InRange(), before.next, last.pos) && InRange().Has(nextPortNumber)
        invariant nextPortNumber == if j == max - min + 1 then start else PortAt(InRange(), start, j)
        invariant forall k: nat :: k < j ==> Get(hostPortsUsage, PortAt(InRange(), start, k)) >= nodeCount
      {
        Visit(before.usage, hostPortsUsage, before.nodes, InRange(), before.next, slots, last);
        if Get(hostPortsUsage, nextPortNumber) < nodeCount {
          hostPortsUsage := hostPortsUsage[nextPortNumber := Get(hostPortsUsage, nextPortNumber) + 1];
          freePortsCount := freePortsCount - 1;
          port := nextPortNumber;
          portFound := true;
        }
        nextPortNumber := nextPortNumber + 1;
        if nextPortNumber > max {
          nextPortNumber := min;
        }
        if portFound {
          break;
        }
        last := NextSlot(InRange(), last);
        j := j + 1;
      }
      if !portFound {
        forall p | InRange().Has(p) ensures Get(hostPortsUsage, p) >= nodeCount {
          var k := PortAtOnto(InRange(), start, p);
        }
      }
    }

    // The outer loop: one scan for each port requested.
    method CollectPorts(count: nat, ghost before: Registry)
      returns (found: bool, ports: seq<int>, ghost slots: seq<Slot>, ghost end: Slot)
      requires Valid() && before == View()
      modifies this`hostPortsUsage, this`freePortsCount, this`nextPortNumber
      ensures Valid()
      ensures hostPortsUsage == Take(before.usage, ports) && freePortsCount == before.free - |ports|
      ensures if found
              then |ports| == count && Collects(InRange(), before, slots, end, ports)
                   && nextPortNumber == PortAt(InRange(), before.next, end.pos)
              else |ports| < count && forall p :: InRange().Has(p) ==> Get(hostPortsUsage, p) >= nodeCount
    {
      slots, end, ports := [], Slot(0, 0), [];
      WalkBegins(hostPortsUsage, nodeCount, InRange(), nextPortNumber);
      CollectsNone(InRange(), before);
      hide IsWalk, UsageAt, Collects, Take, PortAt;
      for i := 0 to count
        invariant |ports| == i && InRange().Has(nextPortNumber)
        invariant hostPortsUsage == Take(before.usage, ports) && freePortsCount == before.free - i
        invariant Collects(InRange(), before, slots, end, ports)
        invariant UsageAt(before.usage, hostPortsUsage, nodeCount, InRange(), before.next, end)
        invariant nextPortNumber == PortAt(InRange(), before.next, end.pos)
      {
        CollectsWalk(InRange(), before, slots, end, ports);
        var portFound, port, last := ScanForPort(before, slots, end);
        if !portFound {
          found := false;
          return;
        }
        CollectsOneMore(InRange(), before, slots, end, ports, last, port);
        ports := ports + [port];
        slots, end := slots + [last], NextSlot(InRange(), last);
      }
      found := true;
    }

    method GetNewPorts(namespace: string, name: string, count: nat) returns (grant: Grant)
      requires Valid()
      modifies this
      ensures Valid()
      ensures Step(InRange(), old(View()), Allocate(QueueSpec.Key(namespace, name), count, grant), View())
    {
      var namespacedName := QueueSpec.Key(namespace, name);
      if count > freePortsCount {
        return NotEnoughFreePorts;
      }
      if namespacedName in hostPortsPerGameServer {
        return AlreadyAssigned;
      }
      hide Collects, Take, PortAt;
      var found, ports, slots, end := CollectPorts(count, View());
      if !found {
        assert RunsDry(InRange(), old(View()), count, View());
        return NoAvailablePorts;
      }
      hostPortsPerGameServer := hostPortsPerGameServer[namespacedName := ports];
      assert Grants(InRange(), old(View()), namespacedName, ports, View());
      grant := Granted(ports);
    }

    /** Returns the ports the name held, if it held any. */
    method DeregisterPorts(namespace: string, name: string) returns (ports: Option<seq<int>>)
      requires Valid()
      modifies this
      ensures Valid() && Step(InRange(), old(View()), Release(QueueSpec.Key(namespace, name)), View())
      ensures var key := QueueSpec.Key(namespace, name);
              ports == if key in old(hostPortsPerGameServer) then Some(old(hostPortsPerGameServer)[key]) else None
    {
      var namespacedName := QueueSpec.Key(namespace, name);
      if namespacedName !in hostPortsPerGameServer {
        return None;
      }
      var held := hostPortsPerGameServer[namespacedName];
      for i := 0 to |held|
        invariant hostPortsUsage == GiveBack(old(hostPortsUsage), held[..i])
        invariant freePortsCount == old(freePortsCount) + GivenBack(old(hostPortsUsage), held[..i])
        invariant hostPortsPerGameServer == old(hostPortsPerGameServer) && nodeCount == old(nodeCount)
        invariant nextPortNumber == old(nextPortNumber)
      {
        assert held[..i + 1][..i] == held[..i];
        if Get(hostPortsUsage, held[i]) > 0 {
          hostPortsUsage := hostPortsUsage[held[i] := Get(hostPortsUsage, held[i]) - 1];
          freePortsCount := freePortsCount + 1;
        }
      }
      assert held[..|held|] == held;
      hostPortsPerGameServer := hostPortsPerGameServer - {namespacedName};
      ports := Some(held);
    }

    method OnNodeAdded()
      modifies this`nodeCount, this`freePortsCount
      ensures Step(InRange(), old(View()), AddNode, View())
    {
      nodeCount := nodeCount + 1;
      freePortsCount := freePortsCount + (max - min + 1);
    }

    method OnNodeRemoved()
      modifies this`nodeCount, this`freePortsCount
      ensures Step(InRange(), old(View()), RemoveNode, View())
    {
      nodeCount := nodeCount - 1;
      freePortsCount := freePortsCount - (max - min + 1);
    }

    /** Nothing happens when the nodes cannot be listed. Otherwise nodes come or
        go one by one until the count is that of the ready and schedulable ones. */
    method Reconcile(nodes: Option<seq<Node>>) returns (ok: bool, ghost run: Run)
      modifies this`nodeCount, this`freePortsCount
      ensures ok <==> nodes.Some?
      ensures ok ==> nodeCount == |Filter(nodes.value, ReadyAndSchedulable)|
      ensures IsRun(InRange(), run) && run.states[0] == old(View()) && run.states[|run.ops|] == View()
      ensures !ok ==> run.ops == []
      ensures forall op :: op in run.ops ==> op == if nodeCount < old(nodeCount) then RemoveNode else AddNode
    {
      run := Run([View()], []);
      assert IsRun(InRange(), run);
      hide IsRun, Step;
      if nodes.None? {
        return false, run;
      }
      var schedulableNodesCount := CountSchedulable(nodes.value);
      if nodeCount > schedulableNodesCount {
        var i := nodeCount - 1;
        while i >= schedulableNodesCount
          invariant schedulableNodesCount - 1 <= i && nodeCount == i + 1
          invariant IsRun(InRange(), run) && run.states[0] == old(View()) && run.states[|run.ops|] == View()
          invariant forall op :: op in run.ops ==> op == RemoveNode
        {
          OnNodeRemoved();
          RunGrows(InRange(), run, RemoveNode, View());
          run := Run(run.states + [View()], run.ops + [RemoveNode]);
          i := i - 1;
        }
      } else if nodeCount < schedulableNodesCount {
        for i := nodeCount to schedulableNodesCount
          invariant nodeCount == i
          invariant IsRun(InRange(), run) && run.states[0] == old(View()) && run.states[|run.ops|] == View()
          invariant forall op :: op in run.ops ==> op == AddNode
        {
          OnNodeAdded();
          RunGrows(InRange(), run, AddNode, View());
          run := Run(run.states + [View()], run.ops + [AddNode]);
        }
      }
      ok := true;
    }
  }
}
