/** The host ports of a new game server, and what the webhook checks before. */
module HostPortAssignment {
  import opened PodPorts
  import opened PortLedger
  import opened PortRegistries
  import QueueSpec

  datatype PortError = NoMatchingPort(port: int) | NoPortName(port: int) | HasHostPort(port: int)

  datatype NewServer = Created(spec: PodSpec) | Refused(grant: Grant) | IndexOutOfRange

  // The i-th exposed port of the list gets the i-th host port.

  function CountExposed(ports: seq<ContainerPort>, portsToExpose: seq<int>): nat {
    if ports == [] then 0
    else
      CountExposed(ports[..|ports| - 1], portsToExpose)
      + if ports[|ports| - 1].containerPort in portsToExpose then 1 else 0
  }

  // With the host's network, the container listens on the host port itself.
  function Stamp(port: ContainerPort, hostPort: int, hostNetwork: bool): ContainerPort {
    ContainerPort(port.name, if hostNetwork then hostPort else port.containerPort, hostPort)
  }

  function Place(ports: seq<ContainerPort>, portsToExpose: seq<int>, hostPorts: seq<int>, hostNetwork: bool)
    : (r: seq<ContainerPort>)
    requires CountExposed(ports, portsToExpose) <= |hostPorts|
    ensures |r| == |ports|
  {
    if ports == [] then []
    else
      var init, last := ports[..|ports| - 1], ports[|ports| - 1];
      Place(init, portsToExpose, hostPorts, hostNetwork)
      + [if last.containerPort in portsToExpose
         then Stamp(last, hostPorts[CountExposed(init, portsToExpose)], hostNetwork)
         else last]
  }

  // The host ports that stand, after the assignment, at the exposed ports.
  function HandedOut(before: seq<ContainerPort>, after: seq<ContainerPort>, portsToExpose: seq<int>): seq<int>
    requires |before| == |after|
  {
    if before == [] then []
    else
      var n := |before| - 1;
      HandedOut(before[..n], after[..n], portsToExpose)
      + if before[n].containerPort in portsToExpose then [after[n].hostPort] else []
  }

  lemma {:induction false} CountMonotone(ports: seq<ContainerPort>, portsToExpose: seq<int>, i: nat)
    requires i <= |ports|
    ensures CountExposed(ports[..i], portsToExpose) <= CountExposed(ports, portsToExpose)
    decreases |ports|
  {
    if i < |ports| {
      CountMonotone(ports[..|ports| - 1], portsToExpose, i);
      assert ports[..|ports| - 1][..i] == ports[..i];
    } else {
      assert ports[..i] == ports;
    }
  }

  lemma CountNext(ports: seq<ContainerPort>, portsToExpose: seq<int>, i: nat)
    requires i < |ports|
    ensures CountExposed(ports[..i + 1], portsToExpose)
         == CountExposed(ports[..i], portsToExpose) + if ports[i].containerPort in portsToExpose then 1 else 0
  {
    assert ports[..i + 1][..i] == ports[..i];
  }

  /** Ports that are not exposed stay as they are; the others change in nothing
      but the host port and, with the host's network, the container port. */
  lemma {:induction false} PlaceAt(ports: seq<ContainerPort>, portsToExpose: seq<int>, hostPorts: seq<int>,
                                   hostNetwork: bool, i: nat)
    requires CountExposed(ports, portsToExpose) <= |hostPorts| && i < |ports|
    ensures var r := Place(ports, portsToExpose, hostPorts, hostNetwork)[i];
            && (ports[i].containerPort !in portsToExpose ==> r == ports[i])
            && (ports[i].containerPort in portsToExpose ==>
                  && r.name == ports[i].name
                  && CountExposed(ports[..i], portsToExpose) < |hostPorts|
                  && r.hostPort == hostPorts[CountExposed(ports[..i], portsToExpose)]
                  && r.containerPort == if hostNetwork then r.hostPort else ports[i].containerPort)
  {
    var init := ports[..|ports| - 1];
    if i < |init| {
      PlaceAt(init, portsToExpose, hostPorts, hostNetwork, i);
      assert init[..i] == ports[..i];
    }
  }

  /** Read off in traversal order, the exposed ports carry the host ports from
      the first on: each is used once and none is skipped. */
  lemma {:induction false} HandsOutInOrder(ports: seq<ContainerPort>, portsToExpose: seq<int>, hostPorts: seq<int>,
                                           hostNetwork: bool)
    requires CountExposed(ports, portsToExpose) <= |hostPorts|
    ensures HandedOut(ports, Place(ports, portsToExpose, hostPorts, hostNetwork), portsToExpose)
         == hostPorts[..CountExposed(ports, portsToExpose)]
  {
    if ports != [] {
      var init := ports[..|ports| - 1];
      HandsOutInOrder(init, portsToExpose, hostPorts, hostNetwork);
      assert Place(ports, portsToExpose, hostPorts, hostNetwork)[..|init|]
          == Place(init, portsToExpose, hostPorts, hostNetwork);
    }
  }

  lemma PlaceNext(ports: seq<ContainerPort>, more: seq<ContainerPort>, i: nat, portsToExpose: seq<int>,
                  hostPorts: seq<int>, hostNetwork: bool)
    requires i < |more|
    requires CountExposed(ports + more[..i], portsToExpose) + (if more[i].containerPort in portsToExpose then 1 else 0)
          <= |hostPorts|
    ensures var exposed := more[i].containerPort in portsToExpose;
            var j := CountExposed(ports + more[..i], portsToExpose);
            && CountExposed(ports + more[..i + 1], portsToExpose) == j + (if exposed then 1 else 0)
            && Place(ports + more[..i + 1], portsToExpose, hostPorts, hostNetwork)
            == Place(ports + more[..i], portsToExpose, hostPorts, hostNetwork)
               + [if exposed then Stamp(more[i], hostPorts[j], hostNetwork) else more[i]]
  {
    assert (ports + more[..i + 1])[..|ports| + i] == ports + more[..i];
  }

  lemma PanicStands(ports: seq<ContainerPort>, more: seq<ContainerPort>, i: nat, portsToExpose: seq<int>,
                    hostPorts: seq<int>)
    requires i < |more| && more[i].containerPort in portsToExpose
    requires CountExposed(ports + more[..i], portsToExpose) >= |hostPorts|
    ensures CountExposed(ports + more, portsToExpose) > |hostPorts|
  {
    var all, k := ports + more, |ports| + i;
    assert all[..k] == ports + more[..i];
    CountNext(all, portsToExpose, k);
    CountMonotone(all, portsToExpose, k + 1);
  }

  // The webhook

  function Matches(ports: seq<ContainerPort>, port: int): nat {
    if ports == [] then 0
    else Matches(ports[..|ports| - 1], port) + if ports[|ports| - 1].containerPort == port then 1 else 0
  }

  predicate Matching(ports: seq<ContainerPort>, port: int) {
    exists p :: p in ports && p.containerPort == port
  }

  lemma {:induction false} MatchingCounts(ports: seq<ContainerPort>, port: int)
    ensures Matching(ports, port) <==> Matches(ports, port) > 0
  {
    if ports != [] {
      var init := ports[..|ports| - 1];
      MatchingCounts(init, port);
      assert ports == init + [ports[|ports| - 1]];
    }
  }

  // The named ports of the pod that carry a number; zero groups nothing.
  function Group(ports: seq<ContainerPort>, port: int): seq<ContainerPort> {
    if ports == [] then []
    else
      Group(ports[..|ports| - 1], port)
      + if port != 0 && ports[|ports| - 1].containerPort == port then [ports[|ports| - 1]] else []
  }

  function GroupErrors(group: seq<ContainerPort>, port: int, validateHostPort: bool): seq<PortError> {
    if group == [] then []
    else
      var last := group[|group| - 1];
      GroupErrors(group[..|group| - 1], port, validateHostPort)
      + (if last.name == "" then [NoPortName(port)] else [])
      + (if validateHostPort && last.hostPort != 0 then [HasHostPort(port)] else [])
  }

  function ErrorsOf(ports: seq<ContainerPort>, hostNetwork: bool, port: int, validateHostPort: bool): seq<PortError> {
    var group := Group(ports, port);
    (if !hostNetwork && group == [] then [NoMatchingPort(port)] else []) + GroupErrors(group, port, validateHostPort)
  }

  function AllErrors(ports: seq<ContainerPort>, hostNetwork: bool, portsToExpose: seq<int>, validateHostPort: bool)
    : seq<PortError>
  {
    if portsToExpose == [] then []
    else
      AllErrors(ports, hostNetwork, portsToExpose[..|portsToExpose| - 1], validateHostPort)
      + ErrorsOf(ports, hostNetwork, portsToExpose[|portsToExpose| - 1], validateHostPort)
  }

  // What is wrong with exposing a number, whatever the other numbers are.
  predicate Faulty(ports: seq<ContainerPort>, hostNetwork: bool, validateHostPort: bool, e: PortError) {
    match e
    case NoMatchingPort(n) => !hostNetwork && (n == 0 || !Matching(ports, n))
    case NoPortName(n) => n != 0 && exists p :: p in ports && p.containerPort == n && p.name == ""
    case HasHostPort(n) =>
      validateHostPort && n != 0 && exists p :: p in ports && p.containerPort == n && p.hostPort != 0
  }

  lemma {:induction false} GroupHas(ports: seq<ContainerPort>, port: int, p: ContainerPort)
    ensures p in Group(ports, port) <==> port != 0 && p in ports && p.containerPort == port
  {
    if ports != [] {
      GroupHas(ports[..|ports| - 1], port, p);
      assert ports == ports[..|ports| - 1] + [ports[|ports| - 1]];
    }
  }

  lemma {:induction false} GroupErrorsHas(group: seq<ContainerPort>, port: int, validateHostPort: bool, e: PortError)
    ensures e in GroupErrors(group, port, validateHostPort) <==>
      || (e == NoPortName(port) && exists p :: p in group && p.name == "")
      || (e == HasHostPort(port) && validateHostPort && exists p :: p in group && p.hostPort != 0)
  {
    if group != [] {
      GroupErrorsHas(group[..|group| - 1], port, validateHostPort, e);
      assert group == group[..|group| - 1] + [group[|group| - 1]];
    }
  }

  lemma ErrorsOfHas(ports: seq<ContainerPort>, hostNetwork: bool, port: int, validateHostPort: bool, e: PortError)
    ensures e in ErrorsOf(ports, hostNetwork, port, validateHostPort) <==>
      e.port == port && Faulty(ports, hostNetwork, validateHostPort, e)
  {
    var group := Group(ports, port);
    GroupErrorsHas(group, port, validateHostPort, e);
    forall p ensures p in group <==> port != 0 && p in ports && p.containerPort == port {
      GroupHas(ports, port, p);
    }
    if group != [] {
      assert group[0] in group;
    }
  }

  /** The webhook reports a fault exactly when a number to expose has it. */
  lemma {:induction false} ErrorsTellFaults(ports: seq<ContainerPort>, hostNetwork: bool, portsToExpose: seq<int>,
                                            validateHostPort: bool, e: PortError)
    ensures e in AllErrors(ports, hostNetwork, portsToExpose, validateHostPort) <==>
      e.port in portsToExpose && Faulty(ports, hostNetwork, validateHostPort, e)
  {
    if portsToExpose != [] {
      var last := portsToExpose[|portsToExpose| - 1];
      ErrorsTellFaults(ports, hostNetwork, portsToExpose[..|portsToExpose| - 1], validateHostPort, e);
      ErrorsOfHas(ports, hostNetwork, last, validateHostPort, e);
      assert portsToExpose == portsToExpose[..|portsToExpose| - 1] + [last];
    }
  }

  function Grouped(groups: map<int, seq<ContainerPort>>, port: int): seq<ContainerPort> {
    if port in groups then groups[port] else []
  }

  ghost predicate GroupsOf(groups: map<int, seq<ContainerPort>>, ports: seq<ContainerPort>) {
    forall n :: Grouped(groups, n) == Group(ports, n)
  }

  lemma GroupsGrow(groups: map<int, seq<ContainerPort>>, ports: seq<ContainerPort>, port: ContainerPort)
    requires GroupsOf(groups, ports)
    ensures var n := port.containerPort;
            GroupsOf(if n != 0 then groups[n := Grouped(groups, n) + [port]] else groups, ports + [port])
  {
    var n := port.containerPort;
    var groups' := if n != 0 then groups[n := Grouped(groups, n) + [port]] else groups;
    assert (ports + [port])[..|ports|] == ports;
    forall m ensures Grouped(groups', m) == Group(ports + [port], m) {
      assert Grouped(groups, m) == Group(ports, m);
    }
  }

  lemma GroupsGive(groups: map<int, seq<ContainerPort>>, ports: seq<ContainerPort>, n: int)
    requires GroupsOf(groups, ports)
    ensures Grouped(groups, n) == Group(ports, n)
  {
  }

  method GroupContainer(groups: map<int, seq<ContainerPort>>, ghost before: seq<ContainerPort>, container: Container)
    returns (r: map<int, seq<ContainerPort>>)
    requires GroupsOf(groups, before)
    ensures GroupsOf(r, before + container.ports)
  {
    hide GroupsOf;
    r := groups;
    assert before + container.ports[..0] == before;
    for j := 0 to |container.ports|
      invariant GroupsOf(r, before + container.ports[..j])
    {
      var port := container.ports[j];
      GroupsGrow(r, before + container.ports[..j], port);
      assert before + container.ports[..j + 1] == before + container.ports[..j] + [port];
      if port.containerPort != 0 {
        r := r[port.containerPort := Grouped(r, port.containerPort) + [port]];
      }
    }
    assert container.ports[..|container.ports|] == container.ports;
  }

  method GroupPorts(containers: seq<Container>) returns (groups: map<int, seq<ContainerPort>>)
    ensures GroupsOf(groups, AllPorts(containers))
  {
    groups := map[];
    for i := 0 to |containers|
      invariant GroupsOf(groups, AllPorts(containers[..i]))
    {
      hide GroupsOf;
      AllPortsGrow(containers, i);
      groups := GroupContainer(groups, AllPorts(containers[..i]), containers[i]);
    }
    assert containers[..|containers|] == containers;
  }

  method CheckGroup(group: seq<ContainerPort>, number: int, validateHostPort: bool) returns (errs: seq<PortError>)
    ensures errs == GroupErrors(group, number, validateHostPort)
  {
    errs := [];
    for j := 0 to |group|
      invariant errs == GroupErrors(group[..j], number, validateHostPort)
    {
      assert group[..j + 1][..j] == group[..j];
      if group[j].name == "" {
        errs := errs + [NoPortName(number)];
      }
      if validateHostPort && group[j].hostPort != 0 {
        errs := errs + [HasHostPort(number)];
      }
    }
    assert group[..|group|] == group;
  }

  method CheckPort(ghost ports: seq<ContainerPort>, groups: map<int, seq<ContainerPort>>, hostNetwork: bool,
                   number: int, validateHostPort: bool)
    returns (errs: seq<PortError>)
    requires Grouped(groups, number) == Group(ports, number)
    ensures errs == ErrorsOf(ports, hostNetwork, number, validateHostPort)
  {
    errs := [];
    var group := Grouped(groups, number);
    if !hostNetwork && |group| < 1 {
      errs := errs + [NoMatchingPort(number)];
    }
    var more := CheckGroup(group, number, validateHostPort);
    errs := errs + more;
  }

  method ValidatePortsToExpose(spec: PodSpec, portsToExpose: seq<int>, validateHostPort: bool)
    returns (errs: seq<PortError>)
    ensures errs == AllErrors(AllPorts(spec.containers), spec.hostNetwork, portsToExpose, validateHostPort)
  {
    var groups := GroupPorts(spec.containers);
    ghost var ports := AllPorts(spec.containers);
    errs := [];
    hide GroupsOf, ErrorsOf;
    for i := 0 to |portsToExpose|
      invariant errs == AllErrors(ports, spec.hostNetwork, portsToExpose[..i], validateHostPort)
    {
      assert portsToExpose[..i + 1][..i] == portsToExpose[..i];
      GroupsGive(groups, ports, portsToExpose[i]);
      var more := CheckPort(ports, groups, spec.hostNetwork, portsToExpose[i], validateHostPort);
      errs := errs + more;
    }
    assert portsToExpose[..|portsToExpose|] == portsToExpose;
  }

  // Assigning

  // The ports of a container, the first i of them done.
  ghost predicate Stamped(before: seq<ContainerPort>, container: Container, ports: seq<ContainerPort>, i: nat,
                          portsToExpose: seq<int>, hostPorts: seq<int>, hostNetwork: bool) {
    && i <= |ports| == |container.ports| && ports[i..] == container.ports[i..]
    && CountExposed(before, portsToExpose) <= |hostPorts|
    && CountExposed(before + container.ports[..i], portsToExpose) <= |hostPorts|
    && Place(before, portsToExpose, hostPorts, hostNetwork) + ports[..i]
    == Place(before + container.ports[..i], portsToExpose, hostPorts, hostNetwork)
  }

  lemma StampedAtStart(before: seq<ContainerPort>, container: Container, portsToExpose: seq<int>,
                       hostPorts: seq<int>, hostNetwork: bool)
    requires CountExposed(before, portsToExpose) <= |hostPorts|
    ensures Stamped(before, container, container.ports, 0, portsToExpose, hostPorts, hostNetwork)
  {
    assert before + container.ports[..0] == before;
  }

  lemma StampCounts(before: seq<ContainerPort>, more: seq<ContainerPort>, i: nat, portsToExpose: seq<int>)
    requires i < |more|
    ensures CountExposed(before + more[..i + 1], portsToExpose)
         == CountExposed(before + more[..i], portsToExpose) + if more[i].containerPort in portsToExpose then 1 else 0
  {
    var all := before + more[..i + 1];
    assert all[..|before| + i] == before + more[..i];
    CountNext(all, portsToExpose, |before| + i);
    assert all[..|before| + i + 1] == all;
  }

  lemma OnePortDone(ports: seq<ContainerPort>, all: seq<ContainerPort>, i: nat, p: ContainerPort)
    requires i < |ports| == |all| && ports[i..] == all[i..]
    ensures ports[i] == all[i] && ports[i := p][..i + 1] == ports[..i] + [p] && ports[i := p][i + 1..] == all[i + 1..]
    ensures ports[i := ports[i]] == ports
  {
    assert ports[i..][0] == all[i..][0];
    assert ports[i + 1..] == ports[i..][1..] && all[i + 1..] == all[i..][1..];
  }

  lemma StampNext(before: seq<ContainerPort>, container: Container, ports: seq<ContainerPort>, i: nat,
                  portsToExpose: seq<int>, hostPorts: seq<int>, hostNetwork: bool)
    requires Stamped(before, container, ports, i, portsToExpose, hostPorts, hostNetwork) && i < |ports|
    ensures ports[i] == container.ports[i]
    ensures var exposed := ports[i].containerPort in portsToExpose;
            var j := CountExposed(before + container.ports[..i], portsToExpose);
            && CountExposed(before + container.ports[..i + 1], portsToExpose) == j + (if exposed then 1 else 0)
            && (exposed && j < |hostPorts| ==>
                  Stamped(before, container, ports[i := Stamp(ports[i], hostPorts[j], hostNetwork)], i + 1,
                          portsToExpose, hostPorts, hostNetwork))
            && (!exposed ==> Stamped(before, container, ports, i + 1, portsToExpose, hostPorts, hostNetwork))
  {
    OnePortDone(ports, container.ports, i, ports[i]);
    StampCounts(before, container.ports, i, portsToExpose);
    var j := CountExposed(before + container.ports[..i], portsToExpose);
    var exposed := ports[i].containerPort in portsToExpose;
    if !exposed || j < |hostPorts| {
      PlaceNext(before, container.ports, i, portsToExpose, hostPorts, hostNetwork);
      var p := if exposed then Stamp(ports[i], hostPorts[j], hostNetwork) else ports[i];
      OnePortDone(ports, container.ports, i, p);
      hide Place, CountExposed, Stamp;
      assert Place(before, portsToExpose, hostPorts, hostNetwork) + (ports[..i] + [p])
          == Place(before, portsToExpose, hostPorts, hostNetwork) + ports[..i] + [p];
    }
  }

  lemma StampedAtEnd(before: seq<ContainerPort>, container: Container, ports: seq<ContainerPort>,
                     portsToExpose: seq<int>, hostPorts: seq<int>, hostNetwork: bool)
    requires Stamped(before, container, ports, |container.ports|, portsToExpose, hostPorts, hostNetwork)
    ensures |ports| == |container.ports| && before + container.ports[..|container.ports|] == before + container.ports
    ensures CountExposed(before, portsToExpose) <= |hostPorts|
    ensures CountExposed(before + container.ports, portsToExpose) <= |hostPorts|
    ensures Place(before, portsToExpose, hostPorts, hostNetwork) + ports
         == Place(before + container.ports, portsToExpose, hostPorts, hostNetwork)
  {
    assert container.ports[..|container.ports|] == container.ports;
    assert ports[..|container.ports|] == ports;
  }

  method StampContainer(ghost before: seq<ContainerPort>, container: Container, portsToExpose: seq<int>,
                        hostPorts: seq<int>, hostNetwork: bool, first: nat)
    returns (ok: bool, ports: seq<ContainerPort>, j: nat)
    requires CountExposed(before, portsToExpose) == first <= |hostPorts|
    ensures ok <==> CountExposed(before + container.ports, portsToExpose) <= |hostPorts|
    ensures ok ==>
      && |ports| == |container.ports| && j == CountExposed(before + container.ports, portsToExpose)
      && Place(before, portsToExpose, hostPorts, hostNetwork) + ports
      == Place(before + container.ports, portsToExpose, hostPorts, hostNetwork)
  {
    ports, j := container.ports, first;
    StampedAtStart(before, container, portsToExpose, hostPorts, hostNetwork);
    assert before + container.ports[..0] == before;
    hide Stamped, Place, CountExposed;
    for i := 0 to |container.ports|
      invariant |ports| == |container.ports|
      invariant Stamped(before, container, ports, i, portsToExpose, hostPorts, hostNetwork)
      invariant j == CountExposed(before + container.ports[..i], portsToExpose) <= |hostPorts|
    {
      StampNext(before, container, ports, i, portsToExpose, hostPorts, hostNetwork);
      if ports[i].containerPort in portsToExpose {
        if j >= |hostPorts| {
          PanicStands(before, container.ports, i, portsToExpose, hostPorts);
          return false, ports, j;
        }
        ghost var was := ports;
        ports := ports[i := ports[i].(hostPort := hostPorts[j])];
        if hostNetwork {
          ports := ports[i := ports[i].(containerPort := hostPorts[j])];
        }
        assert ports == was[i := Stamp(was[i], hostPorts[j], hostNetwork)];
        j := j + 1;
      }
    }
    StampedAtEnd(before, container, ports, portsToExpose, hostPorts, hostNetwork);
    ok := true;
  }

  predicate SameShape(a: seq<Container>, b: seq<Container>) {
    |a| == |b| && forall c :: 0 <= c < |a| ==> |a[c].ports| == |b[c].ports|
  }

  // The containers of which the first c are done.
  ghost predicate Assigned(spec: PodSpec, containers: seq<Container>, c: nat, portsToExpose: seq<int>,
                           hostPorts: seq<int>) {
    && c <= |containers| && SameShape(spec.containers, containers) && containers[c..] == spec.containers[c..]
    && CountExposed(AllPorts(spec.containers[..c]), portsToExpose) <= |hostPorts|
    && AllPorts(containers[..c])
    == Place(AllPorts(spec.containers[..c]), portsToExpose, hostPorts, spec.hostNetwork)
  }

  lemma AssignedNext(spec: PodSpec, containers: seq<Container>, c: nat, portsToExpose: seq<int>, hostPorts: seq<int>,
                     ports: seq<ContainerPort>)
    requires Assigned(spec, containers, c, portsToExpose, hostPorts) && c < |containers|
    requires |ports| == |containers[c].ports|
    requires var before := AllPorts(spec.containers[..c]);
             var all := before + containers[c].ports;
             && CountExposed(all, portsToExpose) <= |hostPorts|
             && Place(before, portsToExpose, hostPorts, spec.hostNetwork) + ports
             == Place(all, portsToExpose, hostPorts, spec.hostNetwork)
    ensures Assigned(spec, containers[c := Container(ports)], c + 1, portsToExpose, hostPorts)
  {
    assert containers[c] == containers[c..][0] == spec.containers[c];
    AllPortsGrow(spec.containers, c);
    var containers' := containers[c := Container(ports)];
    AllPortsGrow(containers', c);
    assert containers'[..c] == containers[..c];
    assert containers'[c + 1..] == containers[c..][1..] && spec.containers[c + 1..] == spec.containers[c..][1..];
  }

  lemma ContainersExposeMore(spec: PodSpec, c: nat, portsToExpose: seq<int>)
    requires c <= |spec.containers|
    ensures CountExposed(AllPorts(spec.containers[..c]), portsToExpose)
         <= CountExposed(AllPorts(spec.containers), portsToExpose)
    decreases |spec.containers| - c
  {
    if c == |spec.containers| {
      assert spec.containers[..c] == spec.containers;
    } else {
      AllPortsGrow(spec.containers, c);
      ContainersExposeMore(spec, c + 1, portsToExpose);
      var before := AllPorts(spec.containers[..c]);
      var after := AllPorts(spec.containers[..c + 1]);
      assert after[..|before|] == before;
      CountMonotone(after, portsToExpose, |before|);
    }
  }

  /** The nested loops: they run off the end of the host ports exactly when more
      container ports are exposed than there are host ports. */
  method AssignHostPorts(spec: PodSpec, portsToExpose: seq<int>, hostPorts: seq<int>) returns (r: NewServer)
    ensures r.Created? || r.IndexOutOfRange?
    ensures r.Created? <==> CountExposed(AllPorts(spec.containers), portsToExpose) <= |hostPorts|
    ensures r.Created? ==>
      && r.spec.hostNetwork == spec.hostNetwork && SameShape(spec.containers, r.spec.containers)
      && AllPorts(r.spec.containers)
      == Place(AllPorts(spec.containers), portsToExpose, hostPorts, spec.hostNetwork)
  {
    var containers := spec.containers;
    var j := 0;
    assert Assigned(spec, containers, 0, portsToExpose, hostPorts);
    assert CountExposed(AllPorts(spec.containers[..0]), portsToExpose) == 0;
    for c := 0 to |containers|
      invariant |containers| == |spec.containers|
      invariant Assigned(spec, containers, c, portsToExpose, hostPorts)
      invariant j == CountExposed(AllPorts(spec.containers[..c]), portsToExpose) <= |hostPorts|
    {
      hide Place, CountExposed, SameShape, AllPorts;
      assert containers[c] == containers[c..][0] == spec.containers[c];
      AllPortsGrow(spec.containers, c);
      var ok, ports, j' := StampContainer(AllPorts(spec.containers[..c]), containers[c], portsToExpose, hostPorts,
                                          spec.hostNetwork, j);
      if !ok {
        ContainersExposeMore(spec, c + 1, portsToExpose);
        return IndexOutOfRange;
      }
      AssignedNext(spec, containers, c, portsToExpose, hostPorts, ports);
      containers, j := containers[c := Container(ports)], j';
    }
    assert spec.containers[..|containers|] == spec.containers && containers[..|containers|] == containers;
    r := Created(PodSpec(containers, spec.hostNetwork));
  }

  /** The ports asked of the registry are as many as the numbers to expose. */
  method NewGameServer(registry: PortRegistry, spec: PodSpec, portsToExpose: seq<int>, namespace: string, name: string)
    returns (r: NewServer, grant: Grant)
    requires registry.Valid()
    modifies registry
    ensures registry.Valid()
    ensures Step(registry.InRange(), old(registry.View()),
                 Allocate(QueueSpec.Key(namespace, name), |portsToExpose|, grant), registry.View())
    ensures !grant.Granted? ==> r == Refused(grant)
    ensures grant.Granted? ==>
      if CountExposed(AllPorts(spec.containers), portsToExpose) > |grant.ports| then r == IndexOutOfRange
      else
        && r.Created? && r.spec.hostNetwork == spec.hostNetwork && SameShape(spec.containers, r.spec.containers)
        && AllPorts(r.spec.containers)
        == Place(AllPorts(spec.containers), portsToExpose, grant.ports, spec.hostNetwork)
  {
    grant := registry.GetNewPorts(namespace, name, |portsToExpose|);
    if !grant.Granted? {
      return Refused(grant), grant;
    }
    r := AssignHostPorts(spec, portsToExpose, grant.ports);
  }

  // When the assignment is total and in bounds

  predicate Distinct(numbers: seq<int>) {
    forall i, j :: 0 <= i < j < |numbers| ==> numbers[i] != numbers[j]
  }

  function TotalMatches(ports: seq<ContainerPort>, numbers: seq<int>): nat {
    if numbers == [] then 0
    else TotalMatches(ports, numbers[..|numbers| - 1]) + Matches(ports, numbers[|numbers| - 1])
  }

  lemma {:induction false} CountOneMoreNumber(ports: seq<ContainerPort>, numbers: seq<int>, n: int)
    requires n !in numbers
    ensures CountExposed(ports, numbers + [n]) == CountExposed(ports, numbers) + Matches(ports, n)
  {
    if ports != [] {
      CountOneMoreNumber(ports[..|ports| - 1], numbers, n);
    }
  }

  lemma {:induction false} CountIsTotal(ports: seq<ContainerPort>, numbers: seq<int>)
    requires Distinct(numbers)
    ensures CountExposed(ports, numbers) == TotalMatches(ports, numbers)
  {
    if numbers == [] {
      NothingExposed(ports);
    } else {
      var init, last := numbers[..|numbers| - 1], numbers[|numbers| - 1];
      CountIsTotal(ports, init);
      CountOneMoreNumber(ports, init, last);
      assert numbers == init + [last];
    }
  }

  lemma {:induction false} NothingExposed(ports: seq<ContainerPort>)
    ensures CountExposed(ports, []) == 0
  {
    if ports != [] {
      NothingExposed(ports[..|ports| - 1]);
    }
  }

  lemma {:induction false} TotalAtLeast(ports: seq<ContainerPort>, numbers: seq<int>)
    requires forall n :: n in numbers ==> Matches(ports, n) >= 1
    ensures TotalMatches(ports, numbers) >= |numbers|
    ensures TotalMatches(ports, numbers) == |numbers| <==> forall n :: n in numbers ==> Matches(ports, n) == 1
  {
    if numbers != [] {
      var init, last := numbers[..|numbers| - 1], numbers[|numbers| - 1];
      assert numbers == init + [last];
      TotalAtLeast(ports, init);
      assert last in numbers && forall n :: n in init ==> n in numbers;
      if TotalMatches(ports, numbers) == |numbers| {
        forall n | n in numbers ensures Matches(ports, n) == 1 {
          assert n in init || n == last;
        }
      }
    }
  }

  /** For a build the webhook accepts, without the host's network and with
      distinct numbers to expose, the assignment stays in bounds exactly when no
      number matches two container ports, and then uses every host port. */
  lemma AssignmentIsTotal(ports: seq<ContainerPort>, portsToExpose: seq<int>)
    requires Distinct(portsToExpose)
    requires AllErrors(ports, false, portsToExpose, true) == []
    ensures CountExposed(ports, portsToExpose) <= |portsToExpose|
       <==> forall n :: n in portsToExpose ==> Matches(ports, n) <= 1
    ensures CountExposed(ports, portsToExpose) >= |portsToExpose|
  {
    forall n | n in portsToExpose ensures Matches(ports, n) >= 1 {
      ErrorsTellFaults(ports, false, portsToExpose, true, NoMatchingPort(n));
      MatchingCounts(ports, n);
    }
    TotalAtLeast(ports, portsToExpose);
    CountIsTotal(ports, portsToExpose);
  }

  /** Nothing the webhook checks keeps two containers from exposing one number:
      such a build is accepted, and its servers cannot be made. */
  lemma AcceptedButOutOfRange() returns (spec: PodSpec, portsToExpose: seq<int>)
    ensures AllErrors(AllPorts(spec.containers), spec.hostNetwork, portsToExpose, true) == []
    ensures Distinct(portsToExpose) && !spec.hostNetwork
    ensures CountExposed(AllPorts(spec.containers), portsToExpose) > |portsToExpose|
  {
    var port := ContainerPort("game", 80, 0);
    spec, portsToExpose := PodSpec([Container([port]), Container([port])], false), [80];
    AllPortsGrow(spec.containers, 1);
    AllPortsGrow(spec.containers, 0);
    assert AllPorts(spec.containers[..1]) == [port];
    assert AllPorts(spec.containers[..2]) == [port, port];
    assert spec.containers[..2] == spec.containers;
    OneNumberTwice(port);
  }

  lemma OneNumberTwice(port: ContainerPort)
    requires port.containerPort != 0 && port.name != "" && port.hostPort == 0
    ensures AllErrors([port, port], false, [port.containerPort], true) == []
    ensures CountExposed([port, port], [port.containerPort]) == 2
  {
    var ports, numbers := [port, port], [port.containerPort];
    assert ports[..1] == [port] && ports[..2] == ports;
    CountNext(ports, numbers, 0);
    CountNext(ports, numbers, 1);
    var errs := AllErrors(ports, false, numbers, true);
    assert port in ports && forall p :: p in ports ==> p == port;
    assert errs != [] ==> errs[0] in errs;
    forall e ensures e !in errs {
      ErrorsTellFaults(ports, false, numbers, true, e);
    }
  }
}
