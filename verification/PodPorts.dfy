/** The ports of the containers of a pod. */
module PodPorts {
  datatype ContainerPort = ContainerPort(name: string, containerPort: int, hostPort: int)
  datatype Container = Container(ports: seq<ContainerPort>)
  datatype PodSpec = PodSpec(containers: seq<Container>, hostNetwork: bool)

  /** The ports of all containers, in the order in which nested loops meet them. */
  function AllPorts(containers: seq<Container>): seq<ContainerPort> {
    if containers == [] then []
    else AllPorts(containers[..|containers| - 1]) + containers[|containers| - 1].ports
  }

  lemma AllPortsGrow(containers: seq<Container>, i: nat)
    requires i < |containers|
    ensures AllPorts(containers[..i + 1]) == AllPorts(containers[..i]) + containers[i].ports
  {
    assert containers[..i + 1][..i] == containers[..i];
  }
}
