/** From the ports of two templates to the conflict the controller reports. */
module PortClashes {
  import opened Wrappers
  import opened RuntimeTypes
  import opened Conflict
  import Ports

  /** The instance's ports are those of a list: its own, or while it has none its manifest's. */
  predicate Exposes(i: Instance, ports: seq<string>) {
    if i.hostPorts != [] then i.hostPorts == Ports.HostPorts(ports)
    else i.manifest.Some? && i.manifest.value.hostPorts == Ports.HostPorts(ports)
  }

  /** Two instances on one node whose stored templates make docker bind one host port are reported
      to conflict as soon as the other one occupies its slot. */
  lemma BoundPortClashIsReported(item: Instance, others: seq<Instance>, other: Instance, target: Action,
                                 signals: Signals, own: seq<string>, its: seq<string>, x: string, y: string)
    requires other in others && Competes(item, other)
    requires Exposes(item, own) && Exposes(other, its)
    requires x in own && y in its && Ports.ValidatePort(x) && Ports.ValidatePort(y)
    requires Ports.ParsePortMapping(x).Some? && Ports.ParsePortMapping(y).Some?
    requires Ports.ParsePortMapping(x).value.hostPort == Ports.ParsePortMapping(y).value.hostPort
    ensures About(PortConflict, WantsLoad(item, target), other.id) in ConflictReasons(item, others, target, signals)
  {
    Ports.ValidatedMappingIsBindable(x);
    Ports.ValidatedMappingIsBindable(y);
    var port := Ports.ConflictHostPort(x);
    Ports.BoundPortIsListed(own, x);
    Ports.BoundPortIsListed(its, y);
    assert port in PortsOf(item) && port in PortsOf(other);
    PortConflictIff(item, others, target, signals, About(PortConflict, WantsLoad(item, target), other.id));
  }
}
