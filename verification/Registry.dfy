/** internal/k8s/registry.go and internal/k8s/informer.go: the in-memory projection of the
    Deployment, Service and Pod event streams. Time stamps of the entries are left out. */
module Registry {
  import opened Types

  datatype Status = NoStatus | Provisioning | Starting | Running | Stopped | Deleting

  /** The fields only Deployment events write. */
  datatype DeploymentPart = DeploymentPart(status: Status, replicas: int32, ready: int32, namespace: string)

  /** The fields only Service events write. */
  datatype ServicePart = ServicePart(nodePort: int32, queryPort: int32)

  /** The fields only Pod events write; a zero runningSince is None. */
  datatype PodPart = PodPart(nodeIP: string, restartCount: int32, runningSince: Option<int>, podWaiting: string)

  datatype Entry = Entry(deployment: DeploymentPart, service: ServicePart, pod: PodPart)

  const NEW_ENTRY := Entry(DeploymentPart(NoStatus, 0, 0, ""), ServicePart(0, 0), PodPart("", 0, None, ""))

  type Servers = map<Name, Entry>

  /** A watched Deployment. */
  datatype DeploymentObj = DeploymentObj(
    name: Name,
    managed: bool,
    namespace: string,
    deleted: bool,
    replicas: Option<int32>,
    statusReplicas: int32,
    readyReplicas: int32)

  datatype PortObj = PortObj(name: string, nodePort: int32)

  /** A watched Service, under its own name. */
  datatype ServiceObj = ServiceObj(name: string, managed: bool, ports: seq<PortObj>)

  datatype ContainerState = RunningSince(at: Option<int>) | Waiting(reason: string) | Terminated

  datatype ContainerStatus = ContainerStatus(restartCount: int32, state: ContainerState)

  datatype PodObj = PodObj(managed: bool, server: Option<Name>, hostIP: string, containers: seq<ContainerStatus>)

  function DeploymentStatus(d: DeploymentObj): Status {
    var replicas := if d.replicas.Some? then d.replicas.value else 1;
    if d.deleted then Deleting
    else if replicas == 0 then Stopped
    else if d.readyReplicas >= replicas && d.statusReplicas > 0 then Running
    else if d.statusReplicas == 0 then Provisioning
    else Starting
  }

  const SERVICE_SUFFIX := "-service"

  /** strings.TrimSuffix(s, "-service"). */
  function TrimServiceSuffix(s: string): string {
    if |s| >= |SERVICE_SUFFIX| && s[|s| - |SERVICE_SUFFIX|..] == SERVICE_SUFFIX
    then s[..|s| - |SERVICE_SUFFIX|]
    else s
  }

  /** The node port of the last port with the given name, or 0. */
  function PortNamed(ports: seq<PortObj>, name: string): int32 {
    if ports == [] then 0
    else if ports[|ports| - 1].name == name then ports[|ports| - 1].nodePort
    else PortNamed(ports[..|ports| - 1], name)
  }

  // What each event does to the fields it owns.

  function DeploymentSeen(p: DeploymentPart, d: DeploymentObj): DeploymentPart {
    DeploymentPart(DeploymentStatus(d), if d.replicas.Some? then d.replicas.value else p.replicas, d.readyReplicas,
        d.namespace)
  }

  function ServiceSeen(s: ServiceObj): ServicePart {
    ServicePart(PortNamed(s.ports, "valheim-udp"), PortNamed(s.ports, "valheim-query"))
  }

  function PodSeen(p: PodPart, o: PodObj): PodPart {
    if o.containers == [] then p.(nodeIP := o.hostIP)
    else
      match o.containers[0].state
      case RunningSince(at) => PodPart(o.hostIP, o.containers[0].restartCount, at, "")
      case Waiting(reason) => PodPart(o.hostIP, o.containers[0].restartCount, None, reason)
      case Terminated => PodPart(o.hostIP, o.containers[0].restartCount, None, "")
  }

  const NO_SERVICE := ServicePart(0, 0)
  const NO_POD := PodPart("", 0, None, "")

  // The registry operations.

  function EntryOr(r: Servers, n: Name): Entry {
    if n in r then r[n] else NEW_ENTRY
  }

  function Upsert(r: Servers, n: Name, fn: Entry -> Entry): Servers {
    r[n := fn(EntryOr(r, n))]
  }

  function UpdateIfExists(r: Servers, n: Name, fn: Entry -> Entry): Servers {
    if n in r then r[n := fn(r[n])] else r
  }

  datatype Event =
    | DeploymentUpsert(d: DeploymentObj)
    | DeploymentDelete(d: DeploymentObj)
    | ServiceUpsert(s: ServiceObj)
    | ServiceDelete(s: ServiceObj)
    | PodUpsert(p: PodObj)
    | PodDelete(p: PodObj)

  /** One informer callback. A Deployment delete is not filtered by label. */
  function Apply(r: Servers, e: Event): Servers {
    match e
    case DeploymentUpsert(d) =>
      if !d.managed then r else Upsert(r, d.name, (x: Entry) => x.(deployment := DeploymentSeen(x.deployment, d)))
    case DeploymentDelete(d) => r - {d.name}
    case ServiceUpsert(s) =>
      if !s.managed then r else Upsert(r, TrimServiceSuffix(s.name), (x: Entry) => x.(service := ServiceSeen(s)))
    case ServiceDelete(s) =>
      if !s.managed then r else UpdateIfExists(r, TrimServiceSuffix(s.name), (x: Entry) => x.(service := NO_SERVICE))
    case PodUpsert(p) =>
      if !p.managed || p.server.None? then r
      else UpdateIfExists(r, p.server.value, (x: Entry) => x.(pod := PodSeen(x.pod, p)))
    case PodDelete(p) =>
      if !p.managed || p.server.None? then r
      else UpdateIfExists(r, p.server.value, (x: Entry) => x.(pod := NO_POD))
  }

  function ApplyAll(r: Servers, es: seq<Event>): Servers
    decreases |es|
  {
    if es == [] then r else ApplyAll(Apply(r, es[0]), es[1..])
  }

  class ServerRegistry {
    var servers: Servers

    constructor ()
      ensures servers == map[]
    {
      servers := map[];
    }

    method Get(n: Name) returns (e: Option<Entry>)
      ensures e == if n in servers then Some(servers[n]) else None
    {
      e := if n in servers then Some(servers[n]) else None;
    }

    /** The names in Go's random map order. */
    method List() returns (names: seq<Name>)
      ensures Lists(names, servers.Keys)
    {
      names := [];
      var left := servers.Keys;
      while left != {}
        invariant left <= servers.Keys
        invariant (set k | k in names) == servers.Keys - left
        invariant forall i, j | 0 <= i < j < |names| :: names[i] != names[j]
        decreases left
      {
        var n :| n in left;
        assert (set k | k in names + [n]) == (set k | k in names) + {n};
        names := names + [n];
        left := left - {n};
      }
    }

    method Upsert(n: Name, fn: Entry -> Entry)
      modifies this
      ensures servers == old(servers)[n := fn(EntryOr(old(servers), n))]
    {
      if n !in servers {
        servers := servers[n := NEW_ENTRY];
      }
      servers := servers[n := fn(servers[n])];
    }

    method Delete(n: Name)
      modifies this
      ensures servers == old(servers) - {n}
    {
      if n in servers {
        servers := servers - {n};
      }
    }

    method UpdateIfExists(n: Name, fn: Entry -> Entry) returns (found: bool)
      modifies this
      ensures found == (n in old(servers))
      ensures servers == if found then old(servers)[n := fn(old(servers)[n])] else old(servers)
    {
      found := n in servers;
      if found {
        servers := servers[n := fn(servers[n])];
      }
    }
  }
}
