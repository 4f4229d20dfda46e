/** The Kubernetes side: the objects kept for each server, the API calls on them, and how a call
    can go wrong. Object names are the server name plus a fixed suffix per kind, so a server's
    objects form one slot. */
module Cluster {
  import opened Types
  import opened Builder

  /** How one call ends: as the server answered, with an error before it took effect, or with an
      error although it took effect (the reply was lost). */
  datatype Fault = Clean | Dropped | Lost

  /** Every call the reconcile loop makes, in the order of the source. */
  datatype Call =
    | NamespaceCreate | VolumeCreate | SecretCreate | ConfigMapCreate
    | ServiceGet | ServiceCreate | DeploymentCreate
    | HashGet
    | ConfigMapUpdate | SecretUpdate | MarkerGet | MarkerUpdate
    | ScaleCheck | ScaleGet | ScaleUpdate
    | FailuresReset
    | DeploymentDelete | ServiceDelete | ConfigMapDelete | SecretDelete | VolumeDelete
    | RowDelete
    | PollGet
    | FailureIncrement
    | TombstoneInsert

  /** What the outside does to the calls made for one server during one pass. A deleted Deployment
      stays visible, terminating, for the first `linger` polls of a hard reset. Poll k takes
      latency(k) nanoseconds. */
  datatype Io = Io(fault: Call -> Fault, pollFault: nat -> Fault, linger: nat, latency: nat -> pos)

  datatype Reply = Done | AlreadyExists | NotFound | Refused

  /** marker: the config-hash annotation. terminating: a deletion timestamp is set. */
  datatype Deployment = Deployment(marker: Option<Digest>, replicas: int32, terminating: bool)

  /** The objects of one server. A volume is identified by how many were made before it under the
      same name. */
  datatype Slot = Slot(
    volume: Option<nat>,
    volumesMade: nat,
    secret: Option<string>,
    configMap: Option<map<EnvVar, string>>,
    service: Option<int32>,
    deployment: Option<Deployment>)

  const NO_OBJECTS := Slot(None, 0, None, None, None, None)

  /** The cluster as a value. */
  datatype Objects = Objects(namespace: bool, slots: map<Name, Slot>) {
    function At(n: Name): Slot {
      if n in slots then slots[n] else NO_OBJECTS
    }

    function Put(n: Name, s: Slot): Objects {
      this.(slots := slots[n := s])
    }

    /** The same objects, whatever names have been looked at. */
    ghost predicate Same(o: Objects) {
      namespace == o.namespace && forall n :: At(n) == o.At(n)
    }

    /** The API server's test on the node ports p and p+1 of a new Service for n: both in the node
        port range and held by no other Service. */
    predicate PortFree(n: Name, p: int32) {
      NodePortPair(p) &&
      forall m | m in slots && m != n :: slots[m].service.Some? ==> Apart(p, slots[m].service.value)
    }

    predicate Admits(n: Name, op: Op) {
      op.CreateService? ==> PortFree(n, op.port)
    }
  }

  predicate NodePortPair(p: int32) {
    30000 <= p && p + 1 <= 32767
  }

  /** The pairs (p, p+1) and (q, q+1) share no port. */
  predicate Apart(p: int, q: int) {
    p + 1 < q || q + 1 < p
  }

  /** The state and the reply the caller sees, given the call's clean effect. */
  function Settle<S>(f: Fault, before: S, after: S, reply: Reply): (S, Reply) {
    match f
    case Clean => (after, reply)
    case Dropped => (before, Refused)
    case Lost => (after, Refused)
  }

  /** The reply to a read. */
  function Read(present: bool, f: Fault): Reply {
    if !f.Clean? then Refused else if present then Done else NotFound
  }

  /** A create counts as done when the object was there already, a delete when it was not. */
  predicate Created(r: Reply) {
    r.Done? || r.AlreadyExists?
  }

  predicate Gone(r: Reply) {
    r.Done? || r.NotFound?
  }

  /** The writing calls on one server's objects. A deleted Deployment goes at once or lingers,
      marked terminating. */
  datatype Op =
    | CreateVolume
    | CreateSecret(password: string)
    | CreateConfigMap(env: map<EnvVar, string>)
    | CreateService(port: int32)
    | CreateDeployment(marker: Digest, replicas: int32)
    | UpdateConfigMap(env: map<EnvVar, string>)
    | UpdateSecret(password: string)
    | UpdateMarker(marker: Digest)
    | UpdateReplicas(replicas: int32)
    | DeleteDeployment(lingers: bool)
    | DeleteService
    | DeleteConfigMap
    | DeleteSecret
    | DeleteVolume

  /** The clean effect and reply of a call; admitted is the port test on a new Service. */
  function Effect(s: Slot, op: Op, admitted: bool): (Slot, Reply) {
    match op
    case CreateVolume =>
      if s.volume.Some? then (s, AlreadyExists)
      else (s.(volume := Some(s.volumesMade), volumesMade := s.volumesMade + 1), Done)
    case CreateSecret(password) =>
      if s.secret.Some? then (s, AlreadyExists) else (s.(secret := Some(password)), Done)
    case CreateConfigMap(env) =>
      if s.configMap.Some? then (s, AlreadyExists) else (s.(configMap := Some(env)), Done)
    case CreateService(port) =>
      if s.service.Some? then (s, AlreadyExists)
      else if !admitted then (s, Refused)
      else (s.(service := Some(port)), Done)
    case CreateDeployment(marker, replicas) =>
      if s.deployment.Some? then (s, AlreadyExists)
      else (s.(deployment := Some(Deployment(Some(marker), replicas, false))), Done)
    case UpdateConfigMap(env) =>
      if s.configMap.None? then (s, NotFound) else (s.(configMap := Some(env)), Done)
    case UpdateSecret(password) =>
      if s.secret.None? then (s, NotFound) else (s.(secret := Some(password)), Done)
    case UpdateMarker(marker) =>
      if s.deployment.None? then (s, NotFound)
      else (s.(deployment := Some(s.deployment.value.(marker := Some(marker)))), Done)
    case UpdateReplicas(replicas) =>
      if s.deployment.None? then (s, NotFound)
      else (s.(deployment := Some(s.deployment.value.(replicas := replicas))), Done)
    case DeleteDeployment(lingers) =>
      if s.deployment.None? then (s, NotFound)
      else if lingers then (s.(deployment := Some(s.deployment.value.(terminating := true))), Done)
      else (s.(deployment := None), Done)
    case DeleteService => (s.(service := None), if s.service.Some? then Done else NotFound)
    case DeleteConfigMap => (s.(configMap := None), if s.configMap.Some? then Done else NotFound)
    case DeleteSecret => (s.(secret := None), if s.secret.Some? then Done else NotFound)
    case DeleteVolume => (s.(volume := None), if s.volume.Some? then Done else NotFound)
  }

  function Perform(s: Slot, op: Op, admitted: bool, f: Fault): (Slot, Reply) {
    var (after, reply) := Effect(s, op, admitted);
    Settle(f, s, after, reply)
  }

  /** A terminating Deployment finally disappears. */
  function Finalize(s: Slot): Slot {
    if s.deployment.Some? && s.deployment.value.terminating then s.(deployment := None) else s
  }

  /** The API server as the client sees it. */
  class Clientset {
    var namespace: bool
    var slots: map<Name, Slot>

    function State(): Objects
      reads this
    {
      Objects(namespace, slots)
    }

    constructor ()
      ensures State() == Objects(false, map[])
    {
      namespace := false;
      slots := map[];
    }

    method CreateNamespace(f: Fault) returns (r: Reply)
      modifies this
      ensures (namespace, r) == Settle(f, old(namespace), true, if old(namespace) then AlreadyExists else Done)
      ensures slots == old(slots)
    {
      var (ns, reply) := Settle(f, namespace, true, if namespace then AlreadyExists else Done);
      namespace := ns;
      r := reply;
    }

    method Do(n: Name, op: Op, f: Fault) returns (r: Reply)
      modifies this
      ensures var (s, reply) := Perform(old(State().At(n)), op, old(State().Admits(n, op)), f);
              State() == old(State()).Put(n, s) && r == reply
    {
      var (s, reply) := Perform(State().At(n), op, State().Admits(n, op), f);
      slots := slots[n := s];
      r := reply;
    }

    method GetService(n: Name, f: Fault) returns (r: Reply)
      ensures r == Read(State().At(n).service.Some?, f)
    {
      r := Read(State().At(n).service.Some?, f);
    }

    method GetDeployment(n: Name, f: Fault) returns (r: Reply, d: Option<Deployment>)
      ensures r == Read(State().At(n).deployment.Some?, f)
      ensures d == if r.Done? then State().At(n).deployment else None
    {
      r := Read(State().At(n).deployment.Some?, f);
      d := if r.Done? then State().At(n).deployment else None;
    }

    /** Time passes; a terminating Deployment of n may have disappeared meanwhile. */
    method Sleep(n: Name, disappears: bool)
      modifies this
      ensures State() == old(State()).Put(n, if disappears then Finalize(old(State().At(n))) else old(State().At(n)))
    {
      slots := slots[n := if disappears then Finalize(State().At(n)) else State().At(n)];
    }
  }
}
