/** internal/k8s/manager.go: creating, deleting, rebuilding and updating the objects of one server.
    Each operation is a function on the server's slot, a function on the whole cluster, and a method
    on the client that makes the calls one by one and stops at the first error. */
module Manager {
  import opened Types
  import opened Builder
  import opened Cluster

  /** Nanoseconds, as in Go's durations. */
  const RECREATE_DEADLINE: nat := 150_000_000_000
  const RECREATE_POLL_INTERVAL := 5_000_000_000

  const MAX_REPLICAS: int32 := 1

  /** What an operation left behind and whether it returned nil. */
  datatype Did = Did(slot: Slot, ok: bool)

  /** The first calls of CreateAll after the namespace: volume, Secret, ConfigMap. */
  function CreateData(s: Slot, cfg: ValheimConfig, io: Io): Did {
    var (s1, r1) := Perform(s, CreateVolume, true, io.fault(VolumeCreate));
    if !Created(r1) then Did(s1, false) else
    var (s2, r2) := Perform(s1, CreateSecret(cfg.core.serverPass), true, io.fault(SecretCreate));
    if !Created(r2) then Did(s2, false) else
    var (s3, r3) := Perform(s2, CreateConfigMap(EnvOf(cfg)), true, io.fault(ConfigMapCreate));
    Did(s3, Created(r3))
  }

  function CreateServiceIfMissing(s: Slot, port: int32, free: bool, io: Io): Did {
    match Read(s.service.Some?, io.fault(ServiceGet))
    case Done => Did(s, true)
    case NotFound =>
      var (s', r) := Perform(s, CreateService(port), free, io.fault(ServiceCreate));
      Did(s', Created(r))
    case _ => Did(s, false)
  }

  /** CreateAll after the namespace call. free: the port test on a new Service. */
  function CreateObjects(s: Slot, cfg: ValheimConfig, free: bool, io: Io): Did {
    var d := CreateData(s, cfg, io);
    if !d.ok then d else
    var e := CreateServiceIfMissing(d.slot, cfg.core.serverPort, free, io);
    if !e.ok then e else
    var (s', r) := Perform(e.slot, CreateDeployment(HashCfg(cfg), MAX_REPLICAS), true, io.fault(DeploymentCreate));
    Did(s', Created(r))
  }

  function CreateAll(s: Slot, cfg: ValheimConfig, free: bool, io: Io): Did {
    if io.fault(NamespaceCreate).Clean? then CreateObjects(s, cfg, free, io) else Did(s, false)
  }

  /** The first calls of DeleteAll: Deployment and Service. */
  function DeleteAccess(s: Slot, io: Io): Did {
    var (s1, r1) := Perform(s, DeleteDeployment(io.linger > 0), true, io.fault(DeploymentDelete));
    if !Gone(r1) then Did(s1, false) else
    var (s2, r2) := Perform(s1, DeleteService, true, io.fault(ServiceDelete));
    Did(s2, Gone(r2))
  }

  /** The last calls of DeleteAll: Secret, and the volume if purging. */
  function DeleteSecretAndVolume(s: Slot, purge: bool, io: Io): Did {
    var (s4, r4) := Perform(s, DeleteSecret, true, io.fault(SecretDelete));
    if !Gone(r4) then Did(s4, false) else
    if !purge then Did(s4, true) else
    var (s5, r5) := Perform(s4, DeleteVolume, true, io.fault(VolumeDelete));
    Did(s5, Gone(r5))
  }

  function DeleteData(s: Slot, purge: bool, io: Io): Did {
    var (s3, r3) := Perform(s, DeleteConfigMap, true, io.fault(ConfigMapDelete));
    if !Gone(r3) then Did(s3, false) else DeleteSecretAndVolume(s3, purge, io)
  }

  function DeleteAll(s: Slot, purge: bool, io: Io): Did {
    var d := DeleteAccess(s, io);
    if !d.ok then d else DeleteData(d.slot, purge, io)
  }

  datatype Polled = Polled(slot: Slot, absent: bool, polls: nat)

  /** How long a sleep lasts: a duration that is not positive returns at once. */
  function Pause(sleep: int): nat {
    if sleep < 0 then 0 else sleep
  }

  /** The poll loop of RecreateAll, elapsed nanoseconds and k polls into it. */
  function Poll(s: Slot, io: Io, sleep: int, elapsed: nat, k: nat): Polled
    decreases if elapsed < RECREATE_DEADLINE then RECREATE_DEADLINE - elapsed else 0
  {
    var now := elapsed + Pause(sleep);
    var s' := if io.linger <= k then Finalize(s) else s;
    if !io.pollFault(k).Clean? then Polled(s', false, k + 1)
    else if s'.deployment.None? then Polled(s', true, k + 1)
    else if now >= RECREATE_DEADLINE then Polled(s', false, k + 1)
    else Poll(s', io, sleep, now + io.latency(k), k + 1)
  }

  function RecreateAll(s: Slot, cfg: ValheimConfig, free: bool, io: Io, sleep: int): Did {
    var d := DeleteAll(s, false, io);
    if !d.ok then d else
    var p := Poll(d.slot, io, sleep, 0, 0);
    if !p.absent then Did(p.slot, false) else CreateAll(p.slot, cfg, free, io)
  }

  /** The end of ApplyConfig: read the Deployment and write it back with the hash. */
  function ApplyMarker(s: Slot, hash: Digest, io: Io): Did {
    if !Read(s.deployment.Some?, io.fault(MarkerGet)).Done? then Did(s, false) else
    var (s', r) := Perform(s, UpdateMarker(hash), true, io.fault(MarkerUpdate));
    Did(s', r.Done?)
  }

  function ApplyConfig(s: Slot, cfg: ValheimConfig, hash: Digest, io: Io): Did {
    var (s1, r1) := Perform(s, UpdateConfigMap(EnvOf(cfg)), true, io.fault(ConfigMapUpdate));
    if !r1.Done? then Did(s1, false) else
    var (s2, r2) := Perform(s1, UpdateSecret(cfg.core.serverPass), true, io.fault(SecretUpdate));
    if !r2.Done? then Did(s2, false) else ApplyMarker(s2, hash, io)
  }

  // The same operations on the whole cluster.

  function CreateAllIn(c: Objects, n: Name, cfg: ValheimConfig, io: Io): (Objects, bool) {
    var c1 := if io.fault(NamespaceCreate).Dropped? then c else c.(namespace := true);
    if !io.fault(NamespaceCreate).Clean? then (c1, false) else
    var d := CreateObjects(c1.At(n), cfg, c1.PortFree(n, cfg.core.serverPort), io);
    (c1.Put(n, d.slot), d.ok)
  }

  function DeleteAllIn(c: Objects, n: Name, purge: bool, io: Io): (Objects, bool) {
    var d := DeleteAll(c.At(n), purge, io);
    (c.Put(n, d.slot), d.ok)
  }

  function RecreateAllIn(c: Objects, n: Name, cfg: ValheimConfig, io: Io, sleep: int): (Objects, bool) {
    var (c1, ok) := DeleteAllIn(c, n, false, io);
    if !ok then (c1, false) else
    var p := Poll(c1.At(n), io, sleep, 0, 0);
    var c2 := c1.Put(n, p.slot);
    if !p.absent then (c2, false) else CreateAllIn(c2, n, cfg, io)
  }

  function ApplyConfigIn(c: Objects, n: Name, cfg: ValheimConfig, hash: Digest, io: Io): (Objects, bool) {
    var d := ApplyConfig(c.At(n), cfg, hash, io);
    (c.Put(n, d.slot), d.ok)
  }

  /** Only the last write to a slot counts. */
  lemma PutsCollapse(c: Objects, n: Name)
    ensures forall a, b :: c.Put(n, a).Put(n, b) == c.Put(n, b)
  {
    forall a, b ensures c.Put(n, a).Put(n, b) == c.Put(n, b) {
      assert c.slots[n := a][n := b] == c.slots[n := b];
    }
  }

  /** A slot write does not disturb the port test of the same server. */
  lemma PortFreeKept(c: Objects, n: Name, s: Slot, p: int32)
    ensures c.Put(n, s).PortFree(n, p) == c.PortFree(n, p)
  {
    if c.PortFree(n, p) {
      forall m | m in c.Put(n, s).slots && m != n
        ensures c.Put(n, s).slots[m].service.Some? ==> Apart(p, c.Put(n, s).slots[m].service.value)
      {
        assert m in c.slots && c.slots[m] == c.Put(n, s).slots[m];
      }
    } else if NodePortPair(p) {
      var m :| m in c.slots && m != n && c.slots[m].service.Some? && !Apart(p, c.slots[m].service.value);
      assert m in c.Put(n, s).slots && c.Put(n, s).slots[m] == c.slots[m];
    }
  }

  class ServerManager {
    const name: Name
    const cfg: ValheimConfig
    const client: Clientset

    constructor (client: Clientset, name: Name, cfg: ValheimConfig)
      ensures this.client == client && this.name == name && this.cfg == cfg
    {
      this.client := client;
      this.name := name;
      this.cfg := cfg;
    }

    method CreateAll(io: Io) returns (ok: bool)
      modifies client
      ensures (client.State(), ok) == CreateAllIn(old(client.State()), name, cfg, io)
    {
      var r := client.CreateNamespace(io.fault(NamespaceCreate));
      if !Created(r) { return false; }
      ghost var c1 := client.State();
      PutsCollapse(c1, name);
      r := client.Do(name, CreateVolume, io.fault(VolumeCreate));
      assert client.State() == c1.Put(name, client.State().At(name));
      if !Created(r) { return false; }
      r := client.Do(name, CreateSecret(cfg.core.serverPass), io.fault(SecretCreate));
      assert client.State() == c1.Put(name, client.State().At(name));
      if !Created(r) { return false; }
      r := client.Do(name, CreateConfigMap(EnvOf(cfg)), io.fault(ConfigMapCreate));
      assert client.State() == c1.Put(name, client.State().At(name));
      if !Created(r) { return false; }
      r := client.GetService(name, io.fault(ServiceGet));
      if r.Refused? { return false; }
      PortFreeKept(c1, name, client.State().At(name), cfg.core.serverPort);
      if r.NotFound? {
        r := client.Do(name, CreateService(cfg.core.serverPort), io.fault(ServiceCreate));
        assert client.State() == c1.Put(name, client.State().At(name));
        if !Created(r) { return false; }
      }
      r := client.Do(name, CreateDeployment(HashCfg(cfg), MAX_REPLICAS), io.fault(DeploymentCreate));
      assert client.State() == c1.Put(name, client.State().At(name));
      return Created(r);
    }

    method DeleteAll(purge: bool, io: Io) returns (ok: bool)
      modifies client
      ensures (client.State(), ok) == DeleteAllIn(old(client.State()), name, purge, io)
    {
      ghost var c1 := client.State();
      PutsCollapse(c1, name);
      var r := client.Do(name, DeleteDeployment(io.linger > 0), io.fault(DeploymentDelete));
      assert client.State() == c1.Put(name, client.State().At(name));
      if !Gone(r) { return false; }
      r := client.Do(name, DeleteService, io.fault(ServiceDelete));
      assert client.State() == c1.Put(name, client.State().At(name));
      if !Gone(r) { return false; }
      r := client.Do(name, DeleteConfigMap, io.fault(ConfigMapDelete));
      assert client.State() == c1.Put(name, client.State().At(name));
      if !Gone(r) { return false; }
      r := client.Do(name, DeleteSecret, io.fault(SecretDelete));
      assert client.State() == c1.Put(name, client.State().At(name));
      if !Gone(r) { return false; }
      if purge {
        r := client.Do(name, DeleteVolume, io.fault(VolumeDelete));
        assert client.State() == c1.Put(name, client.State().At(name));
        return Gone(r);
      }
      return true;
    }

    method RecreateAll(sleep: int, io: Io) returns (ok: bool)
      modifies client
      ensures (client.State(), ok) == RecreateAllIn(old(client.State()), name, cfg, io, sleep)
    {
      ok := DeleteAll(false, io);
      if !ok { return; }
      ghost var c1 := client.State();
      PutsCollapse(c1, name);
      ghost var end := Poll(c1.At(name), io, sleep, 0, 0);
      var elapsed, k := 0, 0;
      while true
        invariant client.State() == c1.Put(name, client.State().At(name))
        invariant Poll(client.State().At(name), io, sleep, elapsed, k) == end
        decreases if elapsed < RECREATE_DEADLINE then RECREATE_DEADLINE - elapsed else 0
      {
        client.Sleep(name, io.linger <= k);
        elapsed := elapsed + Pause(sleep);
        var r, _ := client.GetDeployment(name, io.pollFault(k));
        if r.NotFound? { break; }
        if elapsed >= RECREATE_DEADLINE || r.Refused? { return false; }
        elapsed := elapsed + io.latency(k);
        k := k + 1;
      }
      ok := CreateAll(io);
    }

    method ApplyConfig(hash: Digest, io: Io) returns (ok: bool)
      modifies client
      ensures (client.State(), ok) == ApplyConfigIn(old(client.State()), name, cfg, hash, io)
    {
      ghost var c1 := client.State();
      PutsCollapse(c1, name);
      var r := client.Do(name, UpdateConfigMap(EnvOf(cfg)), io.fault(ConfigMapUpdate));
      assert client.State() == c1.Put(name, client.State().At(name));
      if !r.Done? { return false; }
      r := client.Do(name, UpdateSecret(cfg.core.serverPass), io.fault(SecretUpdate));
      assert client.State() == c1.Put(name, client.State().At(name));
      if !r.Done? { return false; }
      var found, _ := client.GetDeployment(name, io.fault(MarkerGet));
      if !found.Done? { return false; }
      r := client.Do(name, UpdateMarker(hash), io.fault(MarkerUpdate));
      assert client.State() == c1.Put(name, client.State().At(name));
      return r.Done?;
    }
  }
}
