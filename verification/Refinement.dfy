/** A pass as the controller executes it is a run of the state machine: call by call, the loop can do
    exactly what Converge.Pass, and so the method Controller.Reconcile, does. */
module RefinementProofs {
  import opened Types
  import opened Builder
  import opened Cluster
  import opened Manager
  import opened Store
  import opened Converge
  import opened Machine

  /** The loop's own events, and the disappearance of a terminating Deployment it waits for. */
  predicate Own(e: Event) {
    IsLoopEvent(e) || e.DeploymentGone?
  }

  ghost predicate Leads(s: State, es: seq<Event>, s': State) {
    Run(s, es) == s' && forall e | e in es :: Own(e)
  }

  ghost predicate Reaches(s: State, s': State) {
    exists es :: Leads(s, es, s')
  }

  lemma ReachesSelf(s: State)
    ensures Reaches(s, s)
  {
    assert Leads(s, [], s);
  }

  lemma ReachesNext(s: State, e: Event)
    requires Own(e)
    ensures Reaches(s, Apply(s, e))
  {
    RunFirst(s, e, []);
    assert [e] + [] == [e];
    assert Leads(s, [e], Apply(s, e));
  }

  lemma ReachesOn(a: State, b: State, c: State)
    requires Reaches(a, b) && Reaches(b, c)
    ensures Reaches(a, c)
  {
    var es :| Leads(a, es, b);
    var fs :| Leads(b, fs, c);
    RunSplits(a, es, fs);
    assert Leads(a, es + fs, c);
  }

  // One row's turn, from call to call. s is the state in which the turn began; a Turn says how far it is.

  ghost predicate Gets(s: State, rec: Record, a: Turn, b: Turn)
    requires s.ctl.Rows?
  {
    Reaches(AfterTurn(s, rec, a), AfterTurn(s, rec, b))
  }

  lemma GetsOn(s: State, rec: Record, a: Turn, b: Turn, d: Turn)
    requires s.ctl.Rows? && Gets(s, rec, a, b) && Gets(s, rec, b, d)
    ensures Gets(s, rec, a, d)
  {
    ReachesOn(AfterTurn(s, rec, a), AfterTurn(s, rec, b), AfterTurn(s, rec, d));
  }

  lemma GetsCall(s: State, rec: Record, c: Objects, t: Tables, pc: Call, f: Fault, lingers: bool, giveUp: bool, r: Turn)
    requires s.ctl.Rows? && r == Step(c, t, s.registry, Job(rec, pc), f, lingers, giveUp)
    ensures Gets(s, rec, Turn(c, t, Some(pc)), r)
  {
    var s1 := AfterTurn(s, rec, Turn(c, t, Some(pc)));
    ReachesNext(s1, MakeCall(f, lingers, giveUp));
    assert AfterTurn(s1, rec, r) == AfterTurn(s, rec, r);
  }

  function Next(ok: bool, pc: Call): Option<Call> {
    Some(if ok then pc else FailureIncrement)
  }

  /** A writing call under the configured name, from the objects c0 with the slot x stored or, at the
      start, from c0 itself. */
  lemma GetsWrite(s: State, rec: Record, cfg: ValheimConfig, c0: Objects, c: Objects, x: Slot, t: Tables, pc: Call,
      op: Op, f: Fault, lingers: bool)
    requires s.ctl.Rows? && rec.row.config == Encoded(cfg) && OpAt(rec, cfg, pc, lingers) == Some(op)
    requires !pc.ScaleUpdate?
    requires c.At(cfg.core.serverName) == x && (c == c0 || c == c0.Put(cfg.core.serverName, x))
    ensures var n := cfg.core.serverName;
            var (y, r) := Perform(x, op, c0.Admits(n, op), f);
            Gets(s, rec, Turn(c, t, Some(pc)), Turn(c0.Put(n, y), t, Next(Accepts(pc, r), AfterWrite(rec.row, pc))))
  {
    var n := cfg.core.serverName;
    if op.CreateService? {
      PortFreeKept(c0, n, x, op.port);
    }
    PutsCollapse(c0, n);
    var r := WriteCall(c, t, rec, cfg, pc, op, f);
    GetsCall(s, rec, c, t, pc, f, lingers, false, r);
  }

  /** The same, further on in the turn that began with a. */
  lemma GetsWriteOn(s: State, rec: Record, cfg: ValheimConfig, a: Turn, c0: Objects, x: Slot, t: Tables, pc: Call,
      op: Op, f: Fault)
    requires s.ctl.Rows? && rec.row.config == Encoded(cfg) && OpAt(rec, cfg, pc, false) == Some(op) && !pc.ScaleUpdate?
    requires Gets(s, rec, a, Turn(c0.Put(cfg.core.serverName, x), t, Some(pc)))
    ensures var n := cfg.core.serverName;
            var (y, r) := Perform(x, op, c0.Admits(n, op), f);
            Gets(s, rec, a, Turn(c0.Put(n, y), t, Next(Accepts(pc, r), AfterWrite(rec.row, pc))))
  {
    var n := cfg.core.serverName;
    var (y, r) := Perform(x, op, c0.Admits(n, op), f);
    GetsWrite(s, rec, cfg, c0, c0.Put(n, x), x, t, pc, op, f, false);
    GetsOn(s, rec, a, Turn(c0.Put(n, x), t, Some(pc)),
           Turn(c0.Put(n, y), t, Next(Accepts(pc, r), AfterWrite(rec.row, pc))));
  }

  lemma DataRun(s: State, rec: Record, cfg: ValheimConfig, io: Io, c: Objects, t: Tables)
    requires s.ctl.Rows? && rec.row.config == Encoded(cfg)
    ensures var n := cfg.core.serverName;
            var d := CreateData(c.At(n), cfg, io);
            Gets(s, rec, Turn(c, t, Some(VolumeCreate)), Turn(c.Put(n, d.slot), t, Next(d.ok, ServiceGet)))
  {
    var n := cfg.core.serverName;
    var a := Turn(c, t, Some(VolumeCreate));
    var (s1, r1) := Perform(c.At(n), CreateVolume, true, io.fault(VolumeCreate));
    GetsWrite(s, rec, cfg, c, c, c.At(n), t, VolumeCreate, CreateVolume, io.fault(VolumeCreate), false);
    if Created(r1) {
      var op := CreateSecret(cfg.core.serverPass);
      var (s2, r2) := Perform(s1, op, true, io.fault(SecretCreate));
      GetsWriteOn(s, rec, cfg, a, c, s1, t, SecretCreate, op, io.fault(SecretCreate));
      if Created(r2) {
        var op := CreateConfigMap(EnvOf(cfg));
        var (s3, r3) := Perform(s2, op, true, io.fault(ConfigMapCreate));
        GetsWriteOn(s, rec, cfg, a, c, s2, t, ConfigMapCreate, op, io.fault(ConfigMapCreate));
      }
    }
  }

  lemma ServiceRun(s: State, rec: Record, cfg: ValheimConfig, io: Io, c: Objects, x: Slot, t: Tables)
    requires s.ctl.Rows? && rec.row.config == Encoded(cfg)
    ensures var n := cfg.core.serverName;
            var d := CreateServiceIfMissing(x, cfg.core.serverPort, c.PortFree(n, cfg.core.serverPort), io);
            Gets(s, rec, Turn(c.Put(n, x), t, Some(ServiceGet)),
                Turn(c.Put(n, d.slot), t, Next(d.ok, DeploymentCreate)))
  {
    var n := cfg.core.serverName;
    var r := OtherCall(c.Put(n, x), t, s.registry, rec, cfg, ServiceGet, io.fault(ServiceGet), false);
    GetsCall(s, rec, c.Put(n, x), t, ServiceGet, io.fault(ServiceGet), false, false, r);
    if r.next == Some(ServiceCreate) {
      var op := CreateService(cfg.core.serverPort);
      GetsWrite(s, rec, cfg, c, c.Put(n, x), x, t, ServiceCreate, op, io.fault(ServiceCreate), false);
      var (y, reply) := Perform(x, op, c.Admits(n, op), io.fault(ServiceCreate));
      GetsOn(s, rec, Turn(c.Put(n, x), t, Some(ServiceGet)), r,
          Turn(c.Put(n, y), t, Next(Created(reply), DeploymentCreate)));
    }
  }

  function AfterCreation(row: Row): Call {
    if HardResetDue(row) then ScaleCheck else HashGet
  }

  lemma ObjectsRun(s: State, rec: Record, cfg: ValheimConfig, io: Io, c: Objects, t: Tables)
    requires s.ctl.Rows? && rec.row.config == Encoded(cfg)
    ensures var n := cfg.core.serverName;
            var d := CreateObjects(c.At(n), cfg, c.PortFree(n, cfg.core.serverPort), io);
            Gets(s, rec, Turn(c, t, Some(VolumeCreate)), Turn(c.Put(n, d.slot), t, Next(d.ok, AfterCreation(rec.row))))
  {
    var n := cfg.core.serverName;
    var a := Turn(c, t, Some(VolumeCreate));
    DataRun(s, rec, cfg, io, c, t);
    var d := CreateData(c.At(n), cfg, io);
    if d.ok {
      ServiceRun(s, rec, cfg, io, c, d.slot, t);
      var e := CreateServiceIfMissing(d.slot, cfg.core.serverPort, c.PortFree(n, cfg.core.serverPort), io);
      GetsOn(s, rec, a, Turn(c.Put(n, d.slot), t, Some(ServiceGet)),
          Turn(c.Put(n, e.slot), t, Next(e.ok, DeploymentCreate)));
      if e.ok {
        var op := CreateDeployment(HashCfg(cfg), MAX_REPLICAS);
        GetsWrite(s, rec, cfg, c, c.Put(n, e.slot), e.slot, t, DeploymentCreate, op, io.fault(DeploymentCreate), false);
        var (y, r) := Perform(e.slot, op, true, io.fault(DeploymentCreate));
        GetsOn(s, rec, a, Turn(c.Put(n, e.slot), t, Some(DeploymentCreate)),
            Turn(c.Put(n, y), t, Next(Created(r), AfterCreation(rec.row))));
      }
    }
  }

  lemma CreateAllRun(s: State, rec: Record, cfg: ValheimConfig, io: Io, c: Objects, t: Tables)
    requires s.ctl.Rows? && rec.row.config == Encoded(cfg)
    ensures var (c', ok) := CreateAllIn(c, cfg.core.serverName, cfg, io);
            Gets(s, rec, Turn(c, t, Some(NamespaceCreate)), Turn(c', t, Next(ok, AfterCreation(rec.row))))
  {
    var f := io.fault(NamespaceCreate);
    var r := OtherCall(c, t, s.registry, rec, cfg, NamespaceCreate, f, false);
    GetsCall(s, rec, c, t, NamespaceCreate, f, false, false, r);
    if f.Clean? {
      var c1 := c.(namespace := true);
      ObjectsRun(s, rec, cfg, io, c1, t);
      var (c', ok) := CreateAllIn(c, cfg.core.serverName, cfg, io);
      GetsOn(s, rec, Turn(c, t, Some(NamespaceCreate)), r, Turn(c', t, Next(ok, AfterCreation(rec.row))));
    }
  }

  /** What follows a completed DeleteAll. */
  function AfterDeletion(row: Row): Call {
    if row.desired.Deleting? then RowDelete else PollGet
  }

  function Purges(row: Row): bool {
    row.desired.Deleting? && row.purge
  }

  lemma AccessDeletionRun(s: State, rec: Record, cfg: ValheimConfig, io: Io, c: Objects, t: Tables)
    requires s.ctl.Rows? && rec.row.config == Encoded(cfg)
    ensures var n := cfg.core.serverName;
            var d := DeleteAccess(c.At(n), io);
            Gets(s, rec, Turn(c, t, Some(DeploymentDelete)), Turn(c.Put(n, d.slot), t, Next(d.ok, ConfigMapDelete)))
  {
    var n := cfg.core.serverName;
    var a := Turn(c, t, Some(DeploymentDelete));
    var op := DeleteDeployment(io.linger > 0);
    var (s1, r1) := Perform(c.At(n), op, true, io.fault(DeploymentDelete));
    GetsWrite(s, rec, cfg, c, c, c.At(n), t, DeploymentDelete, op, io.fault(DeploymentDelete), io.linger > 0);
    if Gone(r1) {
      var (s2, r2) := Perform(s1, DeleteService, true, io.fault(ServiceDelete));
      GetsWriteOn(s, rec, cfg, a, c, s1, t, ServiceDelete, DeleteService, io.fault(ServiceDelete));
    }
  }

  lemma SecretDeletionRun(s: State, rec: Record, cfg: ValheimConfig, io: Io, c: Objects, x: Slot, t: Tables)
    requires s.ctl.Rows? && rec.row.config == Encoded(cfg)
    ensures var n := cfg.core.serverName;
            var d := DeleteSecretAndVolume(x, Purges(rec.row), io);
            Gets(s, rec, Turn(c.Put(n, x), t, Some(SecretDelete)),
                 Turn(c.Put(n, d.slot), t, Next(d.ok, AfterDeletion(rec.row))))
  {
    var n := cfg.core.serverName;
    var a := Turn(c.Put(n, x), t, Some(SecretDelete));
    var (s4, r4) := Perform(x, DeleteSecret, true, io.fault(SecretDelete));
    GetsWrite(s, rec, cfg, c, c.Put(n, x), x, t, SecretDelete, DeleteSecret, io.fault(SecretDelete), false);
    if Gone(r4) && Purges(rec.row) {
      GetsWriteOn(s, rec, cfg, a, c, s4, t, VolumeDelete, DeleteVolume, io.fault(VolumeDelete));
    }
  }

  lemma DataDeletionRun(s: State, rec: Record, cfg: ValheimConfig, io: Io, c: Objects, x: Slot, t: Tables)
    requires s.ctl.Rows? && rec.row.config == Encoded(cfg)
    ensures var n := cfg.core.serverName;
            var d := DeleteData(x, Purges(rec.row), io);
            Gets(s, rec, Turn(c.Put(n, x), t, Some(ConfigMapDelete)),
                 Turn(c.Put(n, d.slot), t, Next(d.ok, AfterDeletion(rec.row))))
  {
    var n := cfg.core.serverName;
    var a := Turn(c.Put(n, x), t, Some(ConfigMapDelete));
    var (s3, r3) := Perform(x, DeleteConfigMap, true, io.fault(ConfigMapDelete));
    GetsWrite(s, rec, cfg, c, c.Put(n, x), x, t, ConfigMapDelete, DeleteConfigMap, io.fault(ConfigMapDelete), false);
    if Gone(r3) {
      SecretDeletionRun(s, rec, cfg, io, c, s3, t);
      var d := DeleteSecretAndVolume(s3, Purges(rec.row), io);
      GetsOn(s, rec, a, Turn(c.Put(n, s3), t, Some(SecretDelete)),
             Turn(c.Put(n, d.slot), t, Next(d.ok, AfterDeletion(rec.row))));
    }
  }

  lemma DeleteAllRun(s: State, rec: Record, cfg: ValheimConfig, io: Io, c: Objects, t: Tables)
    requires s.ctl.Rows? && rec.row.config == Encoded(cfg)
    ensures var (c', ok) := DeleteAllIn(c, cfg.core.serverName, Purges(rec.row), io);
            Gets(s, rec, Turn(c, t, Some(DeploymentDelete)), Turn(c', t, Next(ok, AfterDeletion(rec.row))))
  {
    var n := cfg.core.serverName;
    var d := DeleteAccess(c.At(n), io);
    AccessDeletionRun(s, rec, cfg, io, c, t);
    if d.ok {
      DataDeletionRun(s, rec, cfg, io, c, d.slot, t);
      var e := DeleteData(d.slot, Purges(rec.row), io);
      GetsOn(s, rec, Turn(c, t, Some(DeploymentDelete)), Turn(c.Put(n, d.slot), t, Some(ConfigMapDelete)),
             Turn(c.Put(n, e.slot), t, Next(e.ok, AfterDeletion(rec.row))));
    }
  }

  /** Time passes between two polls, and a Deployment on its way out may go. */
  lemma GetsGone(s: State, rec: Record, c: Objects, n: Name, t: Tables, pc: Call)
    requires s.ctl.Rows?
    ensures Gets(s, rec, Turn(c, t, Some(pc)), Turn(c.Put(n, Finalize(c.At(n))), t, Some(pc)))
  {
    ReachesNext(AfterTurn(s, rec, Turn(c, t, Some(pc))), DeploymentGone(n));
  }

  function AfterPoll(y: Slot, f: Fault, giveUp: bool): Call {
    if f.Clean? && y.deployment.None? then NamespaceCreate
    else if f.Clean? && !giveUp then PollGet
    else FailureIncrement
  }

  /** One poll, before which a terminating Deployment may have gone. */
  lemma OnePoll(s: State, rec: Record, cfg: ValheimConfig, c: Objects, x: Slot, t: Tables, gone: bool, f: Fault,
      giveUp: bool)
    requires s.ctl.Rows? && rec.row.config == Encoded(cfg)
    ensures var n, y := cfg.core.serverName, if gone then Finalize(x) else x;
            Gets(s, rec, Turn(c.Put(n, x), t, Some(PollGet)), Turn(c.Put(n, y), t, Some(AfterPoll(y, f, giveUp))))
  {
    var n, y := cfg.core.serverName, if gone then Finalize(x) else x;
    var a, b := Turn(c.Put(n, x), t, Some(PollGet)), Turn(c.Put(n, y), t, Some(PollGet));
    PutsCollapse(c, n);
    if gone {
      GetsGone(s, rec, c.Put(n, x), n, t, PollGet);
    } else {
      ReachesSelf(AfterTurn(s, rec, a));
    }
    var r := OtherCall(c.Put(n, y), t, s.registry, rec, cfg, PollGet, f, giveUp);
    GetsCall(s, rec, c.Put(n, y), t, PollGet, f, false, giveUp, r);
    GetsOn(s, rec, a, b, r);
  }

  lemma {:induction false} PollRun(s: State, rec: Record, cfg: ValheimConfig, io: Io, c: Objects, x: Slot, t: Tables,
      sleep: int, elapsed: nat, k: nat)
    requires s.ctl.Rows? && rec.row.config == Encoded(cfg)
    ensures var n := cfg.core.serverName;
            var p := Poll(x, io, sleep, elapsed, k);
            Gets(s, rec, Turn(c.Put(n, x), t, Some(PollGet)),
                Turn(c.Put(n, p.slot), t, Next(p.absent, NamespaceCreate)))
    decreases if elapsed < RECREATE_DEADLINE then RECREATE_DEADLINE - elapsed else 0
  {
    var n := cfg.core.serverName;
    var now := elapsed + Pause(sleep);
    var y := if io.linger <= k then Finalize(x) else x;
    var f, giveUp := io.pollFault(k), now >= RECREATE_DEADLINE;
    OnePoll(s, rec, cfg, c, x, t, io.linger <= k, f, giveUp);
    if AfterPoll(y, f, giveUp).PollGet? {
      PollRun(s, rec, cfg, io, c, y, t, sleep, now + io.latency(k), k + 1);
      var p := Poll(y, io, sleep, now + io.latency(k), k + 1);
      GetsOn(s, rec, Turn(c.Put(n, x), t, Some(PollGet)), Turn(c.Put(n, y), t, Some(PollGet)),
             Turn(c.Put(n, p.slot), t, Next(p.absent, NamespaceCreate)));
    }
  }

  lemma RecreateAllRun(s: State, rec: Record, cfg: ValheimConfig, io: Io, c: Objects, t: Tables, sleep: int)
    requires s.ctl.Rows? && rec.row.config == Encoded(cfg) && !rec.row.desired.Deleting?
    ensures var (c', ok) := RecreateAllIn(c, cfg.core.serverName, cfg, io, sleep);
            Gets(s, rec, Turn(c, t, Some(DeploymentDelete)), Turn(c', t, Next(ok, AfterCreation(rec.row))))
  {
    var n := cfg.core.serverName;
    var a := Turn(c, t, Some(DeploymentDelete));
    DeleteAllRun(s, rec, cfg, io, c, t);
    var d := DeleteAll(c.At(n), false, io);
    if d.ok {
      PollRun(s, rec, cfg, io, c, d.slot, t, sleep, 0, 0);
      var p := Poll(d.slot, io, sleep, 0, 0);
      var b := Turn(c.Put(n, p.slot), t, Next(p.absent, NamespaceCreate));
      PutsCollapse(c, n);
      GetsOn(s, rec, a, Turn(c.Put(n, d.slot), t, Some(PollGet)), b);
      if p.absent {
        CreateAllRun(s, rec, cfg, io, c.Put(n, p.slot), t);
        var (c', ok) := CreateAllIn(c.Put(n, p.slot), n, cfg, io);
        GetsOn(s, rec, a, b, Turn(c', t, Next(ok, AfterCreation(rec.row))));
      }
    }
  }

  lemma ApplyMarkerRun(s: State, rec: Record, cfg: ValheimConfig, io: Io, c: Objects, x: Slot, t: Tables)
    requires s.ctl.Rows? && rec.row.config == Encoded(cfg)
    ensures var n := cfg.core.serverName;
            var d := ApplyMarker(x, HashCfg(cfg), io);
            Gets(s, rec, Turn(c.Put(n, x), t, Some(MarkerGet)), Turn(c.Put(n, d.slot), t, Next(d.ok, ScaleCheck)))
  {
    var n := cfg.core.serverName;
    var a := Turn(c.Put(n, x), t, Some(MarkerGet));
    var b := OtherCall(c.Put(n, x), t, s.registry, rec, cfg, MarkerGet, io.fault(MarkerGet), false);
    GetsCall(s, rec, c.Put(n, x), t, MarkerGet, io.fault(MarkerGet), false, false, b);
    if b.next == Some(MarkerUpdate) {
      GetsWriteOn(s, rec, cfg, a, c, x, t, MarkerUpdate, UpdateMarker(HashCfg(cfg)), io.fault(MarkerUpdate));
    }
  }

  lemma ApplyConfigRun(s: State, rec: Record, cfg: ValheimConfig, io: Io, c: Objects, t: Tables)
    requires s.ctl.Rows? && rec.row.config == Encoded(cfg)
    ensures var (c', ok) := ApplyConfigIn(c, cfg.core.serverName, cfg, HashCfg(cfg), io);
            Gets(s, rec, Turn(c, t, Some(ConfigMapUpdate)), Turn(c', t, Next(ok, ScaleCheck)))
  {
    var n := cfg.core.serverName;
    var a := Turn(c, t, Some(ConfigMapUpdate));
    var op1, op2 := UpdateConfigMap(EnvOf(cfg)), UpdateSecret(cfg.core.serverPass);
    var (s1, r1) := Perform(c.At(n), op1, true, io.fault(ConfigMapUpdate));
    GetsWrite(s, rec, cfg, c, c, c.At(n), t, ConfigMapUpdate, op1, io.fault(ConfigMapUpdate), false);
    if r1.Done? {
      var (s2, r2) := Perform(s1, op2, true, io.fault(SecretUpdate));
      GetsWriteOn(s, rec, cfg, a, c, s1, t, SecretUpdate, op2, io.fault(SecretUpdate));
      if r2.Done? {
        ApplyMarkerRun(s, rec, cfg, io, c, s2, t);
        var d := ApplyMarker(s2, HashCfg(cfg), io);
        GetsOn(s, rec, a, Turn(c.Put(n, s2), t, Some(MarkerGet)), Turn(c.Put(n, d.slot), t, Next(d.ok, ScaleCheck)));
      }
    }
  }

  lemma ScaleWriteRun(s: State, rec: Record, cfg: ValheimConfig, io: Io, c: Objects, t: Tables)
    requires s.ctl.Rows? && rec.row.config == Encoded(cfg)
    ensures var op := UpdateReplicas(TargetReplicas(rec.row.desired));
            var (y, r) := Perform(c.At(rec.name), op, true, io.fault(ScaleUpdate));
            Gets(s, rec, Turn(c, t, Some(ScaleUpdate)), Turn(c.Put(rec.name, y), t, Next(r.Done?, FailuresReset)))
  {
    var op := UpdateReplicas(TargetReplicas(rec.row.desired));
    var b := WriteCall(c, t, rec, cfg, ScaleUpdate, op, io.fault(ScaleUpdate));
    GetsCall(s, rec, c, t, ScaleUpdate, io.fault(ScaleUpdate), false, false, b);
  }

  lemma ScaleRun(s: State, rec: Record, cfg: ValheimConfig, io: Io, c: Objects, t: Tables)
    requires s.ctl.Rows? && rec.row.config == Encoded(cfg)
    ensures var (c', ok) := EnsureReplicas(c, rec.name, TargetReplicas(rec.row.desired), s.registry, io);
            Gets(s, rec, Turn(c, t, Some(ScaleCheck)), Turn(c', t, Next(ok, FailuresReset)))
  {
    var a := Turn(c, t, Some(ScaleCheck));
    var b := OtherCall(c, t, s.registry, rec, cfg, ScaleCheck, Clean, false);
    GetsCall(s, rec, c, t, ScaleCheck, Clean, false, false, b);
    if b.next == Some(ScaleGet) {
      var d := OtherCall(c, t, s.registry, rec, cfg, ScaleGet, io.fault(ScaleGet), false);
      GetsCall(s, rec, c, t, ScaleGet, io.fault(ScaleGet), false, false, d);
      GetsOn(s, rec, a, b, d);
      if d.next == Some(ScaleUpdate) {
        ScaleWriteRun(s, rec, cfg, io, c, t);
        var (c', ok) := EnsureReplicas(c, rec.name, TargetReplicas(rec.row.desired), s.registry, io);
        GetsOn(s, rec, a, d, Turn(c', t, Next(ok, FailuresReset)));
      }
    }
  }

  lemma HashAndScaleRun(s: State, rec: Record, cfg: ValheimConfig, io: Io, c1: Objects, t: Tables)
    requires s.ctl.Rows? && rec.row.config == Encoded(cfg)
    ensures var (c', ok) := HashAndScale(c1, rec, cfg, s.registry, io);
            Gets(s, rec, Turn(c1, t, Some(HashGet)), Turn(c', t, Next(ok, FailuresReset)))
  {
    var a := Turn(c1, t, Some(HashGet));
    var b := OtherCall(c1, t, s.registry, rec, cfg, HashGet, io.fault(HashGet), false);
    GetsCall(s, rec, c1, t, HashGet, io.fault(HashGet), false, false, b);
    var c2, ok2 := c1, b.next == Some(ScaleCheck);
    if b.next == Some(ConfigMapUpdate) {
      ApplyConfigRun(s, rec, cfg, io, c1, t);
      var (c', ok') := ApplyConfigIn(c1, cfg.core.serverName, cfg, HashCfg(cfg), io);
      c2, ok2 := c', ok';
      GetsOn(s, rec, a, b, Turn(c2, t, Next(ok2, ScaleCheck)));
    }
    if ok2 {
      ScaleRun(s, rec, cfg, io, c2, t);
      var (c3, ok3) := EnsureReplicas(c2, rec.name, TargetReplicas(rec.row.desired), s.registry, io);
      GetsOn(s, rec, a, Turn(c2, t, Some(ScaleCheck)), Turn(c3, t, Next(ok3, FailuresReset)));
    }
  }

  lemma SoftRun(s: State, rec: Record, cfg: ValheimConfig, io: Io, c: Objects, t: Tables)
    requires s.ctl.Rows? && rec.row.config == Encoded(cfg) && !HardResetDue(rec.row)
    ensures var (c', ok) := StateObjects(c, rec, cfg, s.registry, io);
            Gets(s, rec, Turn(c, t, Some(NamespaceCreate)), Turn(c', t, Next(ok, FailuresReset)))
  {
    CreateAllRun(s, rec, cfg, io, c, t);
    var (c1, ok1) := CreateAllIn(c, cfg.core.serverName, cfg, io);
    if ok1 {
      HashAndScaleRun(s, rec, cfg, io, c1, t);
      var (c2, ok2) := HashAndScale(c1, rec, cfg, s.registry, io);
      GetsOn(s, rec, Turn(c, t, Some(NamespaceCreate)), Turn(c1, t, Some(HashGet)),
          Turn(c2, t, Next(ok2, FailuresReset)));
    }
  }

  lemma HardRun(s: State, rec: Record, cfg: ValheimConfig, io: Io, c: Objects, t: Tables)
    requires s.ctl.Rows? && rec.row.config == Encoded(cfg) && HardResetDue(rec.row) && !rec.row.desired.Deleting?
    ensures var (c', ok) := StateObjects(c, rec, cfg, s.registry, io);
            Gets(s, rec, Turn(c, t, Some(DeploymentDelete)), Turn(c', t, Next(ok, FailuresReset)))
  {
    var a := Turn(c, t, Some(DeploymentDelete));
    RecreateAllRun(s, rec, cfg, io, c, t, RECREATE_POLL_INTERVAL);
    var (c1, ok1) := RecreateAllIn(c, cfg.core.serverName, cfg, io, RECREATE_POLL_INTERVAL);
    if ok1 {
      ScaleRun(s, rec, cfg, io, c1, t);
      var (c2, ok2) := EnsureReplicas(c1, rec.name, TargetReplicas(rec.row.desired), s.registry, io);
      GetsOn(s, rec, a, Turn(c1, t, Some(ScaleCheck)), Turn(c2, t, Next(ok2, FailuresReset)));
    }
  }

  /** The call that settles a row whose objects are done. */
  function Settling(row: Row): Call {
    if row.desired.Deleting? then RowDelete else FailuresReset
  }

  lemma ConvergeRun(s: State, rec: Record, io: Io, c: Objects, t: Tables)
    requires s.ctl.Rows?
    ensures var (c', ok) := ConvergeObjects(c, rec, s.registry, io);
            Gets(s, rec, Turn(c, t, Some(FirstCall(rec.row))), Turn(c', t, Next(ok, Settling(rec.row))))
  {
    match rec.row.config
    case Corrupt => ReachesSelf(AfterTurn(s, rec, Turn(c, t, Some(FirstCall(rec.row)))));
    case Encoded(cfg) =>
      if rec.row.desired.Deleting? {
        DeleteAllRun(s, rec, cfg, io, c, t);
      } else if HardResetDue(rec.row) {
        HardRun(s, rec, cfg, io, c, t);
      } else {
        SoftRun(s, rec, cfg, io, c, t);
      }
  }

  lemma CountRun(s: State, rec: Record, io: Io, c: Objects, t: Tables)
    requires s.ctl.Rows?
    ensures Gets(s, rec, Turn(c, t, Some(FailureIncrement)),
                 Turn(c, IncrementFailure(t, rec.name, io.fault(FailureIncrement)).0, None))
  {
    var f := io.fault(FailureIncrement);
    GetsCall(s, rec, c, t, FailureIncrement, f, false, false, Turn(c, IncrementFailure(t, rec.name, f).0, None));
  }

  lemma SettleRun(s: State, rec: Record, io: Io, c: Objects, t: Tables)
    requires s.ctl.Rows? && rec.row.config.Encoded?
    ensures var (t', r) := SettleRow(t, rec, io);
            Gets(s, rec, Turn(c, t, Some(Settling(rec.row))),
                Turn(c, t', if r.Ok? then None else Some(FailureIncrement)))
  {
    var pc := Settling(rec.row);
    var r := OtherCall(c, t, s.registry, rec, rec.row.config.cfg, pc, io.fault(pc), false);
    GetsCall(s, rec, c, t, pc, io.fault(pc), false, false, r);
  }

  /** One row's turn, call by call. */
  lemma TurnRun(s: State, rec: Record, io: Io, c: Objects, t: Tables)
    requires s.ctl.Rows?
    ensures var sys := PassRow(Sys(t, c), rec, s.registry, io);
            Gets(s, rec, Turn(c, t, Some(FirstCall(rec.row))), Turn(sys.cluster, sys.tables, None))
  {
    var a := Turn(c, t, Some(FirstCall(rec.row)));
    ConvergeRun(s, rec, io, c, t);
    var (c1, ok) := ConvergeObjects(c, rec, s.registry, io);
    if ok {
      var (t1, r) := SettleRow(t, rec, io);
      SettleRun(s, rec, io, c1, t);
      var b := Turn(c1, t1, if r.Ok? then None else Some(FailureIncrement));
      GetsOn(s, rec, a, Turn(c1, t, Some(Settling(rec.row))), b);
      if !r.Ok? {
        CountRun(s, rec, io, c1, t1);
        GetsOn(s, rec, a, b, Turn(c1, IncrementFailure(t1, rec.name, io.fault(FailureIncrement)).0, None));
      }
    } else {
      CountRun(s, rec, io, c1, t);
      GetsOn(s, rec, a, Turn(c1, t, Some(FailureIncrement)),
          Turn(c1, IncrementFailure(t, rec.name, io.fault(FailureIncrement)).0, None));
    }
  }

  // The whole pass.

  function AtRows(s: State, sys: Sys, todo: seq<Record>, names: set<Name>): State {
    s.(tables := sys.tables, cluster := sys.cluster, ctl := Rows(todo, None, names))
  }

  lemma {:induction false} RowsRun(s: State, sys: Sys, todo: seq<Record>, names: set<Name>, io: Weather)
    ensures Reaches(AtRows(s, sys, todo, names), AtRows(s, PassRows(sys, todo, s.registry, io), [], names))
    decreases |todo|
  {
    var a := AtRows(s, sys, todo, names);
    if todo == [] {
      ReachesSelf(a);
    } else {
      var rec := todo[0];
      var sys' := PassRow(sys, rec, s.registry, io(rec.name));
      var b := Apply(a, NextRow);
      ReachesNext(a, NextRow);
      TurnRun(b, rec, io(rec.name), sys.cluster, sys.tables);
      var d := AtRows(s, sys', todo[1..], names);
      assert AfterTurn(b, rec, Turn(sys.cluster, sys.tables, Some(FirstCall(rec.row)))) == b;
      assert AfterTurn(b, rec, Turn(sys'.cluster, sys'.tables, None)) == d;
      ReachesOn(a, b, d);
      RowsRun(s, sys', todo[1..], names, io);
      ReachesOn(a, d, AtRows(s, PassRows(sys, todo, s.registry, io), [], names));
    }
  }

  /** The same tables, objects, counts and place in the loop; the history may differ. */
  ghost predicate EndsIn(s: State, tables: Tables, cluster: Objects, drift: DriftCounts) {
    s.ctl.Idle? && s.tables == tables && s.cluster == cluster && s.drift == drift
  }

  lemma {:induction false} DriftRun(s: State, left: seq<Name>, names: set<Name>, io: Weather) returns (s': State)
    requires s.ctl == if left == [] then Idle else Drifting(left, names)
    ensures var (t, drift) := DriftPass(s.tables, s.drift, left, names, io);
            Reaches(s, s') && EndsIn(s', t, s.cluster, drift)
    decreases |left|
  {
    if left == [] {
      s' := s;
      ReachesSelf(s);
    } else {
      var e := DriftOne(io(left[0]).fault(TombstoneInsert));
      ReachesNext(s, e);
      s' := DriftRun(Apply(s, e), left[1..], names, io);
      ReachesOn(s, Apply(s, e), s');
    }
  }

  /** A pass is a run: woken in s, the loop alone can list the rows as records and the registry as
      names and finish with exactly the tables, objects and counts of Converge.Pass. */
  lemma PassIsARun(s: State, records: seq<Record>, names: seq<Name>, io: Weather) returns (s': State)
    requires s.ctl.Woken? && IsListing(records, s.tables.rows) && Lists(names, s.registry.Keys)
    ensures var p := Pass(Sys(s.tables, s.cluster), s.drift, records, names, s.registry, io);
            Reaches(s, s') && EndsIn(s', p.sys.tables, p.sys.cluster, p.drift)
  {
    var sys, rowNames := Sys(s.tables, s.cluster), RecordNames(records);
    var a := Apply(s, ListRows(records, Clean));
    ReachesNext(s, ListRows(records, Clean));
    assert a == AtRows(a, sys, records, rowNames);
    RowsRun(a, sys, records, rowNames, io);
    var sys' := PassRows(sys, records, s.registry, io);
    var b := AtRows(a, sys', [], rowNames);
    ReachesOn(s, a, b);
    var d := Apply(b, ListRegistry(names));
    ReachesNext(b, ListRegistry(names));
    ReachesOn(s, b, d);
    s' := DriftRun(d, names, rowNames, io);
    ReachesOn(s, d, s');
  }
}
