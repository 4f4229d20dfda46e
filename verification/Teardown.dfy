/** Crash-safe teardown: a server's objects exist only while its row does. */
module TeardownProofs {
  import opened Types
  import opened Cluster
  import opened Store
  import opened Converge
  import opened PassProofs
  import opened PassTheorems
  import opened Machine
  import opened RowProofs
  import Registry

  /** A Service, ConfigMap or Secret, or a Deployment that is not on its way out. */
  predicate Live(s: Slot) {
    s.service.Some? || s.configMap.Some? || s.secret.Some? || (s.deployment.Some? && !s.deployment.value.terminating)
  }

  /** The program points of a teardown belong to deleting rows, the others do not. */
  predicate PointOk(row: Row, pc: Call) {
    if row.desired.Deleting?
    then pc.DeploymentDelete? || pc.ServiceDelete? || pc.ConfigMapDelete? || pc.SecretDelete?
        || (pc.VolumeDelete? && row.purge) || pc.RowDelete?
    else !pc.VolumeDelete? && !pc.RowDelete? && !pc.TombstoneInsert?
  }

  /** What a teardown has removed when it reaches a program point. */
  predicate DownTo(s: Slot, pc: Call) {
    && (!pc.DeploymentDelete? && s.deployment.Some? ==> s.deployment.value.terminating)
    && (!pc.DeploymentDelete? && !pc.ServiceDelete? ==> s.service.None?)
    && (pc.SecretDelete? || pc.VolumeDelete? || pc.RowDelete? ==> s.configMap.None?)
    && (pc.VolumeDelete? || pc.RowDelete? ==> s.secret.None?)
  }

  ghost predicate JobOk(c: Objects, rows: map<Name, Row>, job: Job) {
    && WellNamed(job.rec)
    && (job.pc.FailureIncrement?
        || (&& job.rec.row.config.Encoded? && job.rec.name in rows && PointOk(job.rec.row, job.pc)
            && (job.rec.row.desired.Deleting? ==> DownTo(c.At(job.rec.name), job.pc))))
  }

  /** A listed row is still there when its turn comes. */
  ghost predicate LoopOk(s: State) {
    s.ctl.Rows? ==>
      && (forall i | 0 <= i < |s.ctl.todo| :: WellNamed(s.ctl.todo[i]) && s.ctl.todo[i].name in s.tables.rows)
      && (forall i, j | 0 <= i < j < |s.ctl.todo| :: s.ctl.todo[i].name != s.ctl.todo[j].name)
      && (s.ctl.job.Some? ==>
            && JobOk(s.cluster, s.tables.rows, s.ctl.job.value)
            && forall i | 0 <= i < |s.ctl.todo| :: s.ctl.todo[i].name != s.ctl.job.value.rec.name)
  }

  ghost predicate NoStrays(c: Objects, rows: map<Name, Row>) {
    forall n :: Live(c.At(n)) ==> n in rows
  }

  /** Nothing live without a row, and the loop in order. */
  ghost predicate InOrder(s: State) {
    NoStrays(s.cluster, s.tables.rows) && LoopOk(s)
  }

  ghost predicate Inv(s: State) {
    RowsWellNamed(s.tables.rows) && InOrder(s)
  }

  // One call.

  lemma AfterWritePoint(rec: Record, cfg: ValheimConfig, pc: Call, lingers: bool)
    requires PointOk(rec.row, pc) && OpAt(rec, cfg, pc, lingers).Some?
    ensures PointOk(rec.row, AfterWrite(rec.row, pc))
  {
  }

  lemma TeardownStep(s: Slot, rec: Record, pc: Call, op: Op, admitted: bool, f: Fault, cfg: ValheimConfig,
      lingers: bool)
    requires rec.row.desired.Deleting? && PointOk(rec.row, pc) && DownTo(s, pc)
    requires OpAt(rec, cfg, pc, lingers) == Some(op)
    ensures var (s', r) := Perform(s, op, admitted, f);
            Accepts(pc, r) ==> DownTo(s', AfterWrite(rec.row, pc))
  {
  }

  /** Storing a slot under the job's own name and moving on keeps the job in order. */
  lemma StoreKeepsJob(c: Objects, rows: map<Name, Row>, job: Job, s': Slot, pc': Call)
    requires JobOk(c, rows, job) && job.rec.row.config.Encoded? && job.rec.name in rows
    requires pc'.FailureIncrement? || (PointOk(job.rec.row, pc') && (job.rec.row.desired.Deleting? ==> DownTo(s', pc')))
    ensures JobOk(c.Put(job.rec.name, s'), rows, Job(job.rec, pc'))
    ensures forall m | m != job.rec.name :: c.Put(job.rec.name, s').At(m) == c.At(m)
  {
  }

  /** A writing call changes only the job's own objects, and makes none but a row's. */
  lemma WriteCallKeeps(c: Objects, t: Tables, job: Job, cfg: ValheimConfig, op: Op, f: Fault, lingers: bool)
    requires job.rec.row.config == Encoded(cfg) && JobOk(c, t.rows, job)
    requires OpAt(job.rec, cfg, job.pc, lingers) == Some(op)
    ensures var r := WriteCall(c, t, job.rec, cfg, job.pc, op, f);
            && r.next.Some? && JobOk(r.cluster, t.rows, Job(job.rec, r.next.value)) && job.rec.name in t.rows
            && r.tables == t && forall m | m != job.rec.name :: r.cluster.At(m) == c.At(m)
  {
    var n := job.rec.name;
    assert NameAt(job.rec, cfg, job.pc) == n && !job.pc.FailureIncrement?;
    var (s', r) := Perform(c.At(n), op, c.Admits(n, op), f);
    AfterWritePoint(job.rec, cfg, job.pc, lingers);
    if job.rec.row.desired.Deleting? {
      TeardownStep(c.At(n), job.rec, job.pc, op, c.Admits(n, op), f, cfg, lingers);
    }
    StoreKeepsJob(c, t.rows, job, s', if Accepts(job.pc, r) then AfterWrite(job.rec.row, job.pc) else FailureIncrement);
  }

  predicate WritesTables(pc: Call) {
    pc.FailuresReset? || pc.RowDelete? || pc.FailureIncrement? || pc.TombstoneInsert?
  }

  lemma ReadCallKeeps(c: Objects, t: Tables, reg: Registry.Servers, job: Job, cfg: ValheimConfig, f: Fault,
      giveUp: bool)
    requires job.rec.row.config == Encoded(cfg) && JobOk(c, t.rows, job) && OpAt(job.rec, cfg, job.pc, false).None?
    requires !WritesTables(job.pc)
    ensures var r := OtherCall(c, t, reg, job.rec, cfg, job.pc, f, giveUp);
            && r.next.Some? && PointOk(job.rec.row, job.pc) && !job.rec.row.desired.Deleting?
            && (r.next.value.FailureIncrement? || PointOk(job.rec.row, r.next.value))
            && r.tables == t && forall m :: r.cluster.At(m) == c.At(m)
  {
  }

  lemma OtherCallKeeps(c: Objects, t: Tables, reg: Registry.Servers, job: Job, cfg: ValheimConfig, f: Fault,
      giveUp: bool)
    requires job.rec.row.config == Encoded(cfg) && JobOk(c, t.rows, job) && OpAt(job.rec, cfg, job.pc, false).None?
    ensures var r := OtherCall(c, t, reg, job.rec, cfg, job.pc, f, giveUp);
            && (r.next.Some? ==> JobOk(r.cluster, r.tables.rows, Job(job.rec, r.next.value)))
            && (r.tables.rows.Keys == t.rows.Keys
                || (r.tables.rows.Keys == t.rows.Keys - {job.rec.name} && !Live(c.At(job.rec.name))))
            && forall m :: r.cluster.At(m) == c.At(m)
  {
    if WritesTables(job.pc) {
      assert OtherCall(c, t, reg, job.rec, cfg, job.pc, f, giveUp).cluster == c;
    } else {
      ReadCallKeeps(c, t, reg, job, cfg, f, giveUp);
    }
  }

  /** What a call may do: change its own server's objects, and drop its row once nothing live is left. */
  ghost predicate TurnOk(c: Objects, t: Tables, job: Job, r: Turn) {
    && (r.next.Some? ==> JobOk(r.cluster, r.tables.rows, Job(job.rec, r.next.value)))
    && (r.tables.rows.Keys == t.rows.Keys
        || (r.tables.rows.Keys == t.rows.Keys - {job.rec.name} && !Live(r.cluster.At(job.rec.name))))
    && (forall m | m != job.rec.name :: r.cluster.At(m) == c.At(m))
    && (r.cluster.At(job.rec.name) == c.At(job.rec.name) || job.rec.name in t.rows)
  }

  lemma StepIsOk(c: Objects, t: Tables, reg: Registry.Servers, job: Job, f: Fault, lingers: bool, giveUp: bool)
    requires JobOk(c, t.rows, job)
    ensures TurnOk(c, t, job, Step(c, t, reg, job, f, lingers, giveUp))
  {
    match job.rec.row.config
    case Corrupt =>
    case Encoded(cfg) =>
      match OpAt(job.rec, cfg, job.pc, lingers)
      case Some(op) => WriteCallKeeps(c, t, job, cfg, op, f, lingers);
      case None => OtherCallKeeps(c, t, reg, job, cfg, f, giveUp);
  }

  lemma TurnKeepsOrder(s: State, job: Job, r: Turn)
    requires InOrder(s) && s.ctl.Rows? && s.ctl.job == Some(job) && TurnOk(s.cluster, s.tables, job, r)
    ensures InOrder(AfterTurn(s, job.rec, r))
  {
    var s' := AfterTurn(s, job.rec, r);
    forall n | Live(s'.cluster.At(n)) ensures n in s'.tables.rows {
      assert n in s.tables.rows;
    }
  }

  lemma CallKeepsOrder(s: State, f: Fault, lingers: bool, giveUp: bool)
    requires InOrder(s)
    ensures InOrder(Apply(s, MakeCall(f, lingers, giveUp)))
  {
    if s.ctl.Rows? && s.ctl.job.Some? {
      var job := s.ctl.job.value;
      StepIsOk(s.cluster, s.tables, s.registry, job, f, lingers, giveUp);
      TurnKeepsOrder(s, job, Step(s.cluster, s.tables, s.registry, job, f, lingers, giveUp));
    }
  }

  // The other events.

  lemma NextRowKeepsOrder(s: State)
    requires InOrder(s)
    ensures InOrder(Apply(s, NextRow))
  {
    if s.ctl.Rows? && s.ctl.job.None? && s.ctl.todo != [] {
      var s' := Apply(s, NextRow);
      assert forall i | 0 <= i < |s.ctl.todo[1..]| :: s.ctl.todo[1..][i] == s.ctl.todo[i + 1];
      assert JobOk(s'.cluster, s'.tables.rows, s'.ctl.job.value);
    }
  }

  lemma ListingKeepsOrder(s: State, records: seq<Record>, f: Fault)
    requires Inv(s)
    ensures InOrder(Apply(s, ListRows(records, f)))
  {
    if s.ctl.Woken? && f.Clean? && IsListing(records, s.tables.rows) {
      forall i | 0 <= i < |records| ensures WellNamed(records[i]) {
        assert WellNamed(Record(records[i].name, s.tables.rows[records[i].name]));
      }
    }
  }

  /** Events outside the loop, and the drift loop, never drop a row, but for the database reset. */
  lemma OthersKeepRows(s: State, e: Event)
    requires !e.MakeCall? && !e.ResetDatabase?
    ensures s.tables.rows.Keys <= Apply(s, e).tables.rows.Keys
  {
    forall n | n in s.tables.rows ensures n in Apply(s, e).tables.rows {
      StepFate(s, e, n);
    }
  }

  /** Handlers leave the loop alone, and of the objects all but a volume. */
  lemma HandlersKeepObjects(s: State, e: Event)
    requires !IsLoopEvent(e) && !IsWorldEvent(e)
    ensures Apply(s, e).ctl == s.ctl
    ensures forall n :: Apply(s, e).cluster.At(n).(volume := None) == s.cluster.At(n).(volume := None)
  {
    if ChangesServers(e) {
      ServerOutcome(s, e);
    }
  }

  lemma HandlerKeepsOrder(s: State, e: Event)
    requires InOrder(s) && !e.ResetDatabase? && !IsLoopEvent(e) && !IsWorldEvent(e)
    ensures InOrder(Apply(s, e))
  {
    OthersKeepRows(s, e);
    HandlersKeepObjects(s, e);
    var s' := Apply(s, e);
    forall n ensures Live(s'.cluster.At(n)) == Live(s.cluster.At(n)) {
      assert s'.cluster.At(n).(volume := None) == s.cluster.At(n).(volume := None);
    }
    if s.ctl.Rows? && s.ctl.job.Some? {
      var n := s.ctl.job.value.rec.name;
      assert s'.cluster.At(n).(volume := None) == s.cluster.At(n).(volume := None);
    }
  }

  lemma WorldKeepsOrder(s: State, e: Event)
    requires InOrder(s) && IsWorldEvent(e)
    ensures InOrder(Apply(s, e))
  {
    var s' := Apply(s, e);
    forall n | Live(s'.cluster.At(n)) ensures n in s'.tables.rows {
      assert Live(s.cluster.At(n));
    }
  }

  lemma StepKeepsInv(s: State, e: Event)
    requires Inv(s) && KeepsNames(e) && !e.ResetDatabase?
    ensures Inv(Apply(s, e))
  {
    StepKeepsNames(s, e);
    if e.MakeCall? {
      CallKeepsOrder(s, e.fault, e.lingers, e.giveUp);
    } else if e.NextRow? {
      NextRowKeepsOrder(s);
    } else if e.ListRows? {
      ListingKeepsOrder(s, e.records, e.fault);
    } else if e.DriftOne? {
      OthersKeepRows(s, e);
    } else if IsWorldEvent(e) {
      WorldKeepsOrder(s, e);
    } else if !IsLoopEvent(e) {
      HandlerKeepsOrder(s, e);
    }
  }

  /** Crash-safe teardown: in every interleaving of handlers, calls, faults, informers and restarts
      (no database reset, names kept), a Service, ConfigMap, Secret or non-terminating Deployment
      exists only while its server has a row. */
  lemma {:induction false} ObjectsHaveRows(s: State, es: seq<Event>)
    requires Inv(s) && forall e | e in es :: KeepsNames(e) && !e.ResetDatabase?
    ensures Inv(Run(s, es))
    ensures forall n :: Live(Run(s, es).cluster.At(n)) ==> n in Run(s, es).tables.rows
    decreases |es|
  {
    if es != [] {
      StepKeepsInv(s, es[0]);
      ObjectsHaveRows(Apply(s, es[0]), es[1..]);
    }
  }

  // Names that are not kept.

  /** Keeping the names is needed: a running row whose configuration carries another server name, as
      create and update both accept, leads to a stray Secret under that name. */
  lemma MisnamedRowMakesStrays(s: State, n: Name, row: Row) returns (es: seq<Event>)
    requires s.ctl.Woken? && s.tables.rows == map[n := row]
    requires row.config.Encoded? && row.desired.Running? && row.failures == 0 && row.config.cfg.core.serverName != n
    ensures forall e | e in es :: KeepsNames(e) && !e.ResetDatabase?
    ensures var m := row.config.cfg.core.serverName;
            Live(Run(s, es).cluster.At(m)) && m !in Run(s, es).tables.rows
  {
    var rec := Record(n, row);
    var list, call := ListRows([rec], Clean), MakeCall(Clean, false, false);
    assert IsListing([rec], s.tables.rows);
    es := [list, NextRow, call, call, call];
    FirstTurnBegins(s, rec);
    SecretAppears(Apply(Apply(Apply(s, list), NextRow), call), rec, row.config.cfg);
    RunFive(s, list, NextRow, call, call, call);
  }

  lemma SecretAppears(s: State, rec: Record, cfg: ValheimConfig)
    requires s.ctl.Rows? && s.ctl.job == Some(Job(rec, VolumeCreate)) && rec.row.config == Encoded(cfg)
    ensures var s' := Apply(Apply(s, MakeCall(Clean, false, false)), MakeCall(Clean, false, false));
            Live(s'.cluster.At(cfg.core.serverName)) && s'.tables == s.tables
  {
    CleanVolume(s, rec, cfg);
    CleanSecret(Apply(s, MakeCall(Clean, false, false)), rec, cfg);
  }

  lemma FirstTurnBegins(s: State, rec: Record)
    requires s.ctl.Woken? && IsListing([rec], s.tables.rows)
    requires rec.row.config.Encoded? && rec.row.desired.Running? && rec.row.failures == 0
    ensures var s' := Apply(Apply(Apply(s, ListRows([rec], Clean)), NextRow), MakeCall(Clean, false, false));
            s'.ctl.Rows? && s'.ctl.job == Some(Job(rec, VolumeCreate)) && s'.tables == s.tables
  {
    var s1 := Apply(s, ListRows([rec], Clean));
    assert s1.ctl == Rows([rec], None, RecordNames([rec]));
    var s2 := Apply(s1, NextRow);
    assert s2.ctl == Rows([], Some(Job(rec, NamespaceCreate)), s1.ctl.names);
    CleanNamespace(s2, rec);
  }

  lemma CleanNamespace(s: State, rec: Record)
    requires s.ctl.Rows? && s.ctl.job == Some(Job(rec, NamespaceCreate)) && rec.row.config.Encoded?
    ensures var s' := Apply(s, MakeCall(Clean, false, false));
            s'.ctl == s.ctl.(job := Some(Job(rec, VolumeCreate))) && s'.tables == s.tables
  {
  }

  lemma CleanVolume(s: State, rec: Record, cfg: ValheimConfig)
    requires s.ctl.Rows? && s.ctl.job == Some(Job(rec, VolumeCreate)) && rec.row.config == Encoded(cfg)
    ensures var s' := Apply(s, MakeCall(Clean, false, false));
            s'.ctl == s.ctl.(job := Some(Job(rec, SecretCreate))) && s'.tables == s.tables
  {
    assert OpAt(rec, cfg, VolumeCreate, false) == Some(CreateVolume);
  }

  lemma CleanSecret(s: State, rec: Record, cfg: ValheimConfig)
    requires s.ctl.Rows? && s.ctl.job == Some(Job(rec, SecretCreate)) && rec.row.config == Encoded(cfg)
    ensures var s' := Apply(s, MakeCall(Clean, false, false));
            s'.cluster.At(cfg.core.serverName).secret.Some? && s'.tables == s.tables
  {
    assert OpAt(rec, cfg, SecretCreate, false) == Some(CreateSecret(cfg.core.serverPass));
  }
}
