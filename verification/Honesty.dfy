/** When the configuration hash can be trusted, over whole runs. */
module HonestyProofs {
  import opened Types
  import opened Builder
  import opened Cluster
  import opened Manager
  import opened Store
  import opened Converge
  import opened SlotProofs
  import opened PassProofs
  import opened Convergence
  import opened Machine
  import opened RowProofs
  import opened TeardownProofs
  import opened PortProofs
  import Registry

  /** Like Honest, and ready for a terminating Deployment to go. */
  predicate Truthful(s: Slot, cfg: ValheimConfig) {
    s.deployment.None? || s.deployment.value.terminating || Marked(s, cfg) ==>
      && (s.configMap.Some? ==> s.configMap == Some(EnvOf(cfg)))
      && (s.secret.Some? ==> s.secret == Some(cfg.core.serverPass))
  }

  lemma TruthfulIsHonest(s: Slot, cfg: ValheimConfig)
    requires Truthful(s, cfg)
    ensures Honest(s, cfg)
  {
  }

  /** The program points at which a hard reset has taken the Deployment and not yet the rest. */
  predicate Resetting(pc: Call) {
    pc.ServiceDelete? || pc.ConfigMapDelete? || pc.SecretDelete?
  }

  /** The program points of creation. */
  predicate Creating(pc: Call) {
    pc.NamespaceCreate? || pc.VolumeCreate? || pc.SecretCreate? || pc.ConfigMapCreate? || pc.ServiceGet?
    || pc.ServiceCreate? || pc.DeploymentCreate?
  }

  /** The program points after the hash is known to be on the Deployment. */
  predicate Through(pc: Call) {
    pc.ScaleCheck? || pc.ScaleGet? || pc.ScaleUpdate? || pc.FailuresReset?
  }

  predicate Standing(s: Slot) {
    s.deployment.Some? && !s.deployment.value.terminating
  }

  /** What a turn for this row may rely on at a program point. */
  predicate TruthAt(s: Slot, row: Row, pc: Call)
    requires row.config.Encoded?
  {
    var cfg := row.config.cfg;
    && (!Resetting(pc) ==> Truthful(s, cfg))
    && (pc.SecretDelete? ==> s.configMap.None?)
    && (pc.SecretUpdate? ==> s.configMap == Some(EnvOf(cfg)))
    && (pc.MarkerGet? || pc.MarkerUpdate? ==> Publishes(s, cfg))
    && (HardResetDue(row) && Creating(pc) ==> s.deployment.None?)
    && (Through(pc) && Standing(s) ==> Marked(s, cfg))
  }

  /** The loop is in the middle of a turn for n. */
  predicate Turning(ctl: Ctl, n: Name) {
    ctl.Rows? && ctl.job.Some? && ctl.job.value.rec.name == n && !ctl.job.value.pc.FailureIncrement?
  }

  /** A listed row of n is waiting for its turn. */
  predicate Waiting(ctl: Ctl, n: Name) {
    ctl.Rows? && exists i :: 0 <= i < |ctl.todo| && ctl.todo[i].name == n
  }

  /** The loop holds a listed row of n that it is not done with. */
  predicate Held(ctl: Ctl, n: Name) {
    Turning(ctl, n) || Waiting(ctl, n)
  }

  /** If n is wanted, its objects are truthful for what it is wanted to be. */
  predicate Fit(s: State, n: Name) {
    Wanted(s.tables.rows, n) ==> Truthful(s.cluster.At(n), s.tables.rows[n].config.cfg)
  }

  /** The objects are truthful for the row the loop holds, be it outdated or not, or it is in the middle
      of a hard reset; when the loop holds none, for the row in the table. */
  ghost predicate Trusted(s: State, n: Name) {
    && (s.ctl.Rows? ==> forall i | 0 <= i < |s.ctl.todo| && s.ctl.todo[i].name == n && Serves(s.ctl.todo[i].row) ::
          Truthful(s.cluster.At(n), s.ctl.todo[i].row.config.cfg))
    && (Turning(s.ctl, n) && Serves(s.ctl.job.value.rec.row) ==>
          TruthAt(s.cluster.At(n), s.ctl.job.value.rec.row, s.ctl.job.value.pc))
    && (!Held(s.ctl, n) ==> Fit(s, n))
  }

  // One call of the server's own turn.

  /** The call cuts a hard reset off: it fails after the Deployment is gone and before ConfigMap and
      Secret are. */
  predicate CutsCall(pc: Call, f: Fault) {
    (Resetting(pc) && !f.Clean?) || (pc.DeploymentDelete? && f.Lost?)
  }

  /** After a call: what the next one may rely on, and the mark on a Deployment that stands. */
  predicate TruthNext(s: Slot, s': Slot, row: Row, pc: Call, next: Option<Call>)
    requires row.config.Encoded?
  {
    && TruthAt(s', row, if next.Some? then next.value else FailureIncrement)
    && (Through(pc) && Standing(s) ==> Standing(s') && Marked(s', row.config.cfg))
  }

  lemma DeletionKeepsTruth(s: Slot, rec: Record, pc: Call, op: Op, f: Fault, lingers: bool)
    requires Serves(rec.row) && OpAt(rec, rec.row.config.cfg, pc, lingers) == Some(op)
    requires (Resetting(pc) || pc.DeploymentDelete?) && TruthAt(s, rec.row, pc) && !CutsCall(pc, f)
    ensures var (s', r) := Perform(s, op, true, f);
            TruthAt(s', rec.row, if Accepts(pc, r) then AfterWrite(rec.row, pc) else FailureIncrement)
  {
  }

  lemma CreationKeepsTruth(s: Slot, rec: Record, pc: Call, op: Op, admitted: bool, f: Fault)
    requires Serves(rec.row) && OpAt(rec, rec.row.config.cfg, pc, false) == Some(op)
    requires Creating(pc) && TruthAt(s, rec.row, pc)
    ensures var (s', r) := Perform(s, op, admitted, f);
            TruthAt(s', rec.row, if Accepts(pc, r) then AfterWrite(rec.row, pc) else FailureIncrement)
  {
  }

  lemma UpdateKeepsTruth(s: Slot, rec: Record, pc: Call, op: Op, f: Fault)
    requires Serves(rec.row) && OpAt(rec, rec.row.config.cfg, pc, false) == Some(op)
    requires !Creating(pc) && !Resetting(pc) && !pc.DeploymentDelete? && PointOk(rec.row, pc) && TruthAt(s, rec.row, pc)
    ensures var (s', r) := Perform(s, op, true, f);
            TruthNext(s, s', rec.row, pc, Some(if Accepts(pc, r) then AfterWrite(rec.row, pc) else FailureIncrement))
  {
  }

  lemma WriteKeepsTruth(s: Slot, rec: Record, pc: Call, op: Op, admitted: bool, f: Fault, lingers: bool)
    requires Serves(rec.row) && PointOk(rec.row, pc) && OpAt(rec, rec.row.config.cfg, pc, lingers) == Some(op)
    requires TruthAt(s, rec.row, pc) && !CutsCall(pc, f)
    ensures var (s', r) := Perform(s, op, admitted, f);
            TruthNext(s, s', rec.row, pc, Some(if Accepts(pc, r) then AfterWrite(rec.row, pc) else FailureIncrement))
  {
    if Resetting(pc) || pc.DeploymentDelete? {
      DeletionKeepsTruth(s, rec, pc, op, f, lingers);
    } else if Creating(pc) {
      CreationKeepsTruth(s, rec, pc, op, admitted, f);
    } else {
      UpdateKeepsTruth(s, rec, pc, op, f);
    }
  }

  lemma OtherKeepsTruth(c: Objects, t: Tables, reg: Registry.Servers, rec: Record, pc: Call, f: Fault, giveUp: bool)
    requires WellNamed(rec) && Serves(rec.row) && PointOk(rec.row, pc)
    requires TruthAt(c.At(rec.name), rec.row, pc) && OpAt(rec, rec.row.config.cfg, pc, false).None?
    ensures var r := OtherCall(c, t, reg, rec, rec.row.config.cfg, pc, f, giveUp);
            && r.cluster.At(rec.name) == c.At(rec.name)
            && TruthNext(c.At(rec.name), c.At(rec.name), rec.row, pc, r.next)
  {
  }

  /** A call of a turn keeps what the next one relies on, unless it cuts a hard reset off. */
  lemma CallKeepsTruth(c: Objects, t: Tables, reg: Registry.Servers, job: Job, f: Fault, lingers: bool, giveUp: bool)
    requires WellNamed(job.rec) && Serves(job.rec.row) && PointOk(job.rec.row, job.pc)
    requires TruthAt(c.At(job.rec.name), job.rec.row, job.pc) && !CutsCall(job.pc, f)
    ensures var r := Step(c, t, reg, job, f, lingers, giveUp);
            TruthNext(c.At(job.rec.name), r.cluster.At(job.rec.name), job.rec.row, job.pc, r.next)
  {
    var n, op := job.rec.name, OpAt(job.rec, job.rec.row.config.cfg, job.pc, lingers);
    if op.Some? {
      WriteKeepsTruth(c.At(n), job.rec, job.pc, op.value, c.Admits(n, op.value), f, lingers);
    } else {
      OtherKeepsTruth(c, t, reg, job.rec, job.pc, f, giveUp);
    }
  }

  lemma CutEndsTurn(c: Objects, t: Tables, reg: Registry.Servers, job: Job, f: Fault, lingers: bool, giveUp: bool)
    requires job.rec.row.config.Encoded? && CutsCall(job.pc, f)
    ensures Step(c, t, reg, job, f, lingers, giveUp).next == Some(FailureIncrement)
  {
  }

  // What puts the marker at risk.

  /** The event may give n another configuration, or take it back from deletion. */
  predicate Retargets(s: State, e: Event, n: Name) {
    || (e.UpdateServerConfig? && e.name == n)
    || (e.Write? && e.request.StateChange? && e.request.name == n && n in s.tables.rows
        && s.tables.rows[n].desired.Deleting?)
  }

  predicate CutsReset(pc: Call, e: Event) {
    (e.MakeCall? && CutsCall(pc, e.fault)) || (e.Restart? && Resetting(pc))
  }

  /** When the loop lets go of n in this event, it has held n as the table has it and leaves no hard
      reset half done, or it has put an older configuration through on a Deployment that stands. */
  predicate Completes(s: State, e: Event, n: Name) {
    && s.ctl.Rows? && n in s.tables.rows
    && if Turning(s.ctl, n) then
         var job := s.ctl.job.value;
         && Serves(job.rec.row) && !CutsReset(job.pc, e)
         && (job.rec.row.config == s.tables.rows[n].config || (Through(job.pc) && Standing(s.cluster.At(n))))
       else
         forall i | 0 <= i < |s.ctl.todo| && s.ctl.todo[i].name == n ::
           Serves(s.ctl.todo[i].row) && s.ctl.todo[i].row.config == s.tables.rows[n].config
  }

  /** The loop is done with n, or gives it up. */
  ghost predicate Releases(s: State, e: Event, n: Name) {
    Held(s.ctl, n) && !Held(Apply(s, e).ctl, n)
  }

  /** n gets another target while the loop does not hold it, or the loop gives n up half-way. */
  ghost predicate Risky(s: State, e: Event, n: Name) {
    (Retargets(s, e, n) && !Held(s.ctl, n)) || (Releases(s, e, n) && !Completes(s, e, n))
  }

  // One event.

  /** If n is wanted afterwards, it was before, with the same configuration. */
  predicate SameTarget(rows: map<Name, Row>, rows': map<Name, Row>, n: Name) {
    Wanted(rows', n) ==> Wanted(rows, n) && rows'[n].config == rows[n].config
  }

  lemma TargetStays(s: State, e: Event, n: Name)
    requires !Retargets(s, e, n) && !(e.CreateServer? && e.name == n && n !in s.tables.rows)
    ensures SameTarget(s.tables.rows, Apply(s, e).tables.rows, n)
  {
    StepFate(s, e, n);
  }

  lemma SlotAfterCall(c: Objects, t: Tables, job: Job, r: Turn, n: Name)
    requires TurnOk(c, t, job, r) && job.rec.name != n
    ensures r.cluster.At(n) == c.At(n)
  {
  }

  lemma CountingKeepsObjects(c: Objects, t: Tables, reg: Registry.Servers, job: Job, f: Fault, lingers: bool,
      giveUp: bool)
    requires job.pc.FailureIncrement?
    ensures Step(c, t, reg, job, f, lingers, giveUp).cluster == c && Step(c, t, reg, job, f, lingers, giveUp).next.None?
  {
  }

  /** The loop goes on with n after its call. */
  predicate GoesOn(r: Turn) {
    r.next.Some? && !r.next.value.FailureIncrement?
  }

  /** A call of n's own turn. */
  lemma OwnCallKeepsTrust(s: State, e: Event, n: Name, job: Job, r: Turn)
    requires Inv(s) && Trusted(s, n) && e.MakeCall? && Turning(s.ctl, n) && s.ctl.job == Some(job)
    requires r == Step(s.cluster, s.tables, s.registry, job, e.fault, e.lingers, e.giveUp)
    requires SameTarget(s.tables.rows, r.tables.rows, n)
    requires !GoesOn(r) && !Completes(s, e, n) ==> Fit(AfterTurn(s, job.rec, r), n)
    ensures Trusted(AfterTurn(s, job.rec, r), n)
  {
    if Serves(job.rec.row) {
      if CutsCall(job.pc, e.fault) {
        CutEndsTurn(s.cluster, s.tables, s.registry, job, e.fault, e.lingers, e.giveUp);
      } else {
        CallKeepsTruth(s.cluster, s.tables, s.registry, job, e.fault, e.lingers, e.giveUp);
      }
    }
  }

  /** A call of another turn, or the count of a failure. */
  lemma OtherCallKeepsTrust(s: State, e: Event, n: Name, job: Job, r: Turn)
    requires Inv(s) && Trusted(s, n) && e.MakeCall? && s.ctl.Rows? && !Turning(s.ctl, n) && s.ctl.job == Some(job)
    requires r == Step(s.cluster, s.tables, s.registry, job, e.fault, e.lingers, e.giveUp)
    requires SameTarget(s.tables.rows, r.tables.rows, n)
    ensures Trusted(AfterTurn(s, job.rec, r), n)
  {
    if job.rec.name != n {
      StepIsOk(s.cluster, s.tables, s.registry, job, e.fault, e.lingers, e.giveUp);
      SlotAfterCall(s.cluster, s.tables, job, r, n);
    } else {
      CountingKeepsObjects(s.cluster, s.tables, s.registry, job, e.fault, e.lingers, e.giveUp);
    }
  }

  lemma CallKeepsTrust(s: State, e: Event, n: Name)
    requires Inv(s) && Trusted(s, n) && e.MakeCall? && (Risky(s, e, n) ==> Fit(Apply(s, e), n))
    ensures Trusted(Apply(s, e), n)
  {
    if s.ctl.Rows? && s.ctl.job.Some? {
      var job := s.ctl.job.value;
      var r := Step(s.cluster, s.tables, s.registry, job, e.fault, e.lingers, e.giveUp);
      assert Apply(s, e) == AfterTurn(s, job.rec, r);
      TargetStays(s, e, n);
      if Turning(s.ctl, n) {
        OwnCallKeepsTrust(s, e, n, job, r);
      } else {
        OtherCallKeepsTrust(s, e, n, job, r);
      }
    }
  }

  lemma NextRowKeepsTrust(s: State, n: Name)
    requires Inv(s) && Trusted(s, n) && (Risky(s, NextRow, n) ==> Fit(Apply(s, NextRow), n))
    ensures Trusted(Apply(s, NextRow), n)
  {
    if Apply(s, NextRow).ctl != s.ctl {
      var todo := s.ctl.todo;
      assert forall i | 0 <= i < |todo[1..]| :: todo[1..][i] == todo[i + 1];
      assert forall i | 1 <= i < |todo| :: todo[i] == todo[1..][i - 1];
    }
  }

  lemma ListingKeepsTrust(s: State, e: Event, n: Name)
    requires Trusted(s, n) && e.ListRows?
    ensures Trusted(Apply(s, e), n)
  {
    if Apply(s, e).ctl != s.ctl && e.fault.Clean? && n in s.tables.rows {
      assert Record(n, s.tables.rows[n]) in e.records;
    }
  }

  /** Waking, listing the registry and the drift loop: no row is held, before or after. */
  lemma QuietStep(s: State, e: Event, n: Name)
    requires e.Tick? || e.Receive? || e.ListRegistry? || e.DriftOne?
    ensures Apply(s, e).cluster == s.cluster
    ensures Apply(s, e).ctl == s.ctl || (!Held(s.ctl, n) && !Apply(s, e).ctl.Rows?)
  {
  }

  lemma QuietKeepsTrust(s: State, s': State, n: Name)
    requires Trusted(s, n) && s'.cluster == s.cluster && SameTarget(s.tables.rows, s'.tables.rows, n)
    requires s'.ctl == s.ctl || (!Held(s.ctl, n) && !s'.ctl.Rows?)
    ensures Trusted(s', n)
  {
  }

  lemma LoopKeepsTrust(s: State, e: Event, n: Name)
    requires Inv(s) && Trusted(s, n) && IsLoopEvent(e) && (Risky(s, e, n) ==> Fit(Apply(s, e), n))
    ensures Trusted(Apply(s, e), n)
  {
    if e.MakeCall? {
      CallKeepsTrust(s, e, n);
    } else if e.NextRow? {
      NextRowKeepsTrust(s, n);
    } else if e.ListRows? {
      ListingKeepsTrust(s, e, n);
    } else {
      TargetStays(s, e, n);
      QuietStep(s, e, n);
      QuietKeepsTrust(s, Apply(s, e), n);
    }
  }

  lemma WorldKeepsTrust(s: State, e: Event, n: Name)
    requires Inv(s) && Trusted(s, n) && IsWorldEvent(e) && (Risky(s, e, n) ==> Fit(Apply(s, e), n))
    ensures Trusted(Apply(s, e), n)
  {
  }

  /** Handlers leave the loop alone and, of the objects, all but a volume. */
  lemma TrustFollows(s: State, s': State, n: Name)
    requires Trusted(s, n) && s'.ctl == s.ctl
    requires s'.cluster.At(n).(volume := None) == s.cluster.At(n).(volume := None)
    requires Held(s.ctl, n) || SameTarget(s.tables.rows, s'.tables.rows, n) || Fit(s', n)
    ensures Trusted(s', n)
  {
    var slot, slot' := s.cluster.At(n), s'.cluster.At(n);
    assert slot'.deployment == slot.deployment && slot'.configMap == slot.configMap && slot'.secret == slot.secret;
  }

  lemma HandlerKeepsTrust(s: State, e: Event, n: Name)
    requires Inv(s) && Trusted(s, n) && !IsLoopEvent(e) && !IsWorldEvent(e)
    requires Risky(s, e, n) ==> Fit(Apply(s, e), n)
    ensures Trusted(Apply(s, e), n)
  {
    HandlersKeepObjects(s, e);
    if e.CreateServer? && e.name == n && n !in s.tables.rows {
      NewServerFits(s, Apply(s, e), n);
    } else if !Retargets(s, e, n) {
      TargetStays(s, e, n);
    }
    TrustFollows(s, Apply(s, e), n);
  }

  /** A server without a row has nothing that could be wrong. */
  lemma NewServerFits(s: State, s': State, n: Name)
    requires Inv(s) && n !in s.tables.rows
    requires s'.cluster.At(n).(volume := None) == s.cluster.At(n).(volume := None)
    ensures Fit(s', n)
  {
    assert !Live(s.cluster.At(n));
    var slot, slot' := s.cluster.At(n), s'.cluster.At(n);
    assert slot'.deployment == slot.deployment && slot'.configMap == slot.configMap && slot'.secret == slot.secret;
  }

  lemma StepKeepsTrust(s: State, e: Event, n: Name)
    requires Inv(s) && Trusted(s, n) && (Risky(s, e, n) ==> Fit(Apply(s, e), n))
    ensures Trusted(Apply(s, e), n)
  {
    if IsLoopEvent(e) {
      LoopKeepsTrust(s, e, n);
    } else if IsWorldEvent(e) {
      WorldKeepsTrust(s, e, n);
    } else {
      HandlerKeepsTrust(s, e, n);
    }
  }

  /** Trust is lost exactly in a step that gives n another target between passes, or in which the loop
      gives n up half-way, and that leaves objects which do not fit what n is wanted to be then. */
  lemma TrustLostIff(s: State, e: Event, n: Name)
    requires Inv(s) && Trusted(s, n)
    ensures Trusted(Apply(s, e), n) <==> (Risky(s, e, n) ==> Fit(Apply(s, e), n))
  {
    if Risky(s, e, n) ==> Fit(Apply(s, e), n) {
      StepKeepsTrust(s, e, n);
    } else if Retargets(s, e, n) {
      HandlersKeepObjects(s, e);
    }
  }

  // Whole runs.

  ghost predicate SteadyRun(s: State, es: seq<Event>, n: Name)
    decreases |es|
  {
    es == [] || (&& KeepsNames(es[0]) && !es[0].ResetDatabase? && (Risky(s, es[0], n) ==> Fit(Apply(s, es[0]), n))
                 && SteadyRun(Apply(s, es[0]), es[1..], n))
  }

  /** The loop is not in a turn for n and holds no other row of n than this. */
  predicate Between(ctl: Ctl, n: Name, row: Row) {
    !Turning(ctl, n)
    && (ctl.Rows? ==> forall i | 0 <= i < |ctl.todo| && ctl.todo[i].name == n ::
          Serves(ctl.todo[i].row) && ctl.todo[i].row.config == row.config)
  }

  /** The hash can be trusted: in every run in which no risky step leaves n unfit, whenever n is wanted,
      the loop is not in a turn for it, and no outdated row of it is listed, its marker is honest. */
  lemma {:induction false} MarkersAreHonest(s: State, es: seq<Event>, n: Name)
    requires Inv(s) && Trusted(s, n) && SteadyRun(s, es, n)
    ensures Inv(Run(s, es)) && Trusted(Run(s, es), n)
    ensures var r := Run(s, es);
            Wanted(r.tables.rows, n) && Between(r.ctl, n, r.tables.rows[n]) ==>
              Honest(r.cluster.At(n), r.tables.rows[n].config.cfg)
    decreases |es|
  {
    if es == [] {
      if Wanted(s.tables.rows, n) && Between(s.ctl, n, s.tables.rows[n]) {
        TrustedIsHonest(s, n);
      }
    } else {
      StepKeepsInv(s, es[0]);
      StepKeepsTrust(s, es[0], n);
      MarkersAreHonest(Apply(s, es[0]), es[1..], n);
    }
  }

  lemma TrustedIsHonest(s: State, n: Name)
    requires Trusted(s, n) && Wanted(s.tables.rows, n) && Between(s.ctl, n, s.tables.rows[n])
    ensures Honest(s.cluster.At(n), s.tables.rows[n].config.cfg)
  {
    TruthfulIsHonest(s.cluster.At(n), s.tables.rows[n].config.cfg);
  }

  /** So a pass finds every wanted server ready to converge, as soon as its Deployment is not on its way
      out, its port exists, and a hard reset that is due has the time it needs. */
  lemma ReadyToConverge(s: State, n: Name, io: Io)
    requires PortsOk(s) && Trusted(s, n) && s.ctl.Woken? && Wanted(s.tables.rows, n)
    requires NodePortPair(PortOf(s.tables.rows[n]))
    requires s.cluster.At(n).deployment.Some? ==> !s.cluster.At(n).deployment.value.terminating
    requires HardResetDue(s.tables.rows[n]) ==> InTime(io, RECREATE_POLL_INTERVAL)
    ensures Ready(s.cluster.At(n), s.tables.rows[n], s.tables.rows[n].config.cfg, io)
  {
    TruthfulIsHonest(s.cluster.At(n), s.tables.rows[n].config.cfg);
  }
}
