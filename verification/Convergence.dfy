/** Convergence: two calm passes with a registry sync between them bring the cluster to the rows, and
    a third changes nothing. */
module Convergence {
  import opened Types
  import opened Builder
  import opened Cluster
  import opened Manager
  import opened Store
  import opened Converge
  import opened SlotProofs
  import opened PassProofs
  import opened PassTheorems
  import Registry

  // One server.

  /** What a running or stopped row must find: honest marker (or a hard reset that is due and can
      finish), its own ports, and no Deployment that is about to vanish. */
  predicate Ready(s: Slot, row: Row, cfg: ValheimConfig, io: Io) {
    && NodePortPair(cfg.core.serverPort)
    && (s.service.Some? ==> s.service == Some(cfg.core.serverPort))
    && (s.deployment.Some? ==> !s.deployment.value.terminating)
    && (if HardResetDue(row) then InTime(io, RECREATE_POLL_INTERVAL) else Honest(s, cfg))
  }

  /** All five objects exist and match the configuration; the replica count is open. */
  predicate Provisioned(s: Slot, cfg: ValheimConfig) {
    && s.volume.Some? && Publishes(s, cfg) && s.service == Some(cfg.core.serverPort)
    && Marked(s, cfg) && !s.deployment.value.terminating
  }

  /** One replica for a running server, none for a stopped one. */
  predicate Scaled(d: Deployment, row: Row) {
    (row.desired.Running? ==> d.replicas == 1) && (row.desired.Stopped? ==> d.replicas == 0)
  }

  predicate Settled(s: Slot, row: Row, cfg: ValheimConfig) {
    Provisioned(s, cfg) && Scaled(s.deployment.value, row)
  }

  lemma CalmScale(s: Slot, want: int32, seen: Option<int32>, io: Io)
    requires Calm(io) && s.deployment.Some?
    ensures var d := Scale(s, want, seen, io);
            && d.ok
            && d.slot == if seen.None? || seen.value == want then s
                else s.(deployment := Some(s.deployment.value.(replicas := want)))
  {
  }

  lemma SoftApplyProvisions(s: Slot, cfg: ValheimConfig, io: Io)
    requires Calm(io) && Honest(s, cfg)
    requires s.service.Some? ==> s.service == Some(cfg.core.serverPort)
    requires s.deployment.Some? ==> !s.deployment.value.terminating
    ensures var d := SoftApply(s, cfg, true, io); d.ok && Provisioned(d.slot, cfg)
  {
    SoftPassAgreesIffHonest(s, cfg, true, io);
    var d := CreateAll(s, cfg, true, io);
    CreateAllFills(s, cfg, true, io);
    CreateAllAdds(s, cfg, true, io);
    ApplyKeepsRest(d.slot, cfg, HashCfg(cfg), io);
  }

  lemma FirstTurn(s: Slot, row: Row, cfg: ValheimConfig, seen: Option<int32>, io: Io)
    requires Calm(io) && Serves(row) && row.config == Encoded(cfg) && Ready(s, row, cfg, io)
    ensures var d := ConvergeSlot(s, row, seen, true, io); d.ok && Provisioned(d.slot, cfg)
  {
    if HardResetDue(row) {
      RecreateStabilises(s, cfg, true, io, RECREATE_POLL_INTERVAL);
      CalmScale(RecreateAll(s, cfg, true, io, RECREATE_POLL_INTERVAL).slot, TargetReplicas(row.desired), seen, io);
    } else {
      SoftApplyProvisions(s, cfg, io);
      CalmScale(SoftApply(s, cfg, true, io).slot, TargetReplicas(row.desired), seen, io);
    }
  }

  lemma SoftApplyIdle(s: Slot, cfg: ValheimConfig, io: Io)
    requires Calm(io) && Provisioned(s, cfg)
    ensures SoftApply(s, cfg, true, io) == Did(s, true)
  {
    CreateAllAdds(s, cfg, true, io);
    CreateAllFills(s, cfg, true, io);
  }

  /** With the true replica count in the registry, only the replica count still changes. */
  lemma SecondTurn(s: Slot, row: Row, cfg: ValheimConfig, io: Io)
    requires Calm(io) && Serves(row) && row.config == Encoded(cfg) && row.failures == 0 && Provisioned(s, cfg)
    ensures var d := ConvergeSlot(s, row, Some(s.deployment.value.replicas), true, io);
            d.ok && d.slot.deployment.Some? && Scaled(d.slot.deployment.value, row)
            && d.slot == s.(deployment := Some(s.deployment.value.(replicas := d.slot.deployment.value.replicas)))
  {
    SoftApplyIdle(s, cfg, io);
    CalmScale(s, TargetReplicas(row.desired), Some(s.deployment.value.replicas), io);
  }

  lemma CalmRow(row: Row, io: Io)
    requires Calm(io)
    ensures ConvergedRow(row, true, io) == if row.desired.Deleting? then None else Some(row.(failures := 0))
  {
  }

  // Whole passes.

  datatype PassInput = PassInput(records: seq<Record>, names: seq<Name>, reg: Registry.Servers, io: Weather)

  function RunPass(p: PassEnd, a: PassInput): PassEnd {
    Pass(p.sys, p.drift, a.records, a.names, a.reg, a.io)
  }

  /** The pass lists exactly the rows and the registry entries there are. */
  ghost predicate Fits(p: PassEnd, a: PassInput) {
    IsListing(a.records, p.sys.tables.rows) && Lists(a.names, a.reg.Keys)
  }

  /** The registry knows the Deployment of n, with its replica count, or knows that there is none. */
  predicate Synced(reg: Registry.Servers, c: Objects, n: Name) {
    && (n in reg <==> c.At(n).deployment.Some?)
    && (n in reg ==> reg[n].deployment.replicas == c.At(n).deployment.value.replicas)
  }

  lemma ConvergedRowKeeps(row: Row, ok: bool, io: Io)
    ensures var r := ConvergedRow(row, ok, io);
            r.Some? ==>
                r.value.config == row.config && r.value.desired == row.desired && r.value.purge == row.purge
                && r.value.owner == row.owner
  {
  }

  /** Names and ports stay in order through any pass, whatever fails. */
  lemma PassKeepsTidy(p: PassEnd, a: PassInput)
    requires Tidy(p.sys) && Fits(p, a)
    ensures Tidy(RunPass(p, a).sys)
  {
    var q := RunPass(p, a);
    var rows, rows' := p.sys.tables.rows, q.sys.tables.rows;
    forall n | n in rows'
      ensures WellNamed(Record(n, rows'[n]))
      ensures Serves(rows'[n]) ==> n in rows && Serves(rows[n]) && PortOf(rows'[n]) == PortOf(rows[n])
    {
      RowOrigin(p, a, n);
    }
    forall m
      ensures q.sys.cluster.At(m).service.Some? ==>
                q.sys.cluster.At(m).service == p.sys.cluster.At(m).service
                || (m in rows && Serves(rows[m]) && q.sys.cluster.At(m).service == Some(PortOf(rows[m])))
    {
      ServiceOrigin(p, a, m);
    }
  }

  lemma RowOrigin(p: PassEnd, a: PassInput, n: Name)
    requires Tidy(p.sys) && Fits(p, a) && n in RunPass(p, a).sys.tables.rows
    ensures var rows, row' := p.sys.tables.rows, RunPass(p, a).sys.tables.rows[n];
            && WellNamed(Record(n, row'))
            && (if n in rows then row'.config == rows[n].config && row'.desired == rows[n].desired
                else n in a.reg && row' == Tombstone(p.sys.tables, n))
  {
    var rows := p.sys.tables.rows;
    if n in rows {
      PassAt(p.sys, p.drift, a.records, a.names, a.reg, a.io, n);
      var rec := Record(n, rows[n]);
      assert WellNamed(rec);
      ConvergedRowKeeps(rows[n], SlotAfter(p.sys, rec, a.reg, a.io).ok, a.io(n));
    } else {
      PassElsewhere(p.sys, p.drift, a.records, a.names, a.reg, a.io, n);
    }
  }

  lemma ServiceOrigin(p: PassEnd, a: PassInput, m: Name)
    requires Tidy(p.sys) && Fits(p, a)
    ensures var rows, s, s' := p.sys.tables.rows, p.sys.cluster.At(m), RunPass(p, a).sys.cluster.At(m);
            s'.service.Some? ==>
                s'.service == s.service || (m in rows && Serves(rows[m]) && s'.service == Some(PortOf(rows[m])))
  {
    var rows := p.sys.tables.rows;
    if m in rows {
      PassAt(p.sys, p.drift, a.records, a.names, a.reg, a.io, m);
      ServiceAfterConverge(p.sys.cluster.At(m), rows[m], Seen(a.reg, m), NodePortPair(PortOf(rows[m])), a.io(m));
    } else {
      PassElsewhere(p.sys, p.drift, a.records, a.names, a.reg, a.io, m);
    }
  }

  // One server, whatever the others do.

  /** The server's row is decodable and wants it running or stopped. */
  predicate Wanted(rows: map<Name, Row>, n: Name) {
    n in rows && rows[n].config.Encoded? && !rows[n].desired.Deleting?
  }

  predicate Cleared(s: Slot) {
    s.deployment.None? && s.service.None? && s.configMap.None? && s.secret.None?
  }

  /** A pass that is calm for n provisions a server that is ready. */
  lemma FirstPassAt(p: PassEnd, a: PassInput, q: PassEnd, n: Name)
    requires Tidy(p.sys) && Fits(p, a) && Calm(a.io(n)) && q == RunPass(p, a) && Wanted(p.sys.tables.rows, n)
    requires Ready(p.sys.cluster.At(n), p.sys.tables.rows[n], p.sys.tables.rows[n].config.cfg, a.io(n))
    ensures var row := p.sys.tables.rows[n];
            RowIs(q.sys.tables.rows, n, Some(row.(failures := 0))) && Provisioned(q.sys.cluster.At(n), row.config.cfg)
  {
    var row := p.sys.tables.rows[n];
    PassAt(p.sys, p.drift, a.records, a.names, a.reg, a.io, n);
    CalmRow(row, a.io(n));
    FirstTurn(p.sys.cluster.At(n), row, row.config.cfg, Seen(a.reg, n), a.io(n));
  }

  /** From then on a pass that is calm for n and knows its Deployment changes the replica count only. */
  lemma NextPassAt(p: PassEnd, a: PassInput, q: PassEnd, n: Name)
    requires Tidy(p.sys) && Fits(p, a) && Calm(a.io(n)) && q == RunPass(p, a) && Wanted(p.sys.tables.rows, n)
    requires p.sys.tables.rows[n].failures == 0 && NodePortPair(PortOf(p.sys.tables.rows[n]))
    requires Provisioned(p.sys.cluster.At(n), p.sys.tables.rows[n].config.cfg) && Synced(a.reg, p.sys.cluster, n)
    ensures var row, s, s' := p.sys.tables.rows[n], p.sys.cluster.At(n), q.sys.cluster.At(n);
            && RowIs(q.sys.tables.rows, n, Some(row)) && s'.deployment.Some? && Scaled(s'.deployment.value, row)
            && s' == s.(deployment := Some(s.deployment.value.(replicas := s'.deployment.value.replicas)))
  {
    var row, s := p.sys.tables.rows[n], p.sys.cluster.At(n);
    PassAt(p.sys, p.drift, a.records, a.names, a.reg, a.io, n);
    SecondTurn(s, row, row.config.cfg, a.io(n));
    CalmRow(row, a.io(n));
    assert Seen(a.reg, n) == Some(s.deployment.value.replicas);
  }

  /** Nothing is left but a Deployment on its way out, and the volume unless it was to be purged. */
  predicate TornDown(s: Slot, s': Slot, purge: bool, io: Io) {
    && s'.service.None? && s'.configMap.None? && s'.secret.None?
    && (s'.deployment.Some? ==> s'.deployment.value.terminating && io.linger > 0)
    && s'.volume == if purge then None else s.volume
  }

  /** A decodable deleting row is gone after one pass that is calm for n, and its objects are torn
      down. */
  lemma DeletionAlone(p: PassEnd, a: PassInput, q: PassEnd, n: Name)
    requires Tidy(p.sys) && Fits(p, a) && Calm(a.io(n)) && q == RunPass(p, a)
    requires n in p.sys.tables.rows && p.sys.tables.rows[n].config.Encoded? && p.sys.tables.rows[n].desired.Deleting?
    ensures var row, s, s' := p.sys.tables.rows[n], p.sys.cluster.At(n), q.sys.cluster.At(n);
            n !in q.sys.tables.rows && TornDown(s, s', row.purge, a.io(n))
  {
    var row := p.sys.tables.rows[n];
    PassAt(p.sys, p.drift, a.records, a.names, a.reg, a.io, n);
    CalmRow(row, a.io(n));
    DeleteAllClears(p.sys.cluster.At(n), row.purge, a.io(n));
  }

  /** Convergence of one server: two passes that are calm for n, with its registry entry in sync before
      the second, leave its row with no failures and all five objects as the row wants them; a third
      changes neither. Whatever happens to the other servers does not matter. */
  lemma ConvergesAlone(p: PassEnd, a: PassInput, one: PassEnd, b: PassInput, two: PassEnd, c: PassInput,
      three: PassEnd, n: Name)
    requires Tidy(p.sys) && Fits(p, a) && Calm(a.io(n)) && one == RunPass(p, a) && Wanted(p.sys.tables.rows, n)
    requires Ready(p.sys.cluster.At(n), p.sys.tables.rows[n], p.sys.tables.rows[n].config.cfg, a.io(n))
    requires Fits(one, b) && Calm(b.io(n)) && Synced(b.reg, one.sys.cluster, n) && two == RunPass(one, b)
    requires Fits(two, c) && Calm(c.io(n)) && Synced(c.reg, two.sys.cluster, n) && three == RunPass(two, c)
    ensures var row := p.sys.tables.rows[n].(failures := 0);
            && RowIs(two.sys.tables.rows, n, Some(row)) && Settled(two.sys.cluster.At(n), row, row.config.cfg)
            && RowIs(three.sys.tables.rows, n, Some(row)) && three.sys.cluster.At(n) == two.sys.cluster.At(n)
  {
    FirstPassAt(p, a, one, n);
    PassKeepsTidy(p, a);
    NextPassAt(one, b, two, n);
    PassKeepsTidy(one, b);
    NextPassAt(two, c, three, n);
  }

  // All servers.

  /** Every row is decodable and ready or promptly deleted, and nothing is there without a row. */
  ghost predicate Convergeable(p: PassEnd, a: PassInput) {
    forall n :: ConvergeableAt(p, a, n)
  }

  ghost predicate ConvergeableAt(p: PassEnd, a: PassInput, n: Name) {
    var rows := p.sys.tables.rows;
    if n !in rows then p.sys.cluster.At(n).deployment.None? && n !in a.reg
    else rows[n].config.Encoded?
         && if rows[n].desired.Deleting? then a.io(n).linger == 0
            else Ready(p.sys.cluster.At(n), rows[n], rows[n].config.cfg, a.io(n))
  }

  /** The rows that remain: the wanted ones, with no failures counted. */
  function Remaining(rows: map<Name, Row>): map<Name, Row> {
    map n | n in rows && !rows[n].desired.Deleting? :: rows[n].(failures := 0)
  }

  /** Three passes, one after the other, calm everywhere and in sync after the first. */
  ghost predicate CalmPasses(p: PassEnd, a: PassInput, one: PassEnd, b: PassInput, two: PassEnd, c: PassInput,
      three: PassEnd) {
    && Tidy(p.sys) && Fits(p, a) && Fits(one, b) && Fits(two, c)
    && one == RunPass(p, a) && two == RunPass(one, b) && three == RunPass(two, c)
    && forall n :: && Calm(a.io(n)) && Calm(b.io(n)) && Calm(c.io(n))
                   && Synced(b.reg, one.sys.cluster, n) && Synced(c.reg, two.sys.cluster, n)
  }

  /** What becomes of one server in them. */
  ghost predicate Converged(p: PassEnd, two: PassEnd, three: PassEnd, n: Name) {
    var rows, row' := p.sys.tables.rows,
        if Wanted(p.sys.tables.rows, n) then Some(p.sys.tables.rows[n].(failures := 0)) else None;
    && RowIs(two.sys.tables.rows, n, row') && RowIs(three.sys.tables.rows, n, row')
    && three.sys.cluster.At(n) == two.sys.cluster.At(n)
    && (row'.Some? ==> Settled(two.sys.cluster.At(n), row'.value, row'.value.config.cfg))
    && (n in rows && rows[n].desired.Deleting? ==> Cleared(two.sys.cluster.At(n)))
  }

  lemma NoRowStays(p: PassEnd, a: PassInput, q: PassEnd, n: Name)
    requires Tidy(p.sys) && Fits(p, a) && q == RunPass(p, a) && n !in p.sys.tables.rows && n !in a.reg
    ensures n !in q.sys.tables.rows && q.sys.cluster.At(n) == p.sys.cluster.At(n)
  {
    PassElsewhere(p.sys, p.drift, a.records, a.names, a.reg, a.io, n);
  }

  /** After the first pass an unwanted server has neither row nor Deployment. */
  lemma UnwantedGoes(p: PassEnd, a: PassInput, one: PassEnd, n: Name)
    requires Tidy(p.sys) && Fits(p, a) && Calm(a.io(n)) && one == RunPass(p, a)
    requires ConvergeableAt(p, a, n) && !Wanted(p.sys.tables.rows, n)
    ensures n !in one.sys.tables.rows && one.sys.cluster.At(n).deployment.None?
    ensures n in p.sys.tables.rows ==> Cleared(one.sys.cluster.At(n))
  {
    if n in p.sys.tables.rows {
      DeletionAlone(p, a, one, n);
    } else {
      NoRowStays(p, a, one, n);
    }
  }

  lemma UnwantedStaysGone(one: PassEnd, b: PassInput, two: PassEnd, c: PassInput, three: PassEnd, n: Name)
    requires Tidy(one.sys) && Fits(one, b) && Fits(two, c) && two == RunPass(one, b) && three == RunPass(two, c)
    requires Synced(b.reg, one.sys.cluster, n) && Synced(c.reg, two.sys.cluster, n)
    requires n !in one.sys.tables.rows && one.sys.cluster.At(n).deployment.None?
    ensures n !in two.sys.tables.rows && n !in three.sys.tables.rows
    ensures two.sys.cluster.At(n) == one.sys.cluster.At(n) && three.sys.cluster.At(n) == two.sys.cluster.At(n)
  {
    NoRowStays(one, b, two, n);
    PassKeepsTidy(one, b);
    NoRowStays(two, c, three, n);
  }

  lemma ConvergedAt(p: PassEnd, a: PassInput, one: PassEnd, b: PassInput, two: PassEnd, c: PassInput, three: PassEnd,
      n: Name)
    requires CalmPasses(p, a, one, b, two, c, three) && ConvergeableAt(p, a, n)
    ensures Converged(p, two, three, n)
  {
    assert Calm(a.io(n)) && Synced(b.reg, one.sys.cluster, n) && Synced(c.reg, two.sys.cluster, n);
    if Wanted(p.sys.tables.rows, n) {
      ConvergesAlone(p, a, one, b, two, c, three, n);
    } else {
      UnwantedGoes(p, a, one, n);
      PassKeepsTidy(p, a);
      UnwantedStaysGone(one, b, two, c, three, n);
    }
  }

  lemma RowsConverged(p: PassEnd, two: PassEnd, three: PassEnd)
    requires forall n :: Converged(p, two, three, n)
    requires forall n | n in p.sys.tables.rows :: p.sys.tables.rows[n].config.Encoded?
    ensures two.sys.tables.rows == Remaining(p.sys.tables.rows) && three.sys.tables.rows == two.sys.tables.rows
  {
    var rows := p.sys.tables.rows;
    forall n
      ensures n in two.sys.tables.rows <==> n in Remaining(rows)
      ensures n in two.sys.tables.rows ==> two.sys.tables.rows[n] == Remaining(rows)[n]
      ensures n in three.sys.tables.rows <==> n in Remaining(rows)
      ensures n in three.sys.tables.rows ==> three.sys.tables.rows[n] == Remaining(rows)[n]
    {
      assert Converged(p, two, three, n);
    }
  }

  /** Convergence everywhere: where nothing stands in the way of any server, two calm passes with a
      registry sync between them leave exactly the wanted rows, each with all five objects, matching
      configuration and hash and the wanted replicas, and nothing but volumes of the deleted ones.
      After another sync a third pass changes neither rows nor objects. */
  lemma TwoPassesConverge(p: PassEnd, a: PassInput, one: PassEnd, b: PassInput, two: PassEnd, c: PassInput,
      three: PassEnd)
    requires CalmPasses(p, a, one, b, two, c, three) && Convergeable(p, a)
    ensures two.sys.tables.rows == Remaining(p.sys.tables.rows) && three.sys.tables.rows == two.sys.tables.rows
    ensures forall n :: Converged(p, two, three, n)
  {
    forall n ensures Converged(p, two, three, n) && (n in p.sys.tables.rows ==> p.sys.tables.rows[n].config.Encoded?) {
      assert ConvergeableAt(p, a, n);
      ConvergedAt(p, a, one, b, two, c, three, n);
    }
    RowsConverged(p, two, three);
  }

  /** One pass is enough for a new running server, and not for a stopped one: a server always starts
      with one replica, and the scaling believes a registry that does not know it yet. */
  lemma StoppedNeedsSecondPass(row: Row, cfg: ValheimConfig, io: Io)
    requires Serves(row) && row.config == Encoded(cfg) && row.failures == 0
    requires Calm(io) && NodePortPair(cfg.core.serverPort)
    ensures var d := ConvergeSlot(NO_OBJECTS, row, None, true, io);
            && d.ok && Provisioned(d.slot, cfg) && d.slot.deployment.value.replicas == 1
            && (Settled(d.slot, row, cfg) <==> row.desired.Running?)
  {
    FirstTurn(NO_OBJECTS, row, cfg, None, io);
    SoftApplyProvisions(NO_OBJECTS, cfg, io);
    CreateAllAdds(NO_OBJECTS, cfg, true, io);
    ApplyKeepsRest(CreateAll(NO_OBJECTS, cfg, true, io).slot, cfg, HashCfg(cfg), io);
  }
}
