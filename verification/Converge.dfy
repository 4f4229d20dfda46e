/** internal/controller/controller.go as functions: one reconcile pass over the tables and the
    cluster, for a given listing order and given faults. */
module Converge {
  import opened Types
  import opened Builder
  import opened Cluster
  import opened Manager
  import opened Store
  import Registry

  /** What a pass writes to. */
  datatype Sys = Sys(tables: Tables, cluster: Objects)

  /** The outside, per server. */
  type Weather = Name -> Io

  /** The gate in front of a hard reset. */
  predicate HardResetDue(r: Row) {
    r.failures > 0 && r.failures % 5 == 0
  }

  function TargetReplicas(d: Desired): int32 {
    if d.Running? then MAX_REPLICAS else 0
  }

  function EnsureReplicas(c: Objects, n: Name, want: int32, reg: Registry.Servers, io: Io): (Objects, bool) {
    if n !in reg || reg[n].deployment.replicas == want then (c, true)
    else if !Read(c.At(n).deployment.Some?, io.fault(ScaleGet)).Done? then (c, false)
    else
      var (s, r) := Perform(c.At(n), UpdateReplicas(want), true, io.fault(ScaleUpdate));
      (c.Put(n, s), r.Done?)
  }

  /** The soft path after CreateAll: the hash test, the configuration if it differs, the scaling. */
  function HashAndScale(c1: Objects, rec: Record, cfg: ValheimConfig, reg: Registry.Servers, io: Io): (Objects, bool) {
    var d := c1.At(rec.name).deployment;
    if Read(d.Some?, io.fault(HashGet)).Refused? then (c1, false) else
    var (c2, ok2) := if d.Some? && d.value.marker == Some(HashCfg(cfg)) then (c1, true)
                     else ApplyConfigIn(c1, cfg.core.serverName, cfg, HashCfg(cfg), io);
    if !ok2 then (c2, false) else EnsureReplicas(c2, rec.name, TargetReplicas(rec.row.desired), reg, io)
  }

  /** The objects part of stateActions: the manager works under the configured server name, the
      hash test and the scaling under the row's name. */
  function StateObjects(c: Objects, rec: Record, cfg: ValheimConfig, reg: Registry.Servers, io: Io): (Objects, bool) {
    if HardResetDue(rec.row) then
      var (c1, ok) := RecreateAllIn(c, cfg.core.serverName, cfg, io, RECREATE_POLL_INTERVAL);
      if !ok then (c1, false) else EnsureReplicas(c1, rec.name, TargetReplicas(rec.row.desired), reg, io)
    else
      var (c1, ok) := CreateAllIn(c, cfg.core.serverName, cfg, io);
      if !ok then (c1, false) else HashAndScale(c1, rec, cfg, reg, io)
  }

  /** The object calls of one turn. */
  function ConvergeObjects(c: Objects, rec: Record, reg: Registry.Servers, io: Io): (Objects, bool) {
    match rec.row.config
    case Corrupt => (c, false)
    case Encoded(cfg) =>
      if rec.row.desired.Deleting? then DeleteAllIn(c, cfg.core.serverName, rec.row.purge, io)
      else StateObjects(c, rec, cfg, reg, io)
  }

  /** What a turn does to its row once the object calls succeeded. */
  function SettleRow(t: Tables, rec: Record, io: Io): (Tables, DbReply) {
    if rec.row.desired.Deleting? then DeleteServer(t, rec.name, io.fault(RowDelete))
    else ResetFailures(t, rec.name, io.fault(FailuresReset))
  }

  function ConvergeRow(sys: Sys, rec: Record, reg: Registry.Servers, io: Io): (Sys, bool) {
    var (c, ok) := ConvergeObjects(sys.cluster, rec, reg, io);
    if !ok then (sys.(cluster := c), false) else
    var (t, r) := SettleRow(sys.tables, rec, io);
    (Sys(t, c), r.Ok?)
  }

  /** One turn of the row loop: converge, and count a failure. */
  function PassRow(sys: Sys, rec: Record, reg: Registry.Servers, io: Io): Sys {
    var (sys', ok) := ConvergeRow(sys, rec, reg, io);
    if ok then sys'
    else sys'.(tables := IncrementFailure(sys'.tables, rec.name, io.fault(FailureIncrement)).0)
  }

  function PassRows(sys: Sys, todo: seq<Record>, reg: Registry.Servers, io: Weather): Sys
    decreases |todo|
  {
    if todo == [] then sys
    else PassRows(PassRow(sys, todo[0], reg, io(todo[0].name)), todo[1..], reg, io)
  }

  type DriftCounts = map<Name, nat>

  function Count(drift: DriftCounts, n: Name): nat {
    if n in drift then drift[n] else 0
  }

  /** One turn of the drift loop. */
  function DriftEntry(t: Tables, drift: DriftCounts, n: Name, rowNames: set<Name>, f: Fault): (Tables, DriftCounts) {
    if n in rowNames then (t, drift - {n})
    else
      var counted := drift[n := Count(drift, n) + 1];
      if counted[n] < 3 then (t, counted)
      else
        var (t', r) := InsertOrphanTombstone(t, n, OrphanConfig(n), f);
        (t', if r.Ok? then counted - {n} else counted)
  }

  function DriftPass(t: Tables, drift: DriftCounts, names: seq<Name>, rowNames: set<Name>,
      io: Weather): (Tables, DriftCounts)
    decreases |names|
  {
    if names == [] then (t, drift)
    else
      var (t', drift') := DriftEntry(t, drift, names[0], rowNames, io(names[0]).fault(TombstoneInsert));
      DriftPass(t', drift', names[1..], rowNames, io)
  }

  datatype PassEnd = PassEnd(sys: Sys, drift: DriftCounts)

  function RecordNames(records: seq<Record>): set<Name> {
    set r | r in records :: r.name
  }

  /** A whole pass over rows listed as records and registry entries listed as names. */
  function Pass(sys: Sys, drift: DriftCounts, records: seq<Record>, names: seq<Name>, reg: Registry.Servers,
      io: Weather): PassEnd {
    var sys' := PassRows(sys, records, reg, io);
    var (t, drift') := DriftPass(sys'.tables, drift, names, RecordNames(records), io);
    PassEnd(sys'.(tables := t), drift')
  }
}
