/** A pass, server by server: what one pass does to a server's objects and row depends only on that
    server. From this follow independence of the listing order and everything in PassTheorems. */
module PassProofs {
  import opened Types
  import opened Builder
  import opened Cluster
  import opened Manager
  import opened Store
  import opened Converge
  import opened SlotProofs
  import Registry

  // One server's share of a pass.

  /** ensureReplicas, given the replica count the registry shows, if any. */
  function Scale(s: Slot, want: int32, seen: Option<int32>, io: Io): Did {
    if seen.None? || seen.value == want then Did(s, true)
    else if !Read(s.deployment.Some?, io.fault(ScaleGet)).Done? then Did(s, false)
    else
      var (s', r) := Perform(s, UpdateReplicas(want), true, io.fault(ScaleUpdate));
      Did(s', r.Done?)
  }

  function ServeSlot(s: Slot, row: Row, cfg: ValheimConfig, seen: Option<int32>, free: bool, io: Io): Did {
    var d := if HardResetDue(row) then RecreateAll(s, cfg, free, io, RECREATE_POLL_INTERVAL)
        else SoftApply(s, cfg, free, io);
    if !d.ok then d else Scale(d.slot, TargetReplicas(row.desired), seen, io)
  }

  function ConvergeSlot(s: Slot, row: Row, seen: Option<int32>, free: bool, io: Io): Did {
    if row.config.Corrupt? then Did(s, false)
    else if row.desired.Deleting? then DeleteAll(s, row.purge, io)
    else ServeSlot(s, row, row.config.cfg, seen, free, io)
  }

  /** The row after a failed turn. */
  function Charged(row: Row, io: Io): Row {
    if io.fault(FailureIncrement).Dropped? then row else row.(failures := row.failures + 1)
  }

  /** The row after a turn whose object calls all succeeded or not. */
  function ConvergedRow(row: Row, ok: bool, io: Io): Option<Row> {
    if !ok then Some(Charged(row, io))
    else if row.desired.Deleting? then
      (if io.fault(RowDelete).Dropped? then Some(Charged(row, io)) else None)
    else
      match io.fault(FailuresReset)
      case Clean => Some(row.(failures := 0))
      case Dropped => Some(Charged(row, io))
      case Lost => Some(Charged(row.(failures := 0), io))
  }

  /** Whether the turn gets as far as creating the namespace. */
  predicate MakesNamespace(s: Slot, row: Row, io: Io) {
    && row.config.Encoded? && !row.desired.Deleting? && !io.fault(NamespaceCreate).Dropped?
    && (HardResetDue(row) ==>
          var d := DeleteAll(s, false, io);
          d.ok && Poll(d.slot, io, RECREATE_POLL_INTERVAL, 0, 0).absent)
  }

  function Seen(reg: Registry.Servers, n: Name): Option<int32> {
    if n in reg then Some(reg[n].deployment.replicas) else None
  }

  /** The configuration carries the name its row has. */
  predicate WellNamed(rec: Record) {
    rec.row.config.Encoded? ==> rec.row.config.cfg.core.serverName == rec.name
  }

  function PortOf(row: Row): int32 {
    if row.config.Encoded? then row.config.cfg.core.serverPort else 0
  }

  predicate RowIs(rows: map<Name, Row>, n: Name, r: Option<Row>) {
    match r
    case None => n !in rows
    case Some(row) => n in rows && rows[n] == row
  }

  lemma ScaleIsLocal(c: Objects, n: Name, want: int32, reg: Registry.Servers, io: Io)
    ensures var (c', ok) := EnsureReplicas(c, n, want, reg, io);
            var d := Scale(c.At(n), want, Seen(reg, n), io);
            && c'.At(n) == d.slot && ok == d.ok && c'.namespace == c.namespace
            && forall m | m != n :: c'.At(m) == c.At(m)
  {
  }

  lemma CreateIsLocal(c: Objects, n: Name, cfg: ValheimConfig, io: Io)
    ensures var (c', ok) := CreateAllIn(c, n, cfg, io);
            var d := CreateAll(c.At(n), cfg, c.PortFree(n, cfg.core.serverPort), io);
            && c'.At(n) == d.slot && ok == d.ok && c'.namespace == (c.namespace || !io.fault(NamespaceCreate).Dropped?)
            && forall m | m != n :: c'.At(m) == c.At(m)
  {
    assert c.(namespace := true).PortFree(n, cfg.core.serverPort) == c.PortFree(n, cfg.core.serverPort);
  }

  lemma RecreateIsLocal(c: Objects, n: Name, cfg: ValheimConfig, io: Io)
    ensures var (c', ok) := RecreateAllIn(c, n, cfg, io, RECREATE_POLL_INTERVAL);
            var d := RecreateAll(c.At(n), cfg, c.PortFree(n, cfg.core.serverPort), io, RECREATE_POLL_INTERVAL);
            && c'.At(n) == d.slot && ok == d.ok
            && c'.namespace == (c.namespace
                 || (!io.fault(NamespaceCreate).Dropped? && DeleteAll(c.At(n), false, io).ok
                     && Poll(DeleteAll(c.At(n), false, io).slot, io, RECREATE_POLL_INTERVAL, 0, 0).absent))
            && forall m | m != n :: c'.At(m) == c.At(m)
  {
    var d := DeleteAll(c.At(n), false, io);
    var c1 := c.Put(n, d.slot);
    if d.ok {
      var p := Poll(d.slot, io, RECREATE_POLL_INTERVAL, 0, 0);
      var c2 := c1.Put(n, p.slot);
      PortFreeKept(c, n, d.slot, cfg.core.serverPort);
      PortFreeKept(c1, n, p.slot, cfg.core.serverPort);
      CreateIsLocal(c2, n, cfg, io);
    }
  }

  lemma SoftIsLocal(c: Objects, rec: Record, cfg: ValheimConfig, reg: Registry.Servers, io: Io)
    requires cfg.core.serverName == rec.name && !HardResetDue(rec.row)
    ensures var (c', ok) := StateObjects(c, rec, cfg, reg, io);
            var d := ServeSlot(c.At(rec.name), rec.row, cfg, Seen(reg, rec.name),
                c.PortFree(rec.name, cfg.core.serverPort), io);
            && c'.At(rec.name) == d.slot && ok == d.ok
                && c'.namespace == (c.namespace || !io.fault(NamespaceCreate).Dropped?)
            && forall m | m != rec.name :: c'.At(m) == c.At(m)
  {
    var n, want := rec.name, TargetReplicas(rec.row.desired);
    CreateIsLocal(c, n, cfg, io);
    var (c1, ok) := CreateAllIn(c, n, cfg, io);
    if ok && !Read(c1.At(n).deployment.Some?, io.fault(HashGet)).Refused? {
      var (c2, ok2) := if Marked(c1.At(n), cfg) then (c1, true) else ApplyConfigIn(c1, n, cfg, HashCfg(cfg), io);
      assert forall m | m != n :: c2.At(m) == c.At(m);
      ScaleIsLocal(c2, n, want, reg, io);
    }
  }

  lemma HardIsLocal(c: Objects, rec: Record, cfg: ValheimConfig, reg: Registry.Servers, io: Io)
    requires cfg.core.serverName == rec.name && HardResetDue(rec.row)
    requires rec.row.config == Encoded(cfg) && !rec.row.desired.Deleting?
    ensures var (c', ok) := StateObjects(c, rec, cfg, reg, io);
            var d := ServeSlot(c.At(rec.name), rec.row, cfg, Seen(reg, rec.name),
                c.PortFree(rec.name, cfg.core.serverPort), io);
            && c'.At(rec.name) == d.slot && ok == d.ok
                && c'.namespace == (c.namespace || MakesNamespace(c.At(rec.name), rec.row, io))
            && forall m | m != rec.name :: c'.At(m) == c.At(m)
  {
    RecreateIsLocal(c, rec.name, cfg, io);
    var (c1, ok) := RecreateAllIn(c, rec.name, cfg, io, RECREATE_POLL_INTERVAL);
    if ok {
      ScaleIsLocal(c1, rec.name, TargetReplicas(rec.row.desired), reg, io);
    }
  }

  lemma ObjectsAreLocal(c: Objects, rec: Record, reg: Registry.Servers, io: Io)
    requires WellNamed(rec)
    ensures var n := rec.name;
            var (c', ok) := ConvergeObjects(c, rec, reg, io);
            var d := ConvergeSlot(c.At(n), rec.row, Seen(reg, n), c.PortFree(n, PortOf(rec.row)), io);
            && c'.At(n) == d.slot && ok == d.ok
            && c'.namespace == (c.namespace || MakesNamespace(c.At(n), rec.row, io))
            && forall m | m != n :: c'.At(m) == c.At(m)
  {
    if rec.row.config.Encoded? && !rec.row.desired.Deleting? {
      if HardResetDue(rec.row) {
        HardIsLocal(c, rec, rec.row.config.cfg, reg, io);
      } else {
        SoftIsLocal(c, rec, rec.row.config.cfg, reg, io);
      }
    }
  }

  /** The table half of a turn, given how the object calls ended. */
  function SettleTurn(t: Tables, rec: Record, ok: bool, io: Io): Tables {
    if !ok then IncrementFailure(t, rec.name, io.fault(FailureIncrement)).0
    else
      var (t', r) := SettleRow(t, rec, io);
      if r.Ok? then t' else IncrementFailure(t', rec.name, io.fault(FailureIncrement)).0
  }

  lemma TurnSettles(sys: Sys, rec: Record, reg: Registry.Servers, io: Io, c: Objects, ok: bool)
    requires ConvergeObjects(sys.cluster, rec, reg, io) == (c, ok)
    ensures PassRow(sys, rec, reg, io) == Sys(SettleTurn(sys.tables, rec, ok, io), c)
  {
  }

  lemma SettleIsLocal(t: Tables, rec: Record, ok: bool, io: Io)
    requires rec.name in t.rows && t.rows[rec.name] == rec.row
    ensures var t' := SettleTurn(t, rec, ok, io);
            && RowIs(t'.rows, rec.name, ConvergedRow(rec.row, ok, io))
            && (forall m | m != rec.name ::
                (m in t'.rows <==> m in t.rows) && (m in t.rows ==> t'.rows[m] == t.rows[m]))
            && t'.users == t.users && t'.rootUser == t.rootUser
  {
    IncrementIsLocal(t, rec.name, io.fault(FailureIncrement));
    if ok {
      var (t1, r) := SettleRow(t, rec, io);
      if rec.row.desired.Deleting? {
        assert t1.rows == if io.fault(RowDelete).Dropped? then t.rows else t.rows - {rec.name};
      } else {
        assert t1.rows == if io.fault(FailuresReset).Dropped? then t.rows
            else t.rows[rec.name := rec.row.(failures := 0)];
      }
      IncrementIsLocal(t1, rec.name, io.fault(FailureIncrement));
    }
  }

  lemma IncrementIsLocal(t: Tables, n: Name, f: Fault)
    ensures var t' := IncrementFailure(t, n, f).0;
            t' == if n !in t.rows || f.Dropped? then t
                else t.(rows := t.rows[n := t.rows[n].(failures := t.rows[n].failures + 1)])
  {
  }

  /** A well-named row's turn reads and writes only its own row, its own objects and the namespace. */
  lemma PassRowIsLocal(sys: Sys, rec: Record, reg: Registry.Servers, io: Io)
    requires WellNamed(rec) && rec.name in sys.tables.rows && sys.tables.rows[rec.name] == rec.row
    ensures var n, r := rec.name, PassRow(sys, rec, reg, io);
            var s := sys.cluster.At(n);
            var d := ConvergeSlot(s, rec.row, Seen(reg, n), sys.cluster.PortFree(n, PortOf(rec.row)), io);
            && r.cluster.At(n) == d.slot
            && (forall m | m != n :: r.cluster.At(m) == sys.cluster.At(m))
            && r.cluster.namespace == (sys.cluster.namespace || MakesNamespace(s, rec.row, io))
            && RowIs(r.tables.rows, n, ConvergedRow(rec.row, d.ok, io))
            && (forall m | m != n :: (m in r.tables.rows <==> m in sys.tables.rows)
                                     && (m in sys.tables.rows ==> r.tables.rows[m] == sys.tables.rows[m]))
            && r.tables.users == sys.tables.users && r.tables.rootUser == sys.tables.rootUser
  {
    var (c, ok) := ConvergeObjects(sys.cluster, rec, reg, io);
    ObjectsAreLocal(sys.cluster, rec, reg, io);
    TurnSettles(sys, rec, reg, io, c, ok);
    SettleIsLocal(sys.tables, rec, ok, io);
  }

  // All rows of a pass.

  /** The row asks for a Service, on node ports that exist. */
  predicate Serves(row: Row) {
    row.config.Encoded? && !row.desired.Deleting? && NodePortPair(PortOf(row))
  }

  /** Every listed row that asks for a Service can have its ports: no other such row and no other
      server's Service uses one of them. */
  ghost predicate PortsSpread(c: Objects, todo: seq<Record>) {
    && (forall i, m | 0 <= i < |todo| && Serves(todo[i].row) && m != todo[i].name ::
          c.At(m).service.Some? ==> Apart(PortOf(todo[i].row), c.At(m).service.value))
    && (forall i, j | 0 <= i < |todo| && 0 <= j < |todo| && i != j && Serves(todo[i].row) && Serves(todo[j].row) ::
          Apart(PortOf(todo[i].row), PortOf(todo[j].row)))
  }

  /** What a pass may rely on about its listed rows. */
  ghost predicate Orderly(sys: Sys, todo: seq<Record>) {
    && (forall i | 0 <= i < |todo| ::
        WellNamed(todo[i]) && todo[i].name in sys.tables.rows && sys.tables.rows[todo[i].name] == todo[i].row)
    && (forall i, j | 0 <= i < j < |todo| :: todo[i].name != todo[j].name)
    && PortsSpread(sys.cluster, todo)
  }

  /** One server's objects and row after a pass in which its ports are its own. */
  function SlotAfter(sys: Sys, rec: Record, reg: Registry.Servers, io: Weather): Did {
    ConvergeSlot(sys.cluster.At(rec.name), rec.row, Seen(reg, rec.name), NodePortPair(PortOf(rec.row)), io(rec.name))
  }

  function RowAfter(sys: Sys, rec: Record, reg: Registry.Servers, io: Weather): Option<Row> {
    ConvergedRow(rec.row, SlotAfter(sys, rec, reg, io).ok, io(rec.name))
  }

  lemma ScaleKeepsRest(s: Slot, want: int32, seen: Option<int32>, io: Io)
    ensures var s' := Scale(s, want, seen, io).slot;
            && s'.(deployment := None) == s.(deployment := None)
            && (s'.deployment == s.deployment
                || (s.deployment.Some? && s'.deployment == Some(s.deployment.value.(replicas := want))))
  {
  }

  lemma ServiceAfterRecreate(s: Slot, cfg: ValheimConfig, free: bool, io: Io)
    ensures var s' := RecreateAll(s, cfg, free, io, RECREATE_POLL_INTERVAL).slot;
            s'.service.Some? ==> s'.service == s.service || (free && s'.service == Some(cfg.core.serverPort))
  {
    var d := DeleteAll(s, false, io);
    DeleteAllServices(s, false, io);
    if d.ok {
      PollObserves(d.slot, io, RECREATE_POLL_INTERVAL, 0, 0);
      CreateAllAdds(Poll(d.slot, io, RECREATE_POLL_INTERVAL, 0, 0).slot, cfg, free, io);
    }
  }

  lemma ServiceAfterSoft(s: Slot, cfg: ValheimConfig, free: bool, io: Io)
    ensures var s' := SoftApply(s, cfg, free, io).slot;
            s'.service == s.service || (free && s'.service == Some(cfg.core.serverPort))
  {
    CreateAllAdds(s, cfg, free, io);
    ApplyKeepsRest(CreateAll(s, cfg, free, io).slot, cfg, HashCfg(cfg), io);
  }

  /** A turn leaves a server's Service alone, removes it, or gives it the ports its row asks for. */
  lemma ServiceAfterConverge(s: Slot, row: Row, seen: Option<int32>, free: bool, io: Io)
    requires free ==> NodePortPair(PortOf(row))
    ensures var s' := ConvergeSlot(s, row, seen, free, io).slot;
            s'.service.Some? ==> s'.service == s.service || (Serves(row) && s'.service == Some(PortOf(row)))
  {
    if row.config.Encoded? {
      if row.desired.Deleting? {
        DeleteAllServices(s, row.purge, io);
      } else {
        ServiceAfterState(s, row, row.config.cfg, seen, free, io);
      }
    }
  }

  lemma ServiceAfterState(s: Slot, row: Row, cfg: ValheimConfig, seen: Option<int32>, free: bool, io: Io)
    requires row.config == Encoded(cfg) && !row.desired.Deleting?
    ensures var s' := ConvergeSlot(s, row, seen, free, io).slot;
            s'.service.Some? ==> s'.service == s.service || (free && s'.service == Some(cfg.core.serverPort))
  {
    ServiceAfterRecreate(s, cfg, free, io);
    ServiceAfterSoft(s, cfg, free, io);
    var d := if HardResetDue(row) then RecreateAll(s, cfg, free, io, RECREATE_POLL_INTERVAL)
        else SoftApply(s, cfg, free, io);
    ScaleKeepsRest(d.slot, TargetReplicas(row.desired), seen, io);
  }

  lemma DeleteAllServices(s: Slot, purge: bool, io: Io)
    ensures DeleteAll(s, purge, io).slot.service.Some? ==> DeleteAll(s, purge, io).slot.service == s.service
  {
  }

  lemma OrderlyAfterRow(sys: Sys, todo: seq<Record>, reg: Registry.Servers, io: Weather)
    requires todo != [] && Orderly(sys, todo)
    ensures var r := PassRow(sys, todo[0], reg, io(todo[0].name));
            Orderly(r, todo[1..])
  {
    var rec := todo[0];
    var r := PassRow(sys, rec, reg, io(rec.name));
    PassRowIsLocal(sys, rec, reg, io(rec.name));
    ServiceAfterConverge(sys.cluster.At(rec.name), rec.row, Seen(reg, rec.name),
        sys.cluster.PortFree(rec.name, PortOf(rec.row)), io(rec.name));
    assert forall i | 0 <= i < |todo[1..]| :: todo[1..][i] == todo[i + 1];
    forall i, m | 0 <= i < |todo[1..]| && Serves(todo[1..][i].row) && m != todo[1..][i].name
      ensures r.cluster.At(m).service.Some? ==> Apart(PortOf(todo[1..][i].row), r.cluster.At(m).service.value)
    {
      assert Serves(todo[i + 1].row) && m != todo[i + 1].name;
    }
  }

  lemma PortFreeIfSpread(sys: Sys, todo: seq<Record>)
    requires todo != [] && Orderly(sys, todo) && Serves(todo[0].row)
    ensures sys.cluster.PortFree(todo[0].name, PortOf(todo[0].row)) == NodePortPair(PortOf(todo[0].row))
  {
    forall m | m in sys.cluster.slots && m != todo[0].name
      ensures sys.cluster.slots[m].service.Some? ==> Apart(PortOf(todo[0].row), sys.cluster.slots[m].service.value)
    {
      assert sys.cluster.At(m) == sys.cluster.slots[m];
    }
  }

  ghost predicate AnyMakesNamespace(sys: Sys, todo: seq<Record>, io: Weather) {
    exists rec | rec in todo :: MakesNamespace(sys.cluster.At(rec.name), rec.row, io(rec.name))
  }

  /** The row loop, server by server. */
  lemma {:induction false} PassRowsPointwise(sys: Sys, todo: seq<Record>, reg: Registry.Servers, io: Weather)
    requires Orderly(sys, todo)
    ensures var r := PassRows(sys, todo, reg, io);
            && (forall i | 0 <= i < |todo| ::
                  && r.cluster.At(todo[i].name) == SlotAfter(sys, todo[i], reg, io).slot
                  && RowIs(r.tables.rows, todo[i].name, RowAfter(sys, todo[i], reg, io)))
            && (forall m | m !in RecordNames(todo) ::
                  && r.cluster.At(m) == sys.cluster.At(m)
                  && (m in r.tables.rows <==> m in sys.tables.rows)
                  && (m in sys.tables.rows ==> r.tables.rows[m] == sys.tables.rows[m]))
            && r.tables.users == sys.tables.users && r.tables.rootUser == sys.tables.rootUser
            && (r.cluster.namespace <==> (sys.cluster.namespace || AnyMakesNamespace(sys, todo, io)))
    decreases |todo|
  {
    if todo != [] {
      var rec, rest := todo[0], todo[1..];
      var s1 := PassRow(sys, rec, reg, io(rec.name));
      PassRowIsLocal(sys, rec, reg, io(rec.name));
      if Serves(rec.row) {
        PortFreeIfSpread(sys, todo);
      }
      OrderlyAfterRow(sys, todo, reg, io);
      PassRowsPointwise(s1, rest, reg, io);
      var r := PassRows(s1, rest, reg, io);
      assert r == PassRows(sys, todo, reg, io);
      forall i | 0 <= i < |todo|
        ensures r.cluster.At(todo[i].name) == SlotAfter(sys, todo[i], reg, io).slot
        ensures RowIs(r.tables.rows, todo[i].name, RowAfter(sys, todo[i], reg, io))
      {
        if i == 0 {
          assert rec.name !in RecordNames(rest);
        } else {
          assert todo[i] == rest[i - 1] && todo[i].name != rec.name;
        }
      }
      forall m | m !in RecordNames(todo) ensures m !in RecordNames(rest) && m != rec.name {
        assert rec in todo;
      }
      NamespaceAfterRows(sys, s1, todo, io);
    }
  }

  lemma NamespaceAfterRows(sys: Sys, s1: Sys, todo: seq<Record>, io: Weather)
    requires todo != [] && forall i, j | 0 <= i < j < |todo| :: todo[i].name != todo[j].name
    requires forall m | m != todo[0].name :: s1.cluster.At(m) == sys.cluster.At(m)
    ensures AnyMakesNamespace(sys, todo, io)
       <==> (MakesNamespace(sys.cluster.At(todo[0].name), todo[0].row, io(todo[0].name))
           || AnyMakesNamespace(s1, todo[1..], io))
  {
    assert todo == [todo[0]] + todo[1..];
    forall rec | rec in todo[1..] ensures s1.cluster.At(rec.name) == sys.cluster.At(rec.name) {
      var i :| 0 <= i < |todo[1..]| && todo[1..][i] == rec;
      assert todo[i + 1] == rec;
    }
  }

  // The drift pass.

  function RowView(t: Tables, n: Name): Option<Row> {
    if n in t.rows then Some(t.rows[n]) else None
  }

  function CountView(drift: DriftCounts, n: Name): Option<nat> {
    if n in drift then Some(drift[n]) else None
  }

  /** One drift turn sees and changes only its own row and count. */
  lemma DriftEntryIsLocal(t: Tables, drift: DriftCounts, t2: Tables, drift2: DriftCounts, n: Name, rowNames: set<Name>,
      f: Fault)
    requires RowView(t, n) == RowView(t2, n) && CountView(drift, n) == CountView(drift2, n)
    requires t.users == t2.users && t.rootUser == t2.rootUser
    ensures var (a, b) := DriftEntry(t, drift, n, rowNames, f);
            var (a2, b2) := DriftEntry(t2, drift2, n, rowNames, f);
            && RowView(a, n) == RowView(a2, n) && CountView(b, n) == CountView(b2, n)
            && a.users == t.users && a.rootUser == t.rootUser
            && (forall m | m != n :: RowView(a, m) == RowView(t, m) && CountView(b, m) == CountView(drift, m))
  {
  }

  lemma {:induction false} DriftPassPointwise(t: Tables, drift: DriftCounts, names: seq<Name>, rowNames: set<Name>,
      io: Weather)
    requires forall i, j | 0 <= i < j < |names| :: names[i] != names[j]
    ensures var (a, b) := DriftPass(t, drift, names, rowNames, io);
            && (forall n | n in names ::
                  var (x, y) := DriftEntry(t, drift, n, rowNames, io(n).fault(TombstoneInsert));
                  RowView(a, n) == RowView(x, n) && CountView(b, n) == CountView(y, n))
            && (forall n | n !in names :: RowView(a, n) == RowView(t, n) && CountView(b, n) == CountView(drift, n))
            && a.users == t.users && a.rootUser == t.rootUser
    decreases |names|
  {
    if names != [] {
      var h, rest := names[0], names[1..];
      var (t1, d1) := DriftEntry(t, drift, h, rowNames, io(h).fault(TombstoneInsert));
      DriftEntryIsLocal(t, drift, t, drift, h, rowNames, io(h).fault(TombstoneInsert));
      DriftPassPointwise(t1, d1, rest, rowNames, io);
      assert names == [h] + rest && h !in rest;
      forall n | n in rest
        ensures RowView(DriftEntry(t1, d1, n, rowNames, io(n).fault(TombstoneInsert)).0, n)
             == RowView(DriftEntry(t, drift, n, rowNames, io(n).fault(TombstoneInsert)).0, n)
        ensures CountView(DriftEntry(t1, d1, n, rowNames, io(n).fault(TombstoneInsert)).1, n)
             == CountView(DriftEntry(t, drift, n, rowNames, io(n).fault(TombstoneInsert)).1, n)
      {
        DriftEntryIsLocal(t1, d1, t, drift, n, rowNames, io(n).fault(TombstoneInsert));
      }
    }
  }
}
