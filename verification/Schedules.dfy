/** Runs of passes: the hard-reset schedule of a failing row, and the clean-up of an orphan. */
module Schedules {
  import opened Types
  import opened Cluster
  import opened Store
  import opened Converge
  import opened SlotProofs
  import opened PassProofs
  import opened PassTheorems
  import opened Convergence
  import Registry

  function RunPasses(p: PassEnd, inputs: seq<PassInput>): PassEnd
    decreases |inputs|
  {
    if inputs == [] then p else RunPasses(RunPass(p, inputs[0]), inputs[1..])
  }

  // Rows belong to their own turns.

  lemma SettleFrame(t: Tables, rec: Record, ok: bool, io: Io, n: Name)
    ensures var t' := SettleTurn(t, rec, ok, io);
            && (n != rec.name ==> RowView(t', n) == RowView(t, n))
            && (n in t'.rows ==>
                n in t.rows && t'.rows[n].config == t.rows[n].config && t'.rows[n].desired == t.rows[n].desired)
            && t'.users == t.users && t'.rootUser == t.rootUser
  {
    IncrementIsLocal(t, rec.name, io.fault(FailureIncrement));
    if ok {
      var (t1, r) := SettleRow(t, rec, io);
      assert t1 == t || t1 == t.(rows := t.rows - {rec.name})
          || (rec.name in t.rows && t1 == t.(rows := t.rows[rec.name := t.rows[rec.name].(failures := 0)]));
      IncrementIsLocal(t1, rec.name, io.fault(FailureIncrement));
    }
  }

  /** A turn changes no other server's row, whatever it does and however it ends: a failing row never
      moves another row's counter. */
  lemma TurnKeepsOtherRows(sys: Sys, rec: Record, reg: Registry.Servers, io: Io, n: Name)
    ensures var r := PassRow(sys, rec, reg, io);
            && (n != rec.name ==> RowView(r.tables, n) == RowView(sys.tables, n))
            && (n in r.tables.rows ==> n in sys.tables.rows && r.tables.rows[n].config == sys.tables.rows[n].config
                                       && r.tables.rows[n].desired == sys.tables.rows[n].desired)
            && r.tables.users == sys.tables.users && r.tables.rootUser == sys.tables.rootUser
  {
    var (c, ok) := ConvergeObjects(sys.cluster, rec, reg, io);
    TurnSettles(sys, rec, reg, io, c, ok);
    SettleFrame(sys.tables, rec, ok, io, n);
  }

  lemma {:induction false} RowsKeepConfigs(sys: Sys, todo: seq<Record>, reg: Registry.Servers, io: Weather, n: Name)
    ensures var r := PassRows(sys, todo, reg, io);
            && (n !in RecordNames(todo) ==> RowView(r.tables, n) == RowView(sys.tables, n))
            && (n in r.tables.rows ==> n in sys.tables.rows && r.tables.rows[n].config == sys.tables.rows[n].config
                                       && r.tables.rows[n].desired == sys.tables.rows[n].desired)
            && r.tables.users == sys.tables.users && r.tables.rootUser == sys.tables.rootUser
    decreases |todo|
  {
    if todo != [] {
      var s1 := PassRow(sys, todo[0], reg, io(todo[0].name));
      TurnKeepsOtherRows(sys, todo[0], reg, io(todo[0].name), n);
      RowsKeepConfigs(s1, todo[1..], reg, io, n);
      assert todo[0] in todo;
    }
  }

  // The hard-reset schedule.

  /** Whether row n's turn succeeds. */
  function TurnOk(sys: Sys, todo: seq<Record>, reg: Registry.Servers, io: Weather, n: Name): bool
    decreases |todo|
  {
    if todo == [] then true
    else if todo[0].name == n then ConvergeRow(sys, todo[0], reg, io(n)).1
    else TurnOk(PassRow(sys, todo[0], reg, io(todo[0].name)), todo[1..], reg, io, n)
  }

  /** Row n is served in this pass, fails, and the failure is counted. A reset of the counter that is
      reported as failed did not happen. */
  ghost predicate FailsAndCounts(p: PassEnd, a: PassInput, n: Name) {
    && Fits(p, a) && Wanted(p.sys.tables.rows, n)
    && !TurnOk(p.sys, a.records, a.reg, a.io, n)
    && a.io(n).fault(FailureIncrement).Clean? && !a.io(n).fault(FailuresReset).Lost?
  }

  /** ps are the states before, between and after the passes. */
  ghost predicate IsTrace(ps: seq<PassEnd>, inputs: seq<PassInput>) {
    |ps| == |inputs| + 1 && forall i | 0 <= i < |inputs| :: ps[i + 1] == RunPass(ps[i], inputs[i])
  }

  /** Row n fails in every pass. */
  ghost predicate KeepsFailing(ps: seq<PassEnd>, inputs: seq<PassInput>, n: Name) {
    IsTrace(ps, inputs) && forall i | 0 <= i < |inputs| :: FailsAndCounts(ps[i], inputs[i], n)
  }

  /** How many of the first m passes attempt a hard reset of row n: those that find one due. */
  function HardResets(ps: seq<PassEnd>, n: Name, m: nat): nat
    requires m <= |ps|
  {
    if m == 0 then 0
    else
      var rows := ps[m - 1].sys.tables.rows;
      HardResets(ps, n, m - 1) + if n in rows && HardResetDue(rows[n]) then 1 else 0
  }

  lemma FailedTurnCounts(sys: Sys, rec: Record, reg: Registry.Servers, io: Io)
    requires RowIs(sys.tables.rows, rec.name, Some(rec.row)) && !rec.row.desired.Deleting?
    requires !ConvergeRow(sys, rec, reg, io).1 && io.fault(FailureIncrement).Clean? && !io.fault(FailuresReset).Lost?
    ensures RowIs(PassRow(sys, rec, reg, io).tables.rows, rec.name, Some(rec.row.(failures := rec.row.failures + 1)))
  {
    var (c, ok) := ConvergeObjects(sys.cluster, rec, reg, io);
    TurnSettles(sys, rec, reg, io, c, ok);
    SettleIsLocal(sys.tables, rec, ok, io);
  }

  lemma {:induction false} FailedRowCounts(sys: Sys, todo: seq<Record>, reg: Registry.Servers, io: Weather, n: Name,
      row: Row, i: nat)
    requires i < |todo| && todo[i] == Record(n, row)
    requires forall j, k | 0 <= j < k < |todo| :: todo[j].name != todo[k].name
    requires RowIs(sys.tables.rows, n, Some(row)) && !row.desired.Deleting? && !TurnOk(sys, todo, reg, io, n)
    requires io(n).fault(FailureIncrement).Clean? && !io(n).fault(FailuresReset).Lost?
    ensures RowIs(PassRows(sys, todo, reg, io).tables.rows, n, Some(row.(failures := row.failures + 1)))
    decreases |todo|
  {
    var s1 := PassRow(sys, todo[0], reg, io(todo[0].name));
    if i == 0 {
      FailedTurnCounts(sys, todo[0], reg, io(n));
      assert n !in RecordNames(todo[1..]);
      RowsKeepConfigs(s1, todo[1..], reg, io, n);
      assert RowView(PassRows(s1, todo[1..], reg, io).tables, n) == RowView(s1.tables, n);
    } else {
      assert todo[0].name != n;
      TurnKeepsOtherRows(sys, todo[0], reg, io(todo[0].name), n);
      assert RowView(s1.tables, n) == RowView(sys.tables, n);
      assert todo[1..][i - 1] == todo[i];
      FailedRowCounts(s1, todo[1..], reg, io, n, row, i - 1);
    }
  }

  lemma FailedPassCounts(p: PassEnd, a: PassInput, n: Name)
    requires FailsAndCounts(p, a, n)
    ensures var row := p.sys.tables.rows[n];
            RowIs(RunPass(p, a).sys.tables.rows, n, Some(row.(failures := row.failures + 1)))
  {
    var row := p.sys.tables.rows[n];
    ListingNames(a.records, p.sys.tables.rows);
    var i :| 0 <= i < |a.records| && a.records[i] == Record(n, row);
    FailedRowCounts(p.sys, a.records, a.reg, a.io, n, row, i);
    var mid := PassRows(p.sys, a.records, a.reg, a.io);
    DriftPassAt(mid.tables, p.drift, a.names, RecordNames(a.records), a.io, n);
    ListedKey(a.names, a.reg.Keys, n);
    assert RowView(RunPass(p, a).sys.tables, n) == RowView(mid.tables, n);
  }

  predicate CounterIs(p: PassEnd, n: Name, c: nat) {
    n in p.sys.tables.rows && p.sys.tables.rows[n].failures == c
  }

  lemma FailureAdds(p: PassEnd, a: PassInput, n: Name, c: nat, q: PassEnd)
    requires FailsAndCounts(p, a, n) && CounterIs(p, n, c) && q == RunPass(p, a)
    ensures CounterIs(q, n, c + 1)
  {
    FailedPassCounts(p, a, n);
  }

  lemma {:induction false} CountersGoUp(ps: seq<PassEnd>, inputs: seq<PassInput>, n: Name, i: nat)
    requires KeepsFailing(ps, inputs, n) && CounterIs(ps[0], n, 0) && i <= |inputs|
    ensures CounterIs(ps[i], n, i)
  {
    if i > 0 {
      CountersGoUp(ps, inputs, n, i - 1);
      FailureAdds(ps[i - 1], inputs[i - 1], n, i - 1, ps[i]);
    }
  }

  lemma {:induction false} ResetsAmong(ps: seq<PassEnd>, n: Name, m: nat)
    requires m <= |ps| && forall i | 0 <= i < m :: CounterIs(ps[i], n, i)
    ensures HardResets(ps, n, m) == if m == 0 then 0 else (m - 1) / 5
  {
    if m > 0 {
      ResetsAmong(ps, n, m - 1);
      assert CounterIs(ps[m - 1], n, m - 1);
    }
  }

  /** A row that keeps failing from counter 0 gets one hard reset every five failures: the first m
      passes attempt exactly (m - 1) / 5 of them, and its counter is then m. */
  lemma SelfRepairSchedule(ps: seq<PassEnd>, inputs: seq<PassInput>, n: Name, m: nat)
    requires KeepsFailing(ps, inputs, n) && CounterIs(ps[0], n, 0) && 0 < m <= |inputs|
    ensures HardResets(ps, n, m) == (m - 1) / 5 && CounterIs(ps[m], n, m)
  {
    forall i | 0 <= i <= m ensures CounterIs(ps[i], n, i) {
      CountersGoUp(ps, inputs, n, i);
    }
    ResetsAmong(ps, n, m);
  }

  /** One calm pass takes the counter back to 0 from any value. */
  lemma CalmPassResetsCounter(p: PassEnd, a: PassInput, n: Name)
    requires Tidy(p.sys) && Fits(p, a) && Calm(a.io(n)) && Wanted(p.sys.tables.rows, n)
    requires Ready(p.sys.cluster.At(n), p.sys.tables.rows[n], p.sys.tables.rows[n].config.cfg, a.io(n))
    ensures RowIs(RunPass(p, a).sys.tables.rows, n, Some(p.sys.tables.rows[n].(failures := 0)))
  {
    FirstPassAt(p, a, RunPass(p, a), n);
  }

  // Orphans.

  lemma {:induction false} RowsKeepOtherObjects(sys: Sys, todo: seq<Record>, reg: Registry.Servers, io: Weather,
      n: Name)
    requires forall i | 0 <= i < |todo| :: WellNamed(todo[i]) && todo[i].name != n
    ensures PassRows(sys, todo, reg, io).cluster.At(n) == sys.cluster.At(n)
    decreases |todo|
  {
    if todo != [] {
      TurnKeepsOtherObjects(sys, todo[0], reg, io(todo[0].name), n);
      RowsKeepOtherObjects(PassRow(sys, todo[0], reg, io(todo[0].name)), todo[1..], reg, io, n);
    }
  }

  lemma TurnKeepsOtherObjects(sys: Sys, rec: Record, reg: Registry.Servers, io: Io, n: Name)
    requires WellNamed(rec) && rec.name != n
    ensures PassRow(sys, rec, reg, io).cluster.At(n) == sys.cluster.At(n)
  {
    var (c, ok) := ConvergeObjects(sys.cluster, rec, reg, io);
    ObjectsAreLocal(sys.cluster, rec, reg, io);
    TurnSettles(sys, rec, reg, io, c, ok);
  }

  lemma CalmTeardown(sys: Sys, rec: Record, reg: Registry.Servers, io: Io)
    requires WellNamed(rec) && rec.row.config.Encoded? && rec.row.desired.Deleting?
    requires RowIs(sys.tables.rows, rec.name, Some(rec.row)) && Calm(io)
    ensures var r := PassRow(sys, rec, reg, io);
            rec.name !in r.tables.rows && TornDown(sys.cluster.At(rec.name), r.cluster.At(rec.name), rec.row.purge, io)
  {
    PassRowIsLocal(sys, rec, reg, io);
    DeleteAllClears(sys.cluster.At(rec.name), rec.row.purge, io);
    CalmRow(rec.row, io);
  }

  lemma {:induction false} RowsTearDown(sys: Sys, todo: seq<Record>, reg: Registry.Servers, io: Weather, n: Name,
      row: Row, i: nat)
    requires i < |todo| && todo[i] == Record(n, row)
    requires forall j, k | 0 <= j < k < |todo| :: todo[j].name != todo[k].name
    requires forall j | 0 <= j < |todo| :: WellNamed(todo[j])
    requires row.config.Encoded? && row.desired.Deleting? && RowIs(sys.tables.rows, n, Some(row)) && Calm(io(n))
    ensures var r := PassRows(sys, todo, reg, io);
            n !in r.tables.rows && TornDown(sys.cluster.At(n), r.cluster.At(n), row.purge, io(n))
    decreases |todo|
  {
    var s1 := PassRow(sys, todo[0], reg, io(todo[0].name));
    assert forall j | 0 <= j < |todo[1..]| :: todo[1..][j] == todo[j + 1];
    if i == 0 {
      CalmTeardown(sys, todo[0], reg, io(n));
      RowsKeepOtherObjects(s1, todo[1..], reg, io, n);
      assert n !in RecordNames(todo[1..]);
      RowsKeepConfigs(s1, todo[1..], reg, io, n);
    } else {
      assert todo[0].name != n;
      TurnKeepsOtherRows(sys, todo[0], reg, io(todo[0].name), n);
      assert RowView(s1.tables, n) == RowView(sys.tables, n);
      TurnKeepsOtherObjects(sys, todo[0], reg, io(todo[0].name), n);
      RowsTearDown(s1, todo[1..], reg, io, n, row, i - 1);
    }
  }

  /** A pass, calm for n, whose registry shows n. */
  ghost predicate OrphanPass(p: PassEnd, a: PassInput, n: Name) {
    Fits(p, a) && Calm(a.io(n)) && n in a.reg
  }

  ghost predicate OrphanPasses(p: PassEnd, inputs: seq<PassInput>, n: Name)
    decreases |inputs|
  {
    inputs == [] || (OrphanPass(p, inputs[0], n) && OrphanPasses(RunPass(p, inputs[0]), inputs[1..], n))
  }

  lemma WellNamedRecords(records: seq<Record>, rows: map<Name, Row>)
    requires IsListing(records, rows) && RowsWellNamed(rows)
    ensures forall j | 0 <= j < |records| :: WellNamed(records[j])
  {
    forall j | 0 <= j < |records| ensures WellNamed(records[j]) {
      assert WellNamed(Record(records[j].name, rows[records[j].name]));
    }
  }

  lemma PassKeepsWellNamed(p: PassEnd, a: PassInput)
    requires RowsWellNamed(p.sys.tables.rows) && Fits(p, a)
    ensures var t' := RunPass(p, a).sys.tables;
            RowsWellNamed(t'.rows) && t'.users == p.sys.tables.users && t'.rootUser == p.sys.tables.rootUser
  {
    var mid, q := PassRows(p.sys, a.records, a.reg, a.io), RunPass(p, a);
    RowsKeepConfigs(p.sys, a.records, a.reg, a.io, "");
    DriftAt(mid.tables, p.drift, a.names, a.reg, RecordNames(a.records), a.io, "");
    forall n | n in q.sys.tables.rows ensures WellNamed(Record(n, q.sys.tables.rows[n])) {
      RowsKeepConfigs(p.sys, a.records, a.reg, a.io, n);
      DriftAt(mid.tables, p.drift, a.names, a.reg, RecordNames(a.records), a.io, n);
      if RowView(q.sys.tables, n) == RowView(mid.tables, n) {
        assert WellNamed(Record(n, p.sys.tables.rows[n]));
      }
    }
  }

  /** A pass that finds the orphan without a row counts it, and at the third count gives it a tombstone. */
  lemma OrphanCounted(p: PassEnd, a: PassInput, n: Name)
    requires RowsWellNamed(p.sys.tables.rows) && OrphanPass(p, a, n) && n !in p.sys.tables.rows
    requires p.sys.tables.rootUser in p.sys.tables.users
    ensures var q, c := RunPass(p, a), Count(p.drift, n);
            && q.sys.cluster.At(n) == p.sys.cluster.At(n)
            && (if c + 1 < 3 then n !in q.sys.tables.rows && Count(q.drift, n) == c + 1
                else RowIs(q.sys.tables.rows, n, Some(Tombstone(p.sys.tables, n))))
  {
    ListingNames(a.records, p.sys.tables.rows);
    WellNamedRecords(a.records, p.sys.tables.rows);
    RowsKeepOtherObjects(p.sys, a.records, a.reg, a.io, n);
    RowsKeepConfigs(p.sys, a.records, a.reg, a.io, n);
    var mid := PassRows(p.sys, a.records, a.reg, a.io);
    DriftPassAt(mid.tables, p.drift, a.names, RecordNames(a.records), a.io, n);
    ListedKey(a.names, a.reg.Keys, n);
    var (x, y) := DriftEntry(mid.tables, p.drift, n, RecordNames(a.records), a.io(n).fault(TombstoneInsert));
    assert RowView(RunPass(p, a).sys.tables, n) == RowView(x, n)
        && CountView(RunPass(p, a).drift, n) == CountView(y, n);
  }

  function OrphanRow(owner: Name, n: Name): Row {
    Row(owner, Encoded(OrphanConfig(n)), Deleting, false, 0)
  }

  lemma TombstoneConsumed(p: PassEnd, a: PassInput, n: Name, owner: Name)
    requires RowsWellNamed(p.sys.tables.rows) && OrphanPass(p, a, n)
    requires RowIs(p.sys.tables.rows, n, Some(OrphanRow(owner, n)))
    ensures var q := RunPass(p, a);
            && n !in q.sys.tables.rows && Count(q.drift, n) == 0
            && TornDown(p.sys.cluster.At(n), q.sys.cluster.At(n), false, a.io(n))
  {
    ListingNames(a.records, p.sys.tables.rows);
    WellNamedRecords(a.records, p.sys.tables.rows);
    var i :| 0 <= i < |a.records| && a.records[i] == Record(n, p.sys.tables.rows[n]);
    RowsTearDown(p.sys, a.records, a.reg, a.io, n, p.sys.tables.rows[n], i);
    var mid := PassRows(p.sys, a.records, a.reg, a.io);
    DriftPassAt(mid.tables, p.drift, a.names, RecordNames(a.records), a.io, n);
    ListedKey(a.names, a.reg.Keys, n);
    assert RowView(RunPass(p, a).sys.tables, n) == RowView(mid.tables, n);
  }

  /** The passes an orphan needs, from its drift count. */
  function PassesToClean(c: nat): nat {
    if c < 2 then 4 - c else 2
  }

  /** From any drift count, an orphan that the registry shows is torn down within four passes that are
      calm for it, its volume kept, and its tombstone is gone again. */
  lemma {:induction false} OrphanCleanedUp(p: PassEnd, inputs: seq<PassInput>, n: Name)
    requires RowsWellNamed(p.sys.tables.rows) && p.sys.tables.rootUser in p.sys.tables.users && n !in p.sys.tables.rows
    requires |inputs| == PassesToClean(Count(p.drift, n)) && OrphanPasses(p, inputs, n)
    ensures |inputs| <= 4
    ensures var q := RunPasses(p, inputs);
            && n !in q.sys.tables.rows && Count(q.drift, n) == 0
            && TornDown(p.sys.cluster.At(n), q.sys.cluster.At(n), false, inputs[|inputs| - 1].io(n))
    decreases |inputs|
  {
    var one := RunPass(p, inputs[0]);
    OrphanCounted(p, inputs[0], n);
    PassKeepsWellNamed(p, inputs[0]);
    if Count(p.drift, n) < 2 {
      OrphanCleanedUp(one, inputs[1..], n);
    } else {
      TombstoneConsumed(one, inputs[1..][0], n, p.sys.tables.rootUser);
      assert inputs[1..][1..] == [];
      assert RunPasses(p, inputs) == RunPasses(one, inputs[1..]) == RunPass(one, inputs[1..][0]);
    }
  }

  /** Where n stands in the cycle of counting and tombstone: counted phase times, or with a tombstone. */
  ghost predicate InCycle(p: PassEnd, n: Name, phase: nat) {
    if phase < 3 then n !in p.sys.tables.rows && Count(p.drift, n) == phase
    else phase == 3 && n in p.sys.tables.rows && p.sys.tables.rows[n] == OrphanRow(p.sys.tables.rows[n].owner, n)
  }

  function Next(phase: nat): nat {
    if phase == 3 then 0 else phase + 1
  }

  lemma CycleTurns(p: PassEnd, a: PassInput, n: Name, phase: nat)
    requires RowsWellNamed(p.sys.tables.rows) && p.sys.tables.rootUser in p.sys.tables.users
    requires OrphanPass(p, a, n) && InCycle(p, n, phase)
    ensures InCycle(RunPass(p, a), n, Next(phase))
  {
    if phase < 3 {
      OrphanCounted(p, a, n);
    } else {
      TombstoneConsumed(p, a, n, p.sys.tables.rows[n].owner);
    }
  }

  /** Passes that are calm for n and whose registry always shows n. */
  ghost predicate OrphanTrace(ps: seq<PassEnd>, inputs: seq<PassInput>, n: Name) {
    IsTrace(ps, inputs) && forall i | 0 <= i < |inputs| :: OrphanPass(ps[i], inputs[i], n)
  }

  ghost predicate Cycling(p: PassEnd, n: Name, phase: nat) {
    RowsWellNamed(p.sys.tables.rows) && p.sys.tables.rootUser in p.sys.tables.users && InCycle(p, n, phase)
  }

  lemma CycleGoesOn(p: PassEnd, a: PassInput, q: PassEnd, n: Name, phase: nat)
    requires Cycling(p, n, phase) && OrphanPass(p, a, n) && q == RunPass(p, a)
    ensures Cycling(q, n, Next(phase))
  {
    CycleTurns(p, a, n, phase);
    PassKeepsWellNamed(p, a);
  }

  /** The phase i passes after phase c. */
  function Phase(c: nat, i: nat): nat {
    if i == 0 then c else Next(Phase(c, i - 1))
  }

  lemma {:induction false} PhaseIsModulo(c: nat, i: nat)
    requires c < 4
    ensures Phase(c, i) == (c + i) % 4
  {
    if i > 0 {
      PhaseIsModulo(c, i - 1);
    }
  }

  lemma {:induction false} CycleAt(ps: seq<PassEnd>, inputs: seq<PassInput>, n: Name, c: nat, i: nat)
    requires OrphanTrace(ps, inputs, n) && Cycling(ps[0], n, c) && i <= |inputs|
    ensures Cycling(ps[i], n, Phase(c, i))
  {
    if i > 0 {
      CycleAt(ps, inputs, n, c, i - 1);
      CycleGoesOn(ps[i - 1], inputs[i - 1], ps[i], n, Phase(c, i - 1));
    }
  }

  /** A registry entry that stays although nothing is behind it, as after a late Service event, is
      never done with: counting and tombstone go round with period 4 (PhaseIsModulo), and there is a
      tombstone exactly in the last phase. */
  lemma GhostEntryCycles(ps: seq<PassEnd>, inputs: seq<PassInput>, n: Name, i: nat)
    requires OrphanTrace(ps, inputs, n) && i <= |inputs|
    requires RowsWellNamed(ps[0].sys.tables.rows) && ps[0].sys.tables.rootUser in ps[0].sys.tables.users
    requires n !in ps[0].sys.tables.rows && Count(ps[0].drift, n) < 3
    ensures n in ps[i].sys.tables.rows <==> Phase(Count(ps[0].drift, n), i) == 3
  {
    CycleAt(ps, inputs, n, Count(ps[0].drift, n), i);
  }
}
