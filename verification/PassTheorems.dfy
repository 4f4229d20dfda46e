/** What whole passes achieve: independence of listing orders, convergence to a fixed point in two
    passes, the self-repair schedule, and the clean-up of orphans. */
module PassTheorems {
  import opened Types
  import opened Cluster
  import opened Store
  import opened Converge
  import opened SlotProofs
  import opened PassProofs
  import Registry

  // A whole pass, server by server.

  ghost predicate RowsWellNamed(rows: map<Name, Row>) {
    forall n | n in rows :: WellNamed(Record(n, rows[n]))
  }

  /** The ports of the rows that ask for a Service are in range apart, pairwise and from the other
      servers' Services. */
  ghost predicate RowsSpread(c: Objects, rows: map<Name, Row>) {
    && (forall n, m | n in rows && Serves(rows[n]) && m != n ::
          c.At(m).service.Some? ==> Apart(PortOf(rows[n]), c.At(m).service.value))
    && (forall n, m | n in rows && m in rows && n != m && Serves(rows[n]) && Serves(rows[m]) ::
          Apart(PortOf(rows[n]), PortOf(rows[m])))
  }

  ghost predicate Tidy(sys: Sys) {
    RowsWellNamed(sys.tables.rows) && RowsSpread(sys.cluster, sys.tables.rows)
  }

  lemma TidyIsOrderly(sys: Sys, records: seq<Record>)
    requires Tidy(sys) && IsListing(records, sys.tables.rows)
    ensures Orderly(sys, records)
  {
    forall i | 0 <= i < |records| ensures WellNamed(records[i]) {
      assert WellNamed(Record(records[i].name, sys.tables.rows[records[i].name]));
    }
    forall i, j | 0 <= i < |records| && 0 <= j < |records| && i != j && Serves(records[i].row) && Serves(records[j].row)
      ensures Apart(PortOf(records[i].row), PortOf(records[j].row))
    {
      assert records[i].name != records[j].name by {
        if i < j {
          assert records[i].name != records[j].name;
        } else {
          assert records[j].name != records[i].name;
        }
      }
      assert sys.tables.rows[records[i].name] == records[i].row && sys.tables.rows[records[j].name] == records[j].row;
    }
  }

  lemma ListingNames(records: seq<Record>, rows: map<Name, Row>)
    requires IsListing(records, rows)
    ensures RecordNames(records) == rows.Keys
    ensures forall n | n in rows :: exists i :: 0 <= i < |records| && records[i] == Record(n, rows[n])
  {
    forall n | n in rows
      ensures n in RecordNames(records) && exists i :: 0 <= i < |records| && records[i] == Record(n, rows[n])
    {
      assert Record(n, rows[n]) in records;
    }
  }

  function Tombstone(t: Tables, n: Name): Row {
    Row(t.rootUser, Encoded(OrphanConfig(n)), Deleting, false, 0)
  }

  /** After the row loop, for one listed server. */
  lemma RowsAt(sys: Sys, records: seq<Record>, reg: Registry.Servers, io: Weather, n: Name)
    requires Tidy(sys) && IsListing(records, sys.tables.rows) && n in sys.tables.rows
    ensures var r, rec := PassRows(sys, records, reg, io), Record(n, sys.tables.rows[n]);
            && r.cluster.At(n) == SlotAfter(sys, rec, reg, io).slot
            && RowIs(r.tables.rows, n, RowAfter(sys, rec, reg, io))
  {
    TidyIsOrderly(sys, records);
    ListingNames(records, sys.tables.rows);
    PassRowsPointwise(sys, records, reg, io);
    var i :| 0 <= i < |records| && records[i] == Record(n, sys.tables.rows[n]);
    assert RowIs(PassRows(sys, records, reg, io).tables.rows, records[i].name, RowAfter(sys, records[i], reg, io));
  }

  /** After the row loop, for everything else. */
  lemma RowsElsewhere(sys: Sys, records: seq<Record>, reg: Registry.Servers, io: Weather)
    requires Tidy(sys) && IsListing(records, sys.tables.rows)
    ensures var r := PassRows(sys, records, reg, io);
            && (forall n | n !in sys.tables.rows :: r.cluster.At(n) == sys.cluster.At(n) && n !in r.tables.rows)
            && r.tables.users == sys.tables.users && r.tables.rootUser == sys.tables.rootUser
            && (r.cluster.namespace <==> (sys.cluster.namespace || AnyMakesNamespace(sys, records, io)))
  {
    TidyIsOrderly(sys, records);
    ListingNames(records, sys.tables.rows);
    PassRowsPointwise(sys, records, reg, io);
  }

  /** The drift loop leaves the rows of listed servers alone and adds nothing but tombstones. */
  lemma DriftAt(t: Tables, drift: DriftCounts, names: seq<Name>, reg: Registry.Servers, rowNames: set<Name>,
      io: Weather, n: Name)
    requires Lists(names, reg.Keys)
    ensures var t' := DriftPass(t, drift, names, rowNames, io).0;
            && (n in rowNames ==> RowView(t', n) == RowView(t, n))
            && (RowView(t', n) == RowView(t, n)
                || (n in reg && RowView(t, n).None? && RowView(t', n) == Some(Tombstone(t, n))))
            && t'.users == t.users && t'.rootUser == t.rootUser
  {
    DriftPassPointwise(t, drift, names, rowNames, io);
    TombstonesOnly(t, drift, n, rowNames, io(n).fault(TombstoneInsert));
    ListedKey(names, reg.Keys, n);
  }

  /** A pass, for a server that had a row when the pass began. */
  lemma PassAt(sys: Sys, drift: DriftCounts, records: seq<Record>, names: seq<Name>, reg: Registry.Servers,
      io: Weather, n: Name)
    requires Tidy(sys) && IsListing(records, sys.tables.rows) && Lists(names, reg.Keys) && n in sys.tables.rows
    ensures var p, rec := Pass(sys, drift, records, names, reg, io), Record(n, sys.tables.rows[n]);
            && p.sys.cluster.At(n) == SlotAfter(sys, rec, reg, io).slot
            && RowIs(p.sys.tables.rows, n, RowAfter(sys, rec, reg, io))
  {
    RowsAt(sys, records, reg, io, n);
    ListingNames(records, sys.tables.rows);
    DriftAt(PassRows(sys, records, reg, io).tables, drift, names, reg, RecordNames(records), io, n);
  }

  /** A pass, for a server that had none. */
  lemma PassElsewhere(sys: Sys, drift: DriftCounts, records: seq<Record>, names: seq<Name>, reg: Registry.Servers,
      io: Weather, n: Name)
    requires Tidy(sys) && IsListing(records, sys.tables.rows) && Lists(names, reg.Keys) && n !in sys.tables.rows
    ensures var p := Pass(sys, drift, records, names, reg, io);
            && p.sys.cluster.At(n) == sys.cluster.At(n)
            && (n in p.sys.tables.rows ==> n in reg && p.sys.tables.rows[n] == Tombstone(sys.tables, n))
  {
    RowsElsewhere(sys, records, reg, io);
    DriftAt(PassRows(sys, records, reg, io).tables, drift, names, reg, RecordNames(records), io, n);
  }

  lemma TombstonesOnly(t: Tables, drift: DriftCounts, n: Name, rowNames: set<Name>, f: Fault)
    ensures var v := RowView(DriftEntry(t, drift, n, rowNames, f).0, n);
            v == RowView(t, n) || (RowView(t, n).None? && v == Some(Tombstone(t, n)))
  {
  }

  // Order independence.

  /** The tables come back in no particular order and so do the registry entries; with faults fixed
      per server and call, the order does not matter: same tables, same objects, same drift counts. */
  lemma PassOrderIndependent(sys: Sys, drift: DriftCounts, reg: Registry.Servers, io: Weather,
      records: seq<Record>, names: seq<Name>, records': seq<Record>, names': seq<Name>)
    requires Tidy(sys)
    requires IsListing(records, sys.tables.rows) && IsListing(records', sys.tables.rows)
    requires Lists(names, reg.Keys) && Lists(names', reg.Keys)
    ensures var p, q := Pass(sys, drift, records, names, reg, io), Pass(sys, drift, records', names', reg, io);
            p.sys.tables == q.sys.tables && p.sys.cluster.Same(q.sys.cluster) && p.drift == q.drift
  {
    RowsAgree(sys, records, records', reg, io);
    ListingNames(records, sys.tables.rows);
    ListingNames(records', sys.tables.rows);
    var a, b := PassRows(sys, records, reg, io), PassRows(sys, records', reg, io);
    assert a.tables == b.tables;
    DriftAgrees(a.tables, drift, names, names', reg, sys.tables.rows.Keys, io);
  }

  lemma RowsAgree(sys: Sys, records: seq<Record>, records': seq<Record>, reg: Registry.Servers, io: Weather)
    requires Tidy(sys) && IsListing(records, sys.tables.rows) && IsListing(records', sys.tables.rows)
    ensures var a, b := PassRows(sys, records, reg, io), PassRows(sys, records', reg, io);
            a.tables == b.tables && a.cluster.Same(b.cluster)
  {
    var a, b := PassRows(sys, records, reg, io), PassRows(sys, records', reg, io);
    RowsElsewhere(sys, records, reg, io);
    RowsElsewhere(sys, records', reg, io);
    forall n ensures a.cluster.At(n) == b.cluster.At(n) && RowView(a.tables, n) == RowView(b.tables, n) {
      if n in sys.tables.rows {
        RowsAt(sys, records, reg, io, n);
        RowsAt(sys, records', reg, io, n);
      }
    }
    SameRows(a.tables, b.tables);
    SameRecords(records, records', sys.tables.rows);
  }

  lemma SameRows(a: Tables, b: Tables)
    requires forall n :: RowView(a, n) == RowView(b, n)
    ensures a.rows == b.rows
  {
    forall n ensures n in a.rows <==> n in b.rows
      ensures n in a.rows ==> a.rows[n] == b.rows[n]
    {
      assert RowView(a, n) == RowView(b, n);
    }
  }

  lemma SameCounts(a: DriftCounts, b: DriftCounts)
    requires forall n :: CountView(a, n) == CountView(b, n)
    ensures a == b
  {
    forall n ensures n in a <==> n in b
      ensures n in a ==> a[n] == b[n]
    {
      assert CountView(a, n) == CountView(b, n);
    }
  }

  lemma SameRecords(a: seq<Record>, b: seq<Record>, rows: map<Name, Row>)
    requires IsListing(a, rows) && IsListing(b, rows)
    ensures forall rec :: rec in a <==> rec in b
  {
    forall rec ensures rec in a <==> (rec.name in rows && rows[rec.name] == rec.row)
      ensures rec in b <==> (rec.name in rows && rows[rec.name] == rec.row)
    {
      if rec.name in rows && rows[rec.name] == rec.row {
        assert Record(rec.name, rows[rec.name]) == rec;
      }
    }
  }

  lemma ListedKey(names: seq<Name>, keys: set<Name>, n: Name)
    requires Lists(names, keys)
    ensures n in names <==> n in keys
  {
    assert n in names <==> n in (set k | k in names);
  }

  lemma DriftPassAt(t: Tables, drift: DriftCounts, names: seq<Name>, rowNames: set<Name>, io: Weather, n: Name)
    requires forall i, j | 0 <= i < j < |names| :: names[i] != names[j]
    ensures var (a, b) := DriftPass(t, drift, names, rowNames, io);
            var (x, y) := DriftEntry(t, drift, n, rowNames, io(n).fault(TombstoneInsert));
            && RowView(a, n) == (if n in names then RowView(x, n) else RowView(t, n))
            && CountView(b, n) == (if n in names then CountView(y, n) else CountView(drift, n))
            && a.users == t.users && a.rootUser == t.rootUser
  {
    DriftPassPointwise(t, drift, names, rowNames, io);
  }

  lemma DriftAgrees(t: Tables, drift: DriftCounts, names: seq<Name>, names': seq<Name>, reg: Registry.Servers,
      rowNames: set<Name>, io: Weather)
    requires Lists(names, reg.Keys) && Lists(names', reg.Keys)
    ensures DriftPass(t, drift, names, rowNames, io) == DriftPass(t, drift, names', rowNames, io)
  {
    var (x, dx) := DriftPass(t, drift, names, rowNames, io);
    var (y, dy) := DriftPass(t, drift, names', rowNames, io);
    forall n ensures RowView(x, n) == RowView(y, n) && CountView(dx, n) == CountView(dy, n) {
      assert n in names <==> n in names' by {
        ListedKey(names, reg.Keys, n);
        ListedKey(names', reg.Keys, n);
      }
      DriftPassAt(t, drift, names, rowNames, io, n);
      DriftPassAt(t, drift, names', rowNames, io, n);
    }
    DriftPassAt(t, drift, names, rowNames, io, "");
    DriftPassAt(t, drift, names', rowNames, io, "");
    SameRows(x, y);
    SameCounts(dx, dy);
  }

  /** Without disjoint ports the order decides: of two new rows that share a port, the one listed
      first gets its Service and the other fails. */
  lemma SharedPortsDependOnOrder(sys: Sys, a: Record, b: Record, reg: Registry.Servers, io: Weather)
    requires a.name != b.name && WellNamed(a) && WellNamed(b) && Serves(a.row) && Serves(b.row)
    requires a.row.failures == 0 && b.row.failures == 0 && forall n :: Calm(io(n))
    requires sys.tables.rows == map[a.name := a.row, b.name := b.row] && sys.cluster == Objects(true, map[])
    requires reg == map[]
    requires NodePortPair(PortOf(a.row)) && NodePortPair(PortOf(b.row)) && !Apart(PortOf(a.row), PortOf(b.row))
    ensures var r := PassRows(sys, [a, b], reg, io);
            && r.cluster.At(a.name).service.Some? && RowIs(r.tables.rows, a.name, Some(a.row))
            && r.cluster.At(b.name).service.None? && RowIs(r.tables.rows, b.name, Some(b.row.(failures := 1)))
  {
    var s1 := PassRow(sys, a, reg, io(a.name));
    PassRowIsLocal(sys, a, reg, io(a.name));
    FirstRowServes(sys.cluster.At(a.name), a.row, io(a.name));
    PassRowIsLocal(s1, b, reg, io(b.name));
    assert s1.cluster.slots[a.name].service == Some(PortOf(a.row)) by {
      assert s1.cluster.At(a.name).service.Some?;
    }
    assert !s1.cluster.PortFree(b.name, PortOf(b.row));
    BlockedRowFails(b.row, io(b.name));
    assert [a, b][1..] == [b];
    assert [b][1..] == [];
    assert PassRows(sys, [a, b], reg, io) == PassRows(s1, [b], reg, io) == PassRow(s1, b, reg, io(b.name));
  }

  lemma FirstRowServes(s: Slot, row: Row, io: Io)
    requires s == NO_OBJECTS && Serves(row) && row.failures == 0 && Calm(io)
    ensures var d := ConvergeSlot(s, row, None, true, io); d.ok && d.slot.service == Some(PortOf(row))
  {
  }

  lemma BlockedRowFails(row: Row, io: Io)
    requires Serves(row) && row.failures == 0 && Calm(io)
    ensures var d := ConvergeSlot(NO_OBJECTS, row, None, false, io); !d.ok && d.slot.service.None?
  {
  }
}
