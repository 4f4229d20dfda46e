/** The port-pair allocator of internal/api/api.go. */
module Ports {
  import opened Types
  import opened Cluster
  import opened Store
  import opened Database
  import opened Registry

  const UI_PORT := 30080
  const FIRST_PORT := 30100
  const LAST_PORT := 32766

  /** The number of aligned pairs between FIRST_PORT and LAST_PORT + 1. */
  const PAIRS := 1334

  function PortsAt(p: int32): set<int> {
    {p as int, Inc32(p) as int}
  }

  function RowPorts(rows: map<Name, Row>): set<int> {
    (set n | n in rows && rows[n].config.Encoded? :: rows[n].config.cfg.core.serverPort as int)
    + (set n | n in rows && rows[n].config.Encoded? :: Inc32(rows[n].config.cfg.core.serverPort) as int)
  }

  function RegistryPorts(reg: Servers): set<int> {
    (set n | n in reg && reg[n].service.nodePort != 0 :: reg[n].service.nodePort as int)
    + (set n | n in reg && reg[n].service.queryPort != 0 :: reg[n].service.queryPort as int)
  }

  function Occupied(rows: map<Name, Row>, reg: Servers): set<int> {
    {UI_PORT} + RowPorts(rows) + RegistryPorts(reg)
  }

  /** The i-th aligned pair has a taken port. */
  predicate Blocked(taken: set<int>, i: int) {
    FIRST_PORT + 2 * i in taken || FIRST_PORT + 2 * i + 1 in taken
  }

  /** The i-th aligned pair starts at p, is free, and none before it is. */
  ghost predicate IsFirstFree(taken: set<int>, i: int, p: int32) {
    p == FIRST_PORT + 2 * i && !Blocked(taken, i) && forall j | 0 <= j < i :: Blocked(taken, j)
  }

  /** What the allocator promises: the least free aligned pair, or nothing when all are blocked. */
  ghost predicate IsLeastFreePair(taken: set<int>, port: Option<int32>) {
    match port
    case None => forall i | 0 <= i < PAIRS :: Blocked(taken, i)
    case Some(p) => exists i | 0 <= i < PAIRS :: IsFirstFree(taken, i, p)
  }

  function FirstFree(taken: set<int>, i: nat): (port: Option<int32>)
    requires i <= PAIRS
    ensures (forall j | 0 <= j < i :: Blocked(taken, j)) ==> IsLeastFreePair(taken, port)
    decreases PAIRS - i
  {
    if i == PAIRS then None
    else if !Blocked(taken, i) then
      assert (forall j | 0 <= j < i :: Blocked(taken, j)) ==> IsFirstFree(taken, i, FIRST_PORT + 2 * i);
      Some(FIRST_PORT + 2 * i)
    else FirstFree(taken, i + 1)
  }

  function Allocate(rows: map<Name, Row>, reg: Servers): (port: Option<int32>)
    ensures IsLeastFreePair(Occupied(rows, reg), port)
  {
    FirstFree(Occupied(rows, reg), 0)
  }

  /** The promise leaves no choice. */
  lemma LeastFreePairIsUnique(taken: set<int>, a: Option<int32>, b: Option<int32>)
    requires IsLeastFreePair(taken, a) && IsLeastFreePair(taken, b)
    ensures a == b
  {
    if a.Some? && b.Some? {
      var i :| 0 <= i < PAIRS && IsFirstFree(taken, i, a.value);
      var k :| 0 <= k < PAIRS && IsFirstFree(taken, k, b.value);
    }
  }

  // The promise, spelled out on rows and entries.

  /** The row's port or the one after it is p or p+1. */
  predicate RowMeets(row: Row, p: int) {
    row.config.Encoded? && p - 1 <= row.config.cfg.core.serverPort <= p + 1
  }

  /** A port the registry shows for the server is p or p+1. */
  predicate EntryMeets(e: Entry, p: int) {
    e.service.nodePort in {p, p + 1} || e.service.queryPort in {p, p + 1}
  }

  ghost predicate Met(rows: map<Name, Row>, reg: Servers, p: int) {
    || (exists n :: n in rows && RowMeets(rows[n], p))
    || (exists n :: n in reg && EntryMeets(reg[n], p))
  }

  /** The least even port from 30100 to 32766 whose pair no row and no registry entry meets; none only
      if every pair is met. */
  ghost predicate Answers(rows: map<Name, Row>, reg: Servers, port: Option<int32>) {
    match port
    case None => forall q | 30100 <= q <= 32766 && q % 2 == 0 :: Met(rows, reg, q)
    case Some(p) =>
      && 30100 <= p <= 32766 && p % 2 == 0 && !Met(rows, reg, p)
      && forall q | 30100 <= q < p && q % 2 == 0 :: Met(rows, reg, q)
  }

  lemma BlockedIsMet(rows: map<Name, Row>, reg: Servers, i: int)
    requires 0 <= i < PAIRS
    ensures Blocked(Occupied(rows, reg), i) <==> Met(rows, reg, 30100 + 2 * i)
  {
    var p := 30100 + 2 * i;
    RowsMeet(rows, p);
    EntriesMeet(reg, p);
    assert p != UI_PORT && p + 1 != UI_PORT;
  }

  lemma RowsMeet(rows: map<Name, Row>, p: int)
    requires 30100 <= p <= 32766
    ensures p in RowPorts(rows) || p + 1 in RowPorts(rows) <==> exists n :: n in rows && RowMeets(rows[n], p)
  {
    if n :| n in rows && RowMeets(rows[n], p) {
      var q := rows[n].config.cfg.core.serverPort;
      assert Inc32(q) == q + 1;
      assert q as int in RowPorts(rows) && q as int + 1 in RowPorts(rows);
    }
    forall q | q in RowPorts(rows) && (q == p || q == p + 1) ensures exists n :: n in rows && RowMeets(rows[n], p) {
      var n :| n in rows && rows[n].config.Encoded?
          && (q == rows[n].config.cfg.core.serverPort || q == Inc32(rows[n].config.cfg.core.serverPort));
      assert RowMeets(rows[n], p);
    }
  }

  lemma EntriesMeet(reg: Servers, p: int)
    requires 30100 <= p <= 32766
    ensures p in RegistryPorts(reg) || p + 1 in RegistryPorts(reg) <==> exists n :: n in reg && EntryMeets(reg[n], p)
  {
    if n :| n in reg && EntryMeets(reg[n], p) {
      var q := if reg[n].service.nodePort in {p, p + 1} then reg[n].service.nodePort else reg[n].service.queryPort;
      assert q as int in RegistryPorts(reg);
    }
    forall q | q in RegistryPorts(reg) && (q == p || q == p + 1) ensures exists n :: n in reg && EntryMeets(reg[n], p) {
      var n :| n in reg && (q == reg[n].service.nodePort || q == reg[n].service.queryPort);
      assert EntryMeets(reg[n], p);
    }
  }

  /** The ports of rows and registry, as the allocator collects them, give exactly this answer. */
  lemma LeastFreeAnswers(rows: map<Name, Row>, reg: Servers, port: Option<int32>)
    ensures IsLeastFreePair(Occupied(rows, reg), port) ==> Answers(rows, reg, port)
  {
    forall q | 30100 <= q <= 32766 && q % 2 == 0
      ensures Met(rows, reg, q) <==> Blocked(Occupied(rows, reg), (q - 30100) / 2)
    {
      BlockedIsMet(rows, reg, (q - 30100) / 2);
    }
  }

  /** Exactly one answer is right, and the allocator gives it. */
  lemma AllocationIff(rows: map<Name, Row>, reg: Servers, port: Option<int32>)
    ensures Answers(rows, reg, port) <==> port == Allocate(rows, reg)
  {
    LeastFreeAnswers(rows, reg, Allocate(rows, reg));
  }

  method AllocateServerPort(db: Database, registry: ServerRegistry, f: Fault) returns (port: Option<int32>)
    ensures port == if f.Clean? then Allocate(db.rows, registry.servers) else None
    ensures f.Clean? ==> Answers(db.rows, registry.servers, port)
  {
    var listed := db.ListServerConfigs(f);
    if listed.None? { return None; }
    var occupied := MarkRows({UI_PORT}, listed.value);
    RecordPortsAreRowPorts(listed.value, db.rows);
    var names := registry.List();
    occupied := MarkEntries(occupied, names, registry.servers);
    assert EntryPorts(names, registry.servers) == RegistryPorts(registry.servers);
    assert occupied == Occupied(db.rows, registry.servers);
    port := Scan(occupied);
    LeastFreePairIsUnique(occupied, port, Allocate(db.rows, registry.servers));
    LeastFreeAnswers(db.rows, registry.servers, port);
  }

  /** The first loop: the ports of the decodable rows. */
  method MarkRows(start: set<int>, records: seq<Record>) returns (occupied: set<int>)
    ensures occupied == start + RecordPorts(records)
  {
    occupied := start;
    for i := 0 to |records|
      invariant occupied == start + RecordPorts(records[..i])
    {
      assert records[..i + 1] == records[..i] + [records[i]];
      RecordPortsAppend(records[..i], records[i]);
      if records[i].row.config.Encoded? {
        var p := records[i].row.config.cfg.core.serverPort;
        occupied := occupied + PortsAt(p);
      }
    }
    assert records[..|records|] == records;
  }

  /** The second loop: the non-zero ports of the registry entries. */
  method MarkEntries(start: set<int>, names: seq<Name>, reg: Servers) returns (occupied: set<int>)
    requires forall n | n in names :: n in reg
    ensures occupied == start + EntryPorts(names, reg)
  {
    occupied := start;
    for i := 0 to |names|
      invariant occupied == start + EntryPorts(names[..i], reg)
    {
      assert names[..i + 1] == names[..i] + [names[i]];
      EntryPortsAppend(names[..i], names[i], reg);
      var s := reg[names[i]].service;
      if s.nodePort != 0 { occupied := occupied + {s.nodePort as int}; }
      if s.queryPort != 0 { occupied := occupied + {s.queryPort as int}; }
    }
    assert names[..|names|] == names;
  }

  /** The strided first fit. */
  method Scan(occupied: set<int>) returns (port: Option<int32>)
    ensures IsLeastFreePair(occupied, port)
  {
    var p: int32 := FIRST_PORT;
    ghost var i := 0;
    while p <= LAST_PORT
      invariant 0 <= i <= PAIRS && p == FIRST_PORT + 2 * i
      invariant forall j | 0 <= j < i :: Blocked(occupied, j)
      decreases PAIRS - i
    {
      if p as int !in occupied && p as int + 1 !in occupied {
        assert IsFirstFree(occupied, i, p);
        return Some(p);
      }
      assert Blocked(occupied, i);
      p := p + 2;
      i := i + 1;
    }
    return None;
  }

  function RecordPorts(records: seq<Record>): set<int> {
    (set r | r in records && r.row.config.Encoded? :: r.row.config.cfg.core.serverPort as int)
    + (set r | r in records && r.row.config.Encoded? :: Inc32(r.row.config.cfg.core.serverPort) as int)
  }

  lemma RecordPortsAppend(a: seq<Record>, r: Record)
    ensures RecordPorts(a + [r])
         == RecordPorts(a) + if r.row.config.Encoded? then PortsAt(r.row.config.cfg.core.serverPort) else {}
  {
  }

  lemma RecordPortsAreRowPorts(records: seq<Record>, rows: map<Name, Row>)
    requires IsListing(records, rows)
    ensures RecordPorts(records) == RowPorts(rows)
  {
    forall p | p in RowPorts(rows) ensures p in RecordPorts(records) {
      var n :| n in rows && rows[n].config.Encoded?
          && (p == rows[n].config.cfg.core.serverPort || p == Inc32(rows[n].config.cfg.core.serverPort));
      assert Record(n, rows[n]) in records;
    }
    forall p | p in RecordPorts(records) ensures p in RowPorts(rows) {
      var r :| r in records && r.row.config.Encoded?
          && (p == r.row.config.cfg.core.serverPort || p == Inc32(r.row.config.cfg.core.serverPort));
      assert rows[r.name] == r.row;
    }
  }

  function EntryPorts(names: seq<Name>, reg: Servers): set<int> {
    (set n | n in names && n in reg && reg[n].service.nodePort != 0 :: reg[n].service.nodePort as int)
    + (set n | n in names && n in reg && reg[n].service.queryPort != 0 :: reg[n].service.queryPort as int)
  }

  lemma EntryPortsAppend(a: seq<Name>, n: Name, reg: Servers)
    requires n in reg
    ensures EntryPorts(a + [n], reg)
         == EntryPorts(a, reg)
            + (if reg[n].service.nodePort != 0 then {reg[n].service.nodePort as int} else {})
            + (if reg[n].service.queryPort != 0 then {reg[n].service.queryPort as int} else {})
  {
  }

  // Completeness.

  function TakenBelow(taken: set<int>, k: nat): set<int> {
    set p | p in taken && FIRST_PORT <= p < FIRST_PORT + 2 * k
  }

  lemma {:induction false} BlockedPairsTakePorts(taken: set<int>, k: nat)
    requires forall i | 0 <= i < k :: Blocked(taken, i)
    ensures |TakenBelow(taken, k)| >= k
  {
    if k > 0 {
      BlockedPairsTakePorts(taken, k - 1);
      assert Blocked(taken, k - 1);
      var a, b := TakenBelow(taken, k - 1), TakenBelow(taken, k);
      var p := if FIRST_PORT + 2 * (k - 1) in taken then FIRST_PORT + 2 * (k - 1) else FIRST_PORT + 2 * (k - 1) + 1;
      assert a + {p} <= b && p !in a;
      SubsetCard(a + {p}, b);
    }
  }

  lemma {:induction false} SubsetCard<T>(a: set<T>, b: set<T>)
    requires a <= b
    ensures |a| <= |b|
  {
    if a != {} {
      var x :| x in a;
      SubsetCard(a - {x}, b - {x});
    }
  }

  /** Pigeonhole: fewer taken ports in the range than pairs leave a free pair. */
  lemma AllocatesBelowCapacity(rows: map<Name, Row>, reg: Servers)
    requires |set p | p in Occupied(rows, reg) && FIRST_PORT <= p <= LAST_PORT + 1| < PAIRS
    ensures Allocate(rows, reg).Some?
  {
    var taken := Occupied(rows, reg);
    assert TakenBelow(taken, PAIRS) == set p | p in taken && FIRST_PORT <= p <= LAST_PORT + 1;
    if Allocate(rows, reg).None? {
      BlockedPairsTakePorts(taken, PAIRS);
    }
  }

  /** A port a row may hold: none, or the base of an aligned pair. */
  predicate PairBase(p: int) {
    FIRST_PORT <= p <= LAST_PORT && (p - FIRST_PORT) % 2 == 0
  }

  function RowBases(rows: map<Name, Row>): set<int> {
    set n | n in rows && rows[n].config.Encoded? :: rows[n].config.cfg.core.serverPort as int
  }

  lemma {:induction false} BasesNoMoreThanRows(rows: map<Name, Row>)
    ensures |RowBases(rows)| <= |rows|
  {
    if rows != map[] {
      var n :| n in rows;
      var rest := rows - {n};
      BasesNoMoreThanRows(rest);
      assert |rest| == |rows| - 1 by { assert rest.Keys == rows.Keys - {n}; }
      var p := if rows[n].config.Encoded? then {rows[n].config.cfg.core.serverPort as int} else {};
      forall q | q in RowBases(rows) ensures q in RowBases(rest) + p {
        var m :| m in rows && rows[m].config.Encoded? && q == rows[m].config.cfg.core.serverPort;
        assert m == n || (m in rest && rest[m] == rows[m]);
      }
      SubsetCard(RowBases(rows), RowBases(rest) + p);
    }
  }

  /** When every decodable row holds an aligned pair (or port 0) and the registry names no other
      port, a pair is free as long as there are fewer rows than pairs. */
  lemma AllocatesForFewRows(rows: map<Name, Row>, reg: Servers)
    requires forall n | n in rows && rows[n].config.Encoded? ::
               var p := rows[n].config.cfg.core.serverPort; p == 0 || PairBase(p)
    requires RegistryPorts(reg) <= RowPorts(rows)
    requires |rows| < PAIRS
    ensures Allocate(rows, reg).Some?
  {
    var taken := Occupied(rows, reg);
    if Allocate(rows, reg).None? {
      var bases := set i | 0 <= i < PAIRS :: FIRST_PORT + 2 * i;
      forall b | b in bases ensures b in RowBases(rows) {
        var i :| 0 <= i < PAIRS && b == FIRST_PORT + 2 * i;
        assert Blocked(taken, i);
        BlockedByItsBase(rows, i);
      }
      BaseCount(PAIRS);
      SubsetCard(bases, RowBases(rows));
      BasesNoMoreThanRows(rows);
    }
  }

  lemma BlockedByItsBase(rows: map<Name, Row>, i: nat)
    requires i < PAIRS && Blocked({UI_PORT} + RowPorts(rows), i)
    requires forall n | n in rows && rows[n].config.Encoded? ::
               var p := rows[n].config.cfg.core.serverPort; p == 0 || PairBase(p)
    ensures FIRST_PORT + 2 * i in RowBases(rows)
  {
    var p := FIRST_PORT + 2 * i;
    var q := if p in RowPorts(rows) then p else p + 1;
    assert q in RowPorts(rows);
    var n :| n in rows && rows[n].config.Encoded?
        && (q == rows[n].config.cfg.core.serverPort || q == Inc32(rows[n].config.cfg.core.serverPort));
    assert rows[n].config.cfg.core.serverPort == p;
  }

  lemma {:induction false} BaseCount(k: nat)
    ensures |set i | 0 <= i < k :: FIRST_PORT + 2 * i| == k
  {
    if k > 0 {
      BaseCount(k - 1);
      var a := set i | 0 <= i < k - 1 :: FIRST_PORT + 2 * i;
      assert (set i | 0 <= i < k :: FIRST_PORT + 2 * i) == a + {FIRST_PORT + 2 * (k - 1)};
    }
  }
}
