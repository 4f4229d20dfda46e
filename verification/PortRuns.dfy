/** Ports over whole runs: rows and Services never share a port, and a row keeps its port and world. */
module PortProofs {
  import opened Types
  import opened Cluster
  import opened Store
  import opened Converge
  import opened PassProofs
  import opened PassTheorems
  import opened Machine
  import opened RowProofs
  import opened TeardownProofs
  import opened Ports
  import Api
  import Registry

  /** The ports the rows hold are aligned pairs in range, pairwise disjoint; 0 and undecodable hold none. */
  ghost predicate PairsApart(rows: map<Name, Row>) {
    && (forall n | n in rows :: PortOf(rows[n]) == 0 || PairBase(PortOf(rows[n])))
    && (forall n, m | n in rows && m in rows && n != m && PortOf(rows[n]) != 0 && PortOf(rows[m]) != 0 ::
          Apart(PortOf(rows[n]), PortOf(rows[m])))
  }

  /** Rows that stay keep their identity; new ones hold no port. */
  ghost predicate Frozen(rows: map<Name, Row>, rows': map<Name, Row>) {
    forall n | n in rows' ::
      if n in rows then IdentityOf(rows'[n]) == IdentityOf(rows[n]) else PortOf(rows'[n]) == 0
  }

  lemma FrozenKeepsPairs(rows: map<Name, Row>, rows': map<Name, Row>)
    requires PairsApart(rows) && Frozen(rows, rows')
    ensures PairsApart(rows')
  {
    forall n | n in rows' ensures PortOf(rows'[n]) == 0 || (n in rows && PortOf(rows'[n]) == PortOf(rows[n])) {
    }
  }

  lemma LeastFreePairIsApart(taken: set<int>, p: int32, q: int)
    requires IsLeastFreePair(taken, Some(p))
    ensures PairBase(p) && (q in taken && q + 1 in taken ==> Apart(p, q))
  {
    var i :| 0 <= i < PAIRS && IsFirstFree(taken, i, p);
  }

  lemma RowHoldsPorts(rows: map<Name, Row>, reg: Registry.Servers, n: Name)
    requires n in rows && 0 < PortOf(rows[n]) <= LAST_PORT
    ensures var q := PortOf(rows[n]) as int; q in Occupied(rows, reg) && q + 1 in Occupied(rows, reg)
  {
    var q := PortOf(rows[n]);
    assert rows[n].config.cfg.core.serverPort == q && Inc32(q) == q + 1;
    assert q as int in RowPorts(rows) && Inc32(q) as int in RowPorts(rows);
  }

  lemma AllocatedIsLeast(rows: map<Name, Row>, reg: Registry.Servers, p: int32, taken: set<int>)
    requires Allocate(rows, reg) == Some(p) && taken == Occupied(rows, reg)
    ensures IsLeastFreePair(taken, Some(p))
  {
  }

  lemma RowPortsTaken(rows: map<Name, Row>, reg: Registry.Servers, n: Name, taken: set<int>)
    requires n in rows && 0 < PortOf(rows[n]) <= LAST_PORT && taken == Occupied(rows, reg)
    ensures PortOf(rows[n]) as int in taken && PortOf(rows[n]) as int + 1 in taken
  {
    RowHoldsPorts(rows, reg, n);
  }

  /** The allocated pair shares no port with any row. */
  lemma AllocatedIsApart(rows: map<Name, Row>, reg: Registry.Servers, p: int32, n: Name, taken: set<int>)
    requires Allocate(rows, reg) == Some(p) && taken == Occupied(rows, reg)
    ensures PairBase(p) && (n in rows && 0 < PortOf(rows[n]) <= LAST_PORT ==> Apart(p, PortOf(rows[n])))
  {
    AllocatedIsLeast(rows, reg, p, taken);
    LeastFreePairIsApart(taken, p, if n in rows then PortOf(rows[n]) as int else 0);
    if n in rows && 0 < PortOf(rows[n]) <= LAST_PORT {
      RowPortsTaken(rows, reg, n, taken);
    }
  }

  lemma CreateKeepsPairs(t: Tables, reg: Registry.Servers, owner: Name, n: Name, cfg: ValheimConfig, list: Fault,
      f: Fault)
    requires PairsApart(t.rows)
    ensures PairsApart(Api.Create(t, reg, owner, n, cfg, list, f).0.rows)
  {
    var rows' := Api.Create(t, reg, owner, n, cfg, list, f).0.rows;
    if rows' != t.rows {
      var p := Allocate(t.rows, reg).value;
      assert n !in t.rows && PortOf(rows'[n]) == p;
      assert rows' == t.rows[n := rows'[n]];
      forall m ensures PairBase(p) && (m in t.rows && PortOf(t.rows[m]) != 0 ==> Apart(p, PortOf(t.rows[m]))) {
        AllocatedIsApart(t.rows, reg, p, m, Occupied(t.rows, reg));
      }
    }
  }

  lemma StepFreezes(s: State, e: Event)
    requires !e.CreateServer?
    ensures Frozen(s.tables.rows, Apply(s, e).tables.rows)
  {
    var rows' := Apply(s, e).tables.rows;
    forall n | n in rows'
      ensures if n in s.tables.rows then IdentityOf(rows'[n]) == IdentityOf(s.tables.rows[n]) else PortOf(rows'[n]) == 0
    {
      StepFate(s, e, n);
    }
  }

  lemma StepKeepsPairs(s: State, e: Event)
    requires PairsApart(s.tables.rows)
    ensures PairsApart(Apply(s, e).tables.rows)
  {
    if e.CreateServer? {
      ServerOutcome(s, e);
      CreateKeepsPairs(s.tables, s.registry, e.owner, e.name, e.cfg, e.list, e.fault);
    } else {
      StepFreezes(s, e);
      FrozenKeepsPairs(s.tables.rows, Apply(s, e).tables.rows);
    }
  }

  /** Global port disjointness: in every run of every kind of event, with the registry showing
      whatever it likes, the rows hold pairwise disjoint aligned pairs between 30100 and 32767. */
  lemma {:induction false} PortsStayApart(s: State, es: seq<Event>)
    requires PairsApart(s.tables.rows)
    ensures PairsApart(Run(s, es).tables.rows)
    decreases |es|
  {
    if es != [] {
      StepKeepsPairs(s, es[0]);
      PortsStayApart(Apply(s, es[0]), es[1..]);
    }
  }

  /** Allocation and insertion must not be torn apart: two create handlers that both allocate before
      either inserts give two rows the same pair. */
  lemma RacingCreatesCollide(t: Tables, reg: Registry.Servers, owner: Name, a: Name, b: Name, cfg: ValheimConfig,
      p: int32)
    requires a != b && a !in t.rows && b !in t.rows && owner in t.users && Allocate(t.rows, reg) == Some(p)
    ensures var t1 := Store.CreateServer(t, a, owner, Api.WithPort(cfg, p), Clean).0;
            var t2 := Store.CreateServer(t1, b, owner, Api.WithPort(cfg, p), Clean).0;
            a in t2.rows && b in t2.rows && PortOf(t2.rows[a]) == PortOf(t2.rows[b]) && !PairsApart(t2.rows)
  {
    AllocatedIsApart(t.rows, reg, p, a, Occupied(t.rows, reg));
    var t1 := Store.CreateServer(t, a, owner, Api.WithPort(cfg, p), Clean).0;
    var t2 := Store.CreateServer(t1, b, owner, Api.WithPort(cfg, p), Clean).0;
    assert PortOf(t2.rows[a]) == p && PortOf(t2.rows[b]) == p;
    assert !Apart(p, p);
  }

  /** Nor must the check of an update and its write: if the row is dropped and created anew in between,
      with another port, the write gives it the port of its predecessor, which may be taken by now. */
  lemma TornUpdateMovesPort(t: Tables, caller: Api.Caller, n: Name, cfg: ValheimConfig, later: Tables)
    requires Api.UpdateConfig(t, caller, n, cfg, Clean).1 == 200
    requires n in later.rows && PortOf(later.rows[n]) != PortOf(t.rows[n])
    ensures var t' := Store.UpdateServerConfig(later, n, cfg, Clean).0;
            && PortOf(t'.rows[n]) == PortOf(t.rows[n]) != PortOf(later.rows[n])
            && forall m | m in later.rows && m != n && PortOf(later.rows[m]) == PortOf(t.rows[n]) != 0 ::
                !PairsApart(t'.rows)
  {
    var t' := Store.UpdateServerConfig(later, n, cfg, Clean).0;
    forall m | m in later.rows && m != n && PortOf(later.rows[m]) == PortOf(t.rows[n]) != 0
      ensures !PairsApart(t'.rows)
    {
      assert m in t'.rows && PortOf(t'.rows[m]) == PortOf(t'.rows[n]);
      assert !Apart(PortOf(t'.rows[n]), PortOf(t'.rows[m]));
    }
  }

  // Services.

  /** A Service has the ports of its server's row. */
  ghost predicate ServicesMatch(c: Objects, rows: map<Name, Row>) {
    forall n :: c.At(n).service.Some? ==>
      n in rows && NodePortPair(c.At(n).service.value) && PortOf(rows[n]) == c.At(n).service.value
  }

  ghost predicate JobFrozen(rows: map<Name, Row>, job: Job) {
    job.pc.FailureIncrement? || (job.rec.name in rows && IdentityOf(rows[job.rec.name]) == IdentityOf(job.rec.row))
  }

  /** A listed row still has its identity when its turn comes. */
  ghost predicate ListedFrozen(s: State) {
    s.ctl.Rows? ==>
      && (forall i | 0 <= i < |s.ctl.todo| ::
            s.ctl.todo[i].name in s.tables.rows
                && IdentityOf(s.tables.rows[s.ctl.todo[i].name]) == IdentityOf(s.ctl.todo[i].row))
      && (s.ctl.job.Some? ==> JobFrozen(s.tables.rows, s.ctl.job.value))
  }

  ghost predicate ServicesOk(s: State) {
    ServicesMatch(s.cluster, s.tables.rows) && ListedFrozen(s)
  }

  ghost predicate PortsOk(s: State) {
    PairsApart(s.tables.rows) && ServicesOk(s)
  }

  lemma OnlyServiceCreateServes(rec: Record, cfg: ValheimConfig, pc: Call, lingers: bool)
    ensures OpAt(rec, cfg, pc, lingers).Some? && OpAt(rec, cfg, pc, lingers).value.CreateService? ==>
              pc.ServiceCreate? && OpAt(rec, cfg, pc, lingers).value.port == cfg.core.serverPort
  {
  }

  lemma ServiceEffect(s: Slot, op: Op, admitted: bool, f: Fault)
    ensures var s' := Perform(s, op, admitted, f).0;
            s'.service.Some? ==>
                s'.service == s.service || (op.CreateService? && admitted && s'.service == Some(op.port))
  {
  }

  /** A Service of m after a call: the one before, or the one the job's row asks for. */
  predicate ServiceFrom(before: Option<int32>, after: Option<int32>, job: Job, m: Name) {
    || after.None?
    || after == before
    || (m == job.rec.name && job.pc.ServiceCreate? && NodePortPair(after.value) && after.value == PortOf(job.rec.row))
  }

  /** A call makes no Service but the one its row asks for. */
  lemma CallServices(c: Objects, t: Tables, reg: Registry.Servers, job: Job, f: Fault, lingers: bool, giveUp: bool,
      m: Name)
    requires WellNamed(job.rec)
    ensures ServiceFrom(c.At(m).service, Step(c, t, reg, job, f, lingers, giveUp).cluster.At(m).service, job, m)
  {
    if job.rec.row.config.Encoded? {
      var cfg := job.rec.row.config.cfg;
      var op := OpAt(job.rec, cfg, job.pc, lingers);
      if op.Some? && m == job.rec.name {
        OnlyServiceCreateServes(job.rec, cfg, job.pc, lingers);
        ServiceEffect(c.At(m), op.value, c.Admits(m, op.value), f);
      }
    }
  }

  lemma CallKeepsServices(s: State, job: Job, r: Turn)
    requires PortsOk(s) && s.ctl.Rows? && s.ctl.job == Some(job) && TurnOk(s.cluster, s.tables, job, r)
    requires Frozen(s.tables.rows, r.tables.rows)
    requires forall m :: ServiceFrom(s.cluster.At(m).service, r.cluster.At(m).service, job, m)
    ensures ServicesMatch(r.cluster, r.tables.rows)
  {
    forall m | r.cluster.At(m).service.Some?
      ensures m in r.tables.rows && NodePortPair(r.cluster.At(m).service.value)
      ensures PortOf(r.tables.rows[m]) == r.cluster.At(m).service.value
    {
      assert ServiceFrom(s.cluster.At(m).service, r.cluster.At(m).service, job, m);
      assert m in s.tables.rows;
    }
  }

  lemma TurnKeepsFrozen(s: State, job: Job, r: Turn)
    requires LoopOk(s) && ListedFrozen(s) && s.ctl.Rows? && s.ctl.job == Some(job)
    requires TurnOk(s.cluster, s.tables, job, r)
    requires Frozen(s.tables.rows, r.tables.rows) && (job.pc.FailureIncrement? ==> r.next.None?)
    ensures ListedFrozen(AfterTurn(s, job.rec, r))
  {
  }

  lemma CallFrom(c: Objects, t: Tables, reg: Registry.Servers, job: Job, f: Fault, lingers: bool, giveUp: bool, r: Turn)
    requires WellNamed(job.rec) && r == Step(c, t, reg, job, f, lingers, giveUp)
    ensures forall m :: ServiceFrom(c.At(m).service, r.cluster.At(m).service, job, m)
  {
    forall m ensures ServiceFrom(c.At(m).service, r.cluster.At(m).service, job, m) {
      CallServices(c, t, reg, job, f, lingers, giveUp, m);
    }
  }

  lemma CallFreezes(c: Objects, t: Tables, reg: Registry.Servers, job: Job, f: Fault, lingers: bool, giveUp: bool)
    ensures Frozen(t.rows, Step(c, t, reg, job, f, lingers, giveUp).tables.rows)
  {
    StepTables(c, t, reg, job, f, lingers, giveUp);
  }

  lemma TurnKeepsPorts(s: State, job: Job, f: Fault, lingers: bool, giveUp: bool, r: Turn)
    requires Inv(s) && PortsOk(s) && s.ctl.Rows? && s.ctl.job == Some(job)
    requires r == Step(s.cluster, s.tables, s.registry, job, f, lingers, giveUp)
    ensures ServicesOk(AfterTurn(s, job.rec, r))
  {
    StepIsOk(s.cluster, s.tables, s.registry, job, f, lingers, giveUp);
    if job.pc.FailureIncrement? {
      CountingEndsTurn(s.cluster, s.tables, s.registry, job, f, lingers, giveUp);
    }
    CallFreezes(s.cluster, s.tables, s.registry, job, f, lingers, giveUp);
    CallFrom(s.cluster, s.tables, s.registry, job, f, lingers, giveUp, r);
    CallKeepsServices(s, job, r);
    TurnKeepsFrozen(s, job, r);
  }

  lemma MakeCallKeepsPorts(s: State, f: Fault, lingers: bool, giveUp: bool)
    requires Inv(s) && PortsOk(s)
    ensures ServicesOk(Apply(s, MakeCall(f, lingers, giveUp)))
  {
    if s.ctl.Rows? && s.ctl.job.Some? {
      var job := s.ctl.job.value;
      var r := Step(s.cluster, s.tables, s.registry, job, f, lingers, giveUp);
      TurnKeepsPorts(s, job, f, lingers, giveUp, r);
      assert Apply(s, MakeCall(f, lingers, giveUp)) == AfterTurn(s, job.rec, r);
    }
  }

  lemma OutsideKeepsPorts(s: State, s': State)
    requires PortsOk(s)
    requires forall n | n in s.tables.rows ::
        n in s'.tables.rows && IdentityOf(s'.tables.rows[n]) == IdentityOf(s.tables.rows[n])
    requires forall n :: s'.cluster.At(n).service == s.cluster.At(n).service
    requires s'.ctl == s.ctl || !s'.ctl.Rows?
    ensures ServicesOk(s')
  {
  }

  lemma LoopKeepsServices(s: State, e: Event)
    requires Inv(s) && PortsOk(s) && IsLoopEvent(e)
    ensures ServicesOk(Apply(s, e))
  {
    if e.MakeCall? {
      MakeCallKeepsPorts(s, e.fault, e.lingers, e.giveUp);
    } else if e.NextRow? {
      NextRowKeepsServices(s);
    } else if e.DriftOne? {
      KeptIdentities(s, e);
      OutsideKeepsPorts(s, Apply(s, e));
    }
  }

  lemma NextRowKeepsServices(s: State)
    requires PortsOk(s)
    ensures ServicesOk(Apply(s, NextRow))
  {
    if Apply(s, NextRow).ctl != s.ctl {
      assert forall i | 0 <= i < |s.ctl.todo[1..]| :: s.ctl.todo[1..][i] == s.ctl.todo[i + 1];
    }
  }

  lemma StepKeepsPorts(s: State, e: Event)
    requires Inv(s) && PortsOk(s) && KeepsNames(e) && !e.ResetDatabase?
    ensures PortsOk(Apply(s, e))
  {
    StepKeepsPairs(s, e);
    if IsLoopEvent(e) {
      LoopKeepsServices(s, e);
    } else if !IsWorldEvent(e) {
      HandlerKeepsPorts(s, e);
    }
  }

  lemma KeptIdentities(s: State, e: Event)
    requires !e.MakeCall? && !e.ResetDatabase?
    ensures forall n | n in s.tables.rows ::
              n in Apply(s, e).tables.rows && IdentityOf(Apply(s, e).tables.rows[n]) == IdentityOf(s.tables.rows[n])
  {
    forall n | n in s.tables.rows
      ensures n in Apply(s, e).tables.rows && IdentityOf(Apply(s, e).tables.rows[n]) == IdentityOf(s.tables.rows[n])
    {
      StepFate(s, e, n);
    }
  }

  lemma HandlerKeepsPorts(s: State, e: Event)
    requires PortsOk(s) && !e.ResetDatabase? && !IsLoopEvent(e) && !IsWorldEvent(e)
    ensures ServicesOk(Apply(s, e))
  {
    var s' := Apply(s, e);
    HandlersKeepObjects(s, e);
    forall n ensures s'.cluster.At(n).service == s.cluster.At(n).service {
      assert s'.cluster.At(n).(volume := None) == s.cluster.At(n).(volume := None);
    }
    KeptIdentities(s, e);
    OutsideKeepsPorts(s, s');
  }

  lemma PortsAreTidy(s: State)
    requires RowsWellNamed(s.tables.rows) && PortsOk(s)
    ensures Tidy(Sys(s.tables, s.cluster))
  {
  }

  /** What the pass theorems ask of a state holds in every reachable one: names and ports are in order,
      and every Service, old or new, carries its own row's port pair, shared with nobody. */
  lemma {:induction false} EveryRunIsTidy(s: State, es: seq<Event>)
    requires Inv(s) && PortsOk(s) && forall e | e in es :: KeepsNames(e) && !e.ResetDatabase?
    ensures PortsOk(Run(s, es)) && Tidy(Sys(Run(s, es).tables, Run(s, es).cluster))
    decreases |es|
  {
    if es == [] {
      PortsAreTidy(s);
    } else {
      StepKeepsInv(s, es[0]);
      StepKeepsPorts(s, es[0]);
      EveryRunIsTidy(Apply(s, es[0]), es[1..]);
    }
  }
}
