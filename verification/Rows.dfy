/** What one event can do to one row. Most run invariants about rows follow from this alone. */
module RowProofs {
  import opened Types
  import opened Cluster
  import opened Store
  import opened Converge
  import opened PassProofs
  import opened PassTheorems
  import opened Machine
  import Api
  import Registry

  datatype Identity = Identity(port: int32, world: string)

  /** What a row must keep for life. */
  function IdentityOf(row: Row): Option<Identity> {
    if row.config.Encoded? then Some(Identity(row.config.cfg.core.serverPort, row.config.cfg.core.worldName)) else None
  }

  /** A user the middleware lets through: not suspended, and not due to change the password. */
  predicate InGoodStanding(t: Tables, u: Name) {
    u in t.users && !t.users[u].isSuspended && !t.users[u].mustChange
  }

  /** Such a user who owns the server or is an admin. */
  predicate Entitled(t: Tables, u: Name, row: Row) {
    InGoodStanding(t, u) && (u == row.owner || t.users[u].isAdmin)
  }

  /** Row n, there before and after: its configuration changes only by an update of its owner or an admin
      that keeps its identity, its state and purge flag only by an approved request and to what that
      asks for, its owner only to the user an approved hand-over names, its counter only in the loop. */
  predicate Stays(t: Tables, approved: multiset<Api.Request>, e: Event, n: Name, a: Row, b: Row) {
    && (b.config != a.config ==>
          && e.UpdateServerConfig? && e.name == n && b.config == Encoded(e.cfg) && IdentityOf(b) == IdentityOf(a)
          && Entitled(t, e.caller.name, a))
    && (b.desired != a.desired || b.purge != a.purge ==>
          && e.Write? && e.request in approved && e.request.name == n && !e.request.Transfer?
          && if e.request.Deletion? then b.desired.Deleting? && b.purge == e.request.purge
             else b.desired == (if e.request.running then Running else Stopped) && b.purge == a.purge)
    && (b.owner != a.owner ==>
          && e.Write? && e.request in approved && e.request.Transfer? && e.request.name == n
          && b.owner == e.request.owner && b.owner in t.users)
    && (b.failures != a.failures ==> e.MakeCall? && b.failures in {0, a.failures + 1})
  }

  /** Row n, new: a running row of an existing user, as asked for but for the port, or a tombstone that
      keeps the storage; neither has failed yet. */
  predicate Arrives(t: Tables, e: Event, n: Name, b: Row) {
    if e.CreateServer? then
      && e.name == n && b.owner == e.owner && b.owner in t.users && b.desired.Running? && !b.purge && b.failures == 0
      && b.config == Encoded(e.cfg.(core := e.cfg.core.(serverPort := PortOf(b))))
    else e.DriftOne? && b == Row(t.rootUser, Encoded(OrphanConfig(n)), Deleting, false, 0) && t.rootUser in t.users
  }

  /** The loop is about to drop row n. */
  predicate Dropping(ctl: Ctl, n: Name) {
    ctl.Rows? && ctl.job.Some? && ctl.job.value.rec.name == n && ctl.job.value.pc.RowDelete?
    && ctl.job.value.rec.row.config.Encoded?
  }

  predicate Leaves(ctl: Ctl, e: Event, n: Name) {
    (e.ResetDatabase? && !e.servers.Dropped?) || (e.MakeCall? && !e.fault.Dropped? && Dropping(ctl, n))
  }

  predicate RowFate(s: State, e: Event, t': Tables, n: Name) {
    var rows, rows' := s.tables.rows, t'.rows;
    if n in rows && n in rows' then Stays(s.tables, s.approved, e, n, rows[n], rows'[n])
    else if n in rows then Leaves(s.ctl, e, n)
    else n in rows' ==> Arrives(s.tables, e, n, rows'[n])
  }

  /** What a call of the loop does to the tables. */
  lemma StepTables(c: Objects, t: Tables, reg: Registry.Servers, job: Job, f: Fault, lingers: bool, giveUp: bool)
    ensures var t', n := Step(c, t, reg, job, f, lingers, giveUp).tables, job.rec.name;
            || t' == t || t' == IncrementFailure(t, n, f).0 || t' == ResetFailures(t, n, f).0
            || (t' == Store.DeleteServer(t, n, f).0 && job.pc.RowDelete? && job.rec.row.config.Encoded?)
  {
  }

  /** Counting a failure ends the turn. */
  lemma CountingEndsTurn(c: Objects, t: Tables, reg: Registry.Servers, job: Job, f: Fault, lingers: bool, giveUp: bool)
    requires job.pc.FailureIncrement?
    ensures Step(c, t, reg, job, f, lingers, giveUp).next.None?
  {
  }

  lemma CallFate(s: State, e: Event, n: Name)
    requires e.MakeCall?
    ensures RowFate(s, e, Apply(s, e).tables, n)
  {
    if s.ctl.Rows? && s.ctl.job.Some? {
      StepTables(s.cluster, s.tables, s.registry, s.ctl.job.value, e.fault, e.lingers, e.giveUp);
      CountedFate(s, e, s.ctl.job.value, Apply(s, e).tables, n);
    }
  }

  lemma CountedFate(s: State, e: Event, job: Job, t': Tables, n: Name)
    requires e.MakeCall? && s.ctl.Rows? && s.ctl.job == Some(job)
    requires var t, m := s.tables, job.rec.name;
             || t' == t || t' == IncrementFailure(t, m, e.fault).0 || t' == ResetFailures(t, m, e.fault).0
             || (t' == Store.DeleteServer(t, m, e.fault).0 && job.pc.RowDelete? && job.rec.row.config.Encoded?)
    ensures RowFate(s, e, t', n)
  {
  }

  lemma DriftFate(t: Tables, drift: DriftCounts, m: Name, names: set<Name>, f: Fault, n: Name)
    ensures var t' := DriftEntry(t, drift, m, names, f).0;
            && (n in t.rows ==> n in t'.rows && t'.rows[n] == t.rows[n])
            && (n !in t.rows && n in t'.rows ==> t'.rows[n] == Tombstone(t, n) && t.rootUser in t.users)
  {
  }

  lemma LoopFate(s: State, e: Event, n: Name)
    requires IsLoopEvent(e)
    ensures RowFate(s, e, Apply(s, e).tables, n)
  {
    if e.MakeCall? {
      CallFate(s, e, n);
    } else if e.DriftOne? {
      if s.ctl.Drifting? && s.ctl.left != [] {
        DriftFate(s.tables, s.drift, s.ctl.left[0], s.ctl.names, e.fault, n);
      }
    }
  }

  lemma CreateFate(t: Tables, reg: Registry.Servers, owner: Name, m: Name, cfg: ValheimConfig, list: Fault, f: Fault,
      n: Name)
    ensures var t' := Api.Create(t, reg, owner, m, cfg, list, f).0;
            && t'.users == t.users && t'.rootUser == t.rootUser
            && (n in t.rows ==> n in t'.rows && t'.rows[n] == t.rows[n])
            && (n !in t.rows && n in t'.rows ==> Arrives(t, CreateServer(owner, m, cfg, list, f), n, t'.rows[n]))
  {
  }

  lemma UpdateFate(t: Tables, caller: Api.Caller, m: Name, cfg: ValheimConfig, f: Fault, n: Name)
    requires Api.Authentic(t, caller)
    ensures var t' := Api.UpdateConfig(t, caller, m, cfg, f).0;
            && t'.users == t.users && t'.rootUser == t.rootUser && (n in t'.rows <==> n in t.rows)
            && (n in t.rows ==> Stays(t, multiset{}, UpdateServerConfig(caller, m, cfg, f), n, t.rows[n], t'.rows[n]))
  {
  }

  lemma WriteFate(t: Tables, req: Api.Request, f: Fault, n: Name)
    ensures var t' := Api.Write(t, req, f).0;
            && t'.users == t.users && t'.rootUser == t.rootUser && (n in t'.rows <==> n in t.rows)
            && (n in t.rows ==> Stays(t, multiset{req}, Write(req, f), n, t.rows[n], t'.rows[n]))
  {
  }

  lemma ServerFate(s: State, e: Event, n: Name)
    requires ChangesServers(e)
    ensures var t' := TablesAfter(s, e);
            && t'.users == s.tables.users && t'.rootUser == s.tables.rootUser && RowFate(s, e, t', n)
  {
    if e.CreateServer? {
      CreateFate(s.tables, s.registry, e.owner, e.name, e.cfg, e.list, e.fault, n);
    } else if e.UpdateServerConfig? {
      if Api.Authentic(s.tables, e.caller) {
        UpdateFate(s.tables, e.caller, e.name, e.cfg, e.fault, n);
      }
    } else if e.request in s.approved {
      WriteFate(s.tables, e.request, e.fault, n);
    }
  }

  lemma UserFate(t: Tables, e: Event)
    requires ChangesUsers(e)
    ensures UserTables(t, e).rows == t.rows && UserTables(t, e).rootUser == t.rootUser
  {
  }

  lemma ServerEventFate(s: State, e: Event, n: Name)
    requires ChangesServers(e)
    ensures RowFate(s, e, Apply(s, e).tables, n)
  {
    ServerOutcome(s, e);
    ServerFate(s, e, n);
  }

  lemma OutsideFate(s: State, e: Event, n: Name)
    requires !IsLoopEvent(e)
    ensures RowFate(s, e, Apply(s, e).tables, n)
  {
    if ChangesServers(e) {
      ServerEventFate(s, e, n);
    } else if ChangesUsers(e) {
      UserFate(s.tables, e);
    } else if e.ResetDatabase? {
      ResetFate(s.tables, e.password, e.servers, e.users, e.admin);
    }
  }

  lemma ResetFate(t: Tables, password: string, servers: Fault, users: Fault, admin: Fault)
    ensures Api.Reset(t, password, servers, users, admin).0.rows == if servers.Dropped? then t.rows else map[]
  {
  }

  /** One event, one row. */
  lemma StepFate(s: State, e: Event, n: Name)
    ensures RowFate(s, e, Apply(s, e).tables, n)
  {
    if IsLoopEvent(e) {
      LoopFate(s, e, n);
    } else {
      OutsideFate(s, e, n);
    }
  }

  predicate SameUsers(t: Tables, t': Tables) {
    t'.users == t.users && t'.rootUser == t.rootUser
  }

  lemma CallKeepsUsers(c: Objects, t: Tables, reg: Registry.Servers, job: Job, f: Fault, lingers: bool, giveUp: bool)
    ensures SameUsers(t, Step(c, t, reg, job, f, lingers, giveUp).tables)
  {
    StepTables(c, t, reg, job, f, lingers, giveUp);
  }

  lemma LoopKeepsUsers(s: State, e: Event)
    requires IsLoopEvent(e)
    ensures SameUsers(s.tables, Apply(s, e).tables)
  {
    if e.MakeCall? {
      if s.ctl.Rows? && s.ctl.job.Some? {
        CallKeepsUsers(s.cluster, s.tables, s.registry, s.ctl.job.value, e.fault, e.lingers, e.giveUp);
      }
    }
  }

  /** Only user operations, resets and restarts touch the users. */
  lemma UsersStay(s: State, e: Event)
    requires !ChangesUsers(e) && !e.ResetDatabase? && !e.Restart?
    ensures SameUsers(s.tables, Apply(s, e).tables)
  {
    if IsLoopEvent(e) {
      LoopKeepsUsers(s, e);
    } else if ChangesServers(e) {
      ServerOutcome(s, e);
      ServerFate(s, e, "");
    }
  }

  /** n has a row all along the run. */
  ghost predicate LivesThrough(s: State, es: seq<Event>, n: Name)
    decreases |es|
  {
    n in s.tables.rows && (es != [] ==> LivesThrough(Apply(s, es[0]), es[1..], n))
  }

  /** A row's port and world name never change during its life. */
  lemma {:induction false} IdentityForLife(s: State, es: seq<Event>, n: Name)
    requires LivesThrough(s, es, n)
    ensures n in Run(s, es).tables.rows && IdentityOf(Run(s, es).tables.rows[n]) == IdentityOf(s.tables.rows[n])
    decreases |es|
  {
    if es != [] {
      StepFate(s, es[0], n);
      IdentityForLife(Apply(s, es[0]), es[1..], n);
    }
  }

  // Names.

  /** Creates and updates that keep the configured server name equal to the row's name. */
  predicate KeepsNames(e: Event) {
    && (e.CreateServer? ==> e.cfg.core.serverName == e.name)
    && (e.UpdateServerConfig? ==> e.cfg.core.serverName == e.name)
  }

  lemma FateKeepsNames(s: State, e: Event, t': Tables)
    requires RowsWellNamed(s.tables.rows) && KeepsNames(e) && forall n :: RowFate(s, e, t', n)
    ensures RowsWellNamed(t'.rows)
  {
    forall n | n in t'.rows ensures WellNamed(Record(n, t'.rows[n])) {
      assert RowFate(s, e, t', n);
      assert n in s.tables.rows ==> WellNamed(Record(n, s.tables.rows[n]));
    }
  }

  lemma StepKeepsNames(s: State, e: Event)
    requires RowsWellNamed(s.tables.rows) && KeepsNames(e)
    ensures RowsWellNamed(Apply(s, e).tables.rows)
  {
    var t' := Apply(s, e).tables;
    forall n ensures RowFate(s, e, t', n) {
      StepFate(s, e, n);
    }
    FateKeepsNames(s, e, t');
  }
}
