/** The whole operator as a state machine: handlers, informers, the environment and the reconcile
    loop interleave at every call. A run is any sequence of events; an event that is not possible in
    a state leaves it unchanged. */
module Machine {
  import opened Types
  import opened Builder
  import opened Cluster
  import opened Manager
  import opened Store
  import opened Converge
  import Api
  import Registry

  /** The row being converged and the call it is about to make. */
  datatype Job = Job(rec: Record, pc: Call)

  /** Where the reconcile loop is: waiting; woken but not yet listing; converging the listed rows;
      in the drift pass. names are the names of the listed rows. */
  datatype Ctl =
    | Idle
    | Woken
    | Rows(todo: seq<Record>, job: Option<Job>, names: set<Name>)
    | Drifting(left: seq<Name>, names: set<Name>)

  /** What happened, for stating properties; only Poke reads of it, which pokes are owed.
      writes: accepted writes of poking handlers, which are numbered. owed: those whose handler has yet
      to poke. poked: those whose handler has poked. seen: how many writes the last listing saw.
      snapshots: the row names of every pass. misses: for a server, the passes whose drift loop found
      it without a row, since its count was last reset. A restart takes the handlers along, and so the
      pokes they owe. */
  datatype History = History(
    writes: nat,
    owed: set<nat>,
    poked: set<nat>,
    seen: nat,
    snapshots: seq<set<Name>>,
    misses: map<Name, seq<nat>>)

  /** approved: requests whose handlers have checked and not yet written. purging: purge handlers that
      have checked and not yet deleted. */
  datatype State = State(
    tables: Tables,
    cluster: Objects,
    registry: Registry.Servers,
    drift: DriftCounts,
    ctl: Ctl,
    tokens: nat,
    approved: multiset<Api.Request>,
    purging: set<Name>,
    hist: History)

  datatype Event =
    // Handlers.
    | CreateServer(owner: Name, name: Name, cfg: ValheimConfig, list: Fault, fault: Fault)
    | UpdateServerConfig(caller: Api.Caller, name: Name, cfg: ValheimConfig, fault: Fault)
    | Check(caller: Api.Caller, request: Api.Request)
    | Write(request: Api.Request, fault: Fault)
    | Poke(write: nat)
    | PurgeCheck(caller: Api.Caller, name: Name)
    | PurgeDelete(name: Name, fault: Fault)
    | CreateUser(user: Name, password: string, isAdmin: bool, fault: Fault)
    | DeleteUser(user: Name, fault: Fault)
    | SuspendUser(user: Name, fault: Fault)
    | UnsuspendUser(user: Name, fault: Fault)
    | PromoteUser(user: Name, fault: Fault)
    | DemoteUser(user: Name, fault: Fault)
    | ResetPassword(user: Name, password: string, fault: Fault)
    | UpdatePassword(user: Name, password: string, fault: Fault)
    | ResetDatabase(password: string, servers: Fault, users: Fault, admin: Fault)
    // Informers and environment.
    | RegistryChange(name: Name, entry: Option<Registry.Entry>)
    | DeploymentGone(name: Name)
    | Restart(rootUser: Name, password: string)
    // The reconcile loop.
    | Tick
    | Receive
    | ListRows(records: seq<Record>, fault: Fault)
    | NextRow
    | MakeCall(fault: Fault, lingers: bool, giveUp: bool)
    | ListRegistry(entries: seq<Name>)
    | DriftOne(fault: Fault)

  /** The first call for a row; an undecodable row only counts a failure. */
  function FirstCall(row: Row): Call {
    if row.config.Corrupt? then FailureIncrement
    else if row.desired.Deleting? || HardResetDue(row) then DeploymentDelete
    else NamespaceCreate
  }

  /** The objects after a call and the next call, if any. */
  datatype Turn = Turn(cluster: Objects, tables: Tables, next: Option<Call>)

  /** The writing call behind a program point, and the name it is made under: the manager uses the
      configured server name, the scaling the row's name. */
  function OpAt(rec: Record, cfg: ValheimConfig, pc: Call, lingers: bool): Option<Op> {
    match pc
    case VolumeCreate => Some(CreateVolume)
    case SecretCreate => Some(CreateSecret(cfg.core.serverPass))
    case ConfigMapCreate => Some(CreateConfigMap(EnvOf(cfg)))
    case ServiceCreate => Some(CreateService(cfg.core.serverPort))
    case DeploymentCreate => Some(CreateDeployment(HashCfg(cfg), MAX_REPLICAS))
    case ConfigMapUpdate => Some(UpdateConfigMap(EnvOf(cfg)))
    case SecretUpdate => Some(UpdateSecret(cfg.core.serverPass))
    case MarkerUpdate => Some(UpdateMarker(HashCfg(cfg)))
    case ScaleUpdate => Some(UpdateReplicas(TargetReplicas(rec.row.desired)))
    case DeploymentDelete => Some(DeleteDeployment(lingers))
    case ServiceDelete => Some(DeleteService)
    case ConfigMapDelete => Some(DeleteConfigMap)
    case SecretDelete => Some(DeleteSecret)
    case VolumeDelete => Some(DeleteVolume)
    case _ => None
  }

  function NameAt(rec: Record, cfg: ValheimConfig, pc: Call): Name {
    if pc.ScaleUpdate? then rec.name else cfg.core.serverName
  }

  /** Whether the caller goes on after this reply. */
  predicate Accepts(pc: Call, r: Reply) {
    match pc
    case VolumeCreate => Created(r)
    case SecretCreate => Created(r)
    case ConfigMapCreate => Created(r)
    case ServiceCreate => Created(r)
    case DeploymentCreate => Created(r)
    case DeploymentDelete => Gone(r)
    case ServiceDelete => Gone(r)
    case ConfigMapDelete => Gone(r)
    case SecretDelete => Gone(r)
    case VolumeDelete => Gone(r)
    case _ => r.Done?
  }

  /** The call after an accepted writing call. */
  function AfterWrite(row: Row, pc: Call): Call {
    match pc
    case VolumeCreate => SecretCreate
    case SecretCreate => ConfigMapCreate
    case ConfigMapCreate => ServiceGet
    case ServiceCreate => DeploymentCreate
    case DeploymentCreate => if HardResetDue(row) then ScaleCheck else HashGet
    case ConfigMapUpdate => SecretUpdate
    case SecretUpdate => MarkerGet
    case MarkerUpdate => ScaleCheck
    case ScaleUpdate => FailuresReset
    case DeploymentDelete => ServiceDelete
    case ServiceDelete => ConfigMapDelete
    case ConfigMapDelete => SecretDelete
    case SecretDelete => if !row.desired.Deleting? then PollGet else if row.purge then VolumeDelete else RowDelete
    case _ => RowDelete
  }

  /** The reads and the calls outside the server's objects. */
  function OtherCall(c: Objects, t: Tables, reg: Registry.Servers, rec: Record, cfg: ValheimConfig, pc: Call, f: Fault,
      giveUp: bool): Turn {
    var slot := c.At(rec.name);
    match pc
    case NamespaceCreate =>
      Turn(if f.Dropped? then c else c.(namespace := true), t,
          Some(if f.Clean? then VolumeCreate else FailureIncrement))
    case ServiceGet =>
      (match Read(c.At(cfg.core.serverName).service.Some?, f)
       case Done => Turn(c, t, Some(DeploymentCreate))
       case NotFound => Turn(c, t, Some(ServiceCreate))
       case _ => Turn(c, t, Some(FailureIncrement)))
    case HashGet =>
      if Read(slot.deployment.Some?, f).Refused? then Turn(c, t, Some(FailureIncrement))
      else
        var known := slot.deployment.Some? && slot.deployment.value.marker == Some(HashCfg(cfg));
        Turn(c, t, Some(if known then ScaleCheck else ConfigMapUpdate))
    case MarkerGet =>
      var found := Read(c.At(cfg.core.serverName).deployment.Some?, f).Done?;
      Turn(c, t, Some(if found then MarkerUpdate else FailureIncrement))
    case ScaleCheck =>
      var scaled := rec.name !in reg || reg[rec.name].deployment.replicas == TargetReplicas(rec.row.desired);
      Turn(c, t, Some(if scaled then FailuresReset else ScaleGet))
    case ScaleGet => Turn(c, t, Some(if Read(slot.deployment.Some?, f).Done? then ScaleUpdate else FailureIncrement))
    case PollGet =>
      (match Read(c.At(cfg.core.serverName).deployment.Some?, f)
       case NotFound => Turn(c, t, Some(NamespaceCreate))
       case Done => Turn(c, t, Some(if giveUp then FailureIncrement else PollGet))
       case _ => Turn(c, t, Some(FailureIncrement)))
    case FailuresReset =>
      var (t', r) := ResetFailures(t, rec.name, f);
      Turn(c, t', if r.Ok? then None else Some(FailureIncrement))
    case RowDelete =>
      var (t', r) := Store.DeleteServer(t, rec.name, f);
      Turn(c, t', if r.Ok? then None else Some(FailureIncrement))
    case _ => Turn(c, IncrementFailure(t, rec.name, f).0, None)
  }

  function WriteCall(c: Objects, t: Tables, rec: Record, cfg: ValheimConfig, pc: Call, op: Op, f: Fault): Turn {
    var n := NameAt(rec, cfg, pc);
    var (s, r) := Perform(c.At(n), op, c.Admits(n, op), f);
    Turn(c.Put(n, s), t, Some(if Accepts(pc, r) then AfterWrite(rec.row, pc) else FailureIncrement))
  }

  /** One call of the reconcile loop. */
  function Step(c: Objects, t: Tables, reg: Registry.Servers, job: Job, f: Fault, lingers: bool, giveUp: bool): Turn {
    match job.rec.row.config
    case Corrupt => Turn(c, IncrementFailure(t, job.rec.name, f).0, None)
    case Encoded(cfg) =>
      match OpAt(job.rec, cfg, job.pc, lingers)
      case Some(op) => WriteCall(c, t, job.rec, cfg, job.pc, op, f)
      case None => OtherCall(c, t, reg, job.rec, cfg, job.pc, f, giveUp)
  }

  /** A handler's outcome; an accepted write of a poking handler owes a poke. */
  function Handled(s: State, r: (Tables, int), pokes: bool): State {
    var s' := s.(tables := r.0);
    if pokes && (r.1 == 200 || r.1 == 202) then
      s'.(hist := s.hist.(writes := s.hist.writes + 1, owed := s.hist.owed + {s.hist.writes}))
    else s'
  }

  function MissesOf(h: History, n: Name): seq<nat> {
    if n in h.misses then h.misses[n] else []
  }

  /** One turn of the drift loop. */
  function DriftTurn(s: State, n: Name, left: seq<Name>, names: set<Name>, f: Fault): State {
    var (t, drift) := DriftEntry(s.tables, s.drift, n, names, f);
    var misses :=
      if n in drift then s.hist.misses[n := MissesOf(s.hist, n) + [|s.hist.snapshots|]] else s.hist.misses - {n};
    s.(tables := t, drift := drift, ctl := if left == [] then Idle else Drifting(left, names),
        hist := s.hist.(misses := misses))
  }

  predicate ChangesServers(e: Event) {
    e.CreateServer? || e.UpdateServerConfig? || e.Write?
  }

  /** The write of a handler that changes the servers table. */
  function Outcome(s: State, e: Event): (Tables, int)
    requires ChangesServers(e)
  {
    match e
    case CreateServer(owner, n, cfg, list, f) => Api.Create(s.tables, s.registry, owner, n, cfg, list, f)
    case UpdateServerConfig(caller, n, cfg, f) =>
      if Api.Authentic(s.tables, caller) then Api.UpdateConfig(s.tables, caller, n, cfg, f) else (s.tables, 401)
    case Write(req, f) => Api.Write(s.tables, req, f)
  }

  function ServerEvent(s: State, e: Event): State
    requires ChangesServers(e)
  {
    if !e.Write? then Handled(s, Outcome(s, e), true)
    else if e.request !in s.approved then s
    else Handled(s.(approved := s.approved - multiset{e.request}), Outcome(s, e), !e.request.Transfer?)
  }

  predicate ChangesUsers(e: Event) {
    || e.CreateUser? || e.DeleteUser? || e.SuspendUser? || e.UnsuspendUser? || e.PromoteUser? || e.DemoteUser?
    || e.ResetPassword? || e.UpdatePassword?
  }

  function UserTables(t: Tables, e: Event): Tables
    requires ChangesUsers(e)
  {
    match e
    case CreateUser(u, password, isAdmin, f) => Store.CreateUser(t, u, password, isAdmin, f).0
    case DeleteUser(u, f) => Store.DeleteUser(t, u, f).0
    case SuspendUser(u, f) => Store.SuspendUser(t, u, f).0
    case UnsuspendUser(u, f) => Store.UnsuspendUser(t, u, f).0
    case PromoteUser(u, f) => Store.PromoteUser(t, u, f).0
    case DemoteUser(u, f) => Store.DemoteUser(t, u, f).0
    case ResetPassword(u, password, f) => Store.ResetPassword(t, u, password, f).0
    case UpdatePassword(u, password, f) => Store.UpdatePassword(t, u, password, f).0
  }

  function HandlerEvent(s: State, e: Event): State {
    match e
    case Check(caller, req) =>
      if Api.Authentic(s.tables, caller) && Api.Refusal(s.tables, caller, req).None? then
        s.(approved := s.approved + multiset{req})
      else s
    case Poke(w) =>
      if w in s.hist.owed then
        s.(tokens := if s.tokens < 1 then s.tokens + 1 else s.tokens,
            hist := s.hist.(owed := s.hist.owed - {w}, poked := s.hist.poked + {w}))
      else s
    case PurgeCheck(caller, n) =>
      if Api.Authentic(s.tables, caller) && caller.isRoot && n !in s.tables.rows then s.(purging := s.purging + {n})
      else s
    case PurgeDelete(n, f) =>
      if n !in s.purging then s
      else s.(cluster := s.cluster.Put(n, Perform(s.cluster.At(n), DeleteVolume, true, f).0),
          purging := s.purging - {n})
    case ResetDatabase(password, servers, users, admin) =>
      Handled(s, Api.Reset(s.tables, password, servers, users, admin), true)
    case _ => s
  }

  function WorldEvent(s: State, e: Event): State {
    match e
    case RegistryChange(n, entry) =>
      s.(registry := if entry.Some? then s.registry[n := entry.value] else s.registry - {n})
    case DeploymentGone(n) => s.(cluster := s.cluster.Put(n, Finalize(s.cluster.At(n))))
    case Restart(rootUser, password) =>
      State(Open(s.tables.users, s.tables.rows, rootUser, password), s.cluster, map[], map[], Idle, 0, multiset{}, {},
            s.hist.(owed := {}, misses := map[]))
    case _ => s
  }

  function AfterTurn(s: State, rec: Record, r: Turn): State
    requires s.ctl.Rows?
  {
    s.(cluster := r.cluster, tables := r.tables,
        ctl := s.ctl.(job := if r.next.Some? then Some(Job(rec, r.next.value)) else None))
  }

  ghost function LoopEvent(s: State, e: Event): State {
    match e
    case Tick => if s.ctl.Idle? then s.(ctl := Woken) else s
    case Receive => if s.ctl.Idle? && s.tokens > 0 then s.(ctl := Woken, tokens := s.tokens - 1) else s
    case ListRows(records, f) =>
      if !s.ctl.Woken? then s
      else if !f.Clean? then s.(ctl := Idle)
      else if !IsListing(records, s.tables.rows) then s
      else
        s.(ctl := Rows(records, None, RecordNames(records)),
           hist := s.hist.(seen := s.hist.writes, snapshots := s.hist.snapshots + [RecordNames(records)]))
    case NextRow =>
      if s.ctl.Rows? && s.ctl.job.None? && s.ctl.todo != [] then
        s.(ctl := Rows(s.ctl.todo[1..], Some(Job(s.ctl.todo[0], FirstCall(s.ctl.todo[0].row))), s.ctl.names))
      else s
    case MakeCall(f, lingers, giveUp) =>
      if s.ctl.Rows? && s.ctl.job.Some? then
        AfterTurn(s, s.ctl.job.value.rec, Step(s.cluster, s.tables, s.registry, s.ctl.job.value, f, lingers, giveUp))
      else s
    case ListRegistry(entries) =>
      if s.ctl.Rows? && s.ctl.job.None? && s.ctl.todo == [] && Lists(entries, s.registry.Keys) then
        s.(ctl := if entries == [] then Idle else Drifting(entries, s.ctl.names))
      else s
    case DriftOne(f) =>
      if s.ctl.Drifting? && s.ctl.left != [] then DriftTurn(s, s.ctl.left[0], s.ctl.left[1..], s.ctl.names, f) else s
    case _ => s
  }

  predicate IsLoopEvent(e: Event) {
    e.Tick? || e.Receive? || e.ListRows? || e.NextRow? || e.MakeCall? || e.ListRegistry? || e.DriftOne?
  }

  predicate IsWorldEvent(e: Event) {
    e.RegistryChange? || e.DeploymentGone? || e.Restart?
  }

  ghost function Apply(s: State, e: Event): State {
    if IsLoopEvent(e) then LoopEvent(s, e)
    else if IsWorldEvent(e) then WorldEvent(s, e)
    else if ChangesServers(e) then ServerEvent(s, e)
    else if ChangesUsers(e) then s.(tables := UserTables(s.tables, e))
    else HandlerEvent(s, e)
  }

  function TablesAfter(s: State, e: Event): Tables
    requires ChangesServers(e)
  {
    if e.Write? && e.request !in s.approved then s.tables else Outcome(s, e).0
  }

  /** Nothing has changed but the tables, the approvals and the owed pokes. */
  predicate OnlyWrote(s: State, s': State, t: Tables) {
    && s'.tables == t && s'.cluster == s.cluster && s'.registry == s.registry
    && s'.ctl == s.ctl && s'.drift == s.drift && s'.purging == s.purging && s'.tokens == s.tokens
    && s'.approved <= s.approved
    && s'.hist.misses == s.hist.misses && s'.hist.snapshots == s.hist.snapshots
  }

  lemma HandledOnlyWrote(s: State, r: (Tables, int), pokes: bool)
    ensures OnlyWrote(s, Handled(s, r, pokes), r.0)
  {
  }

  lemma WriteOutcome(s: State, req: Api.Request, f: Fault, r: (Tables, int))
    requires req in s.approved && r == Api.Write(s.tables, req, f)
    ensures OnlyWrote(s, Apply(s, Write(req, f)), r.0)
  {
    var s' := s.(approved := s.approved - multiset{req});
    HandledOnlyWrote(s', r, !req.Transfer?);
    assert Apply(s, Write(req, f)) == Handled(s', r, !req.Transfer?);
  }

  lemma ServerOutcome(s: State, e: Event)
    requires ChangesServers(e)
    ensures OnlyWrote(s, Apply(s, e), TablesAfter(s, e))
  {
    var r := Outcome(s, e);
    if !e.Write? {
      HandledOnlyWrote(s, r, true);
      assert Apply(s, e) == Handled(s, r, true);
    } else if e.request in s.approved {
      WriteOutcome(s, e.request, e.fault, r);
    }
  }

  /** A new installation: one root user, no servers, no objects. */
  function Install(rootUser: Name, password: string): State {
    State(Open(map[], map[], rootUser, password), Objects(false, map[]), map[], map[], Idle, 0, multiset{}, {},
        History(0, {}, {}, 0, [], map[]))
  }

  ghost function Run(s: State, es: seq<Event>): State
    decreases |es|
  {
    if es == [] then s else Run(Apply(s, es[0]), es[1..])
  }

  lemma RunFirst(s: State, e: Event, es: seq<Event>)
    ensures Run(s, [e] + es) == Run(Apply(s, e), es)
  {
    assert ([e] + es)[1..] == es;
  }

  lemma RunThree(s: State, a: Event, b: Event, c: Event)
    ensures Run(s, [a, b, c]) == Apply(Apply(Apply(s, a), b), c)
  {
    RunFirst(s, a, [b] + ([c] + []));
    RunFirst(Apply(s, a), b, [c] + []);
    RunFirst(Apply(Apply(s, a), b), c, []);
    assert [a, b, c] == [a] + ([b] + ([c] + []));
  }

  lemma RunFive(s: State, a: Event, b: Event, c: Event, d: Event, e: Event)
    ensures Run(s, [a, b, c, d, e]) == Apply(Apply(Apply(Apply(Apply(s, a), b), c), d), e)
  {
    RunFirst(s, a, [b] + [c, d, e]);
    RunFirst(Apply(s, a), b, [c, d, e]);
    RunThree(Apply(Apply(s, a), b), c, d, e);
    assert [a, b, c, d, e] == [a] + ([b] + [c, d, e]);
  }

  lemma {:induction false} RunSplits(s: State, a: seq<Event>, b: seq<Event>)
    ensures Run(s, a + b) == Run(Run(s, a), b)
    decreases |a|
  {
    if a == [] {
      assert a + b == b;
    } else {
      assert (a + b)[1..] == a[1..] + b;
      RunSplits(Apply(s, a[0]), a[1..], b);
    }
  }

  lemma RunLast(s: State, es: seq<Event>, e: Event)
    ensures Run(s, es + [e]) == Apply(Run(s, es), e)
  {
    RunSplits(s, es, [e]);
    RunFirst(Run(s, es), e, []);
    assert [e] + [] == [e];
  }
}
