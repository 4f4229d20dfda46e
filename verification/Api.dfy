/** The handlers of internal/api/api.go that change state, after authentication and decoding. Each
    handler is a function on the tables, giving the HTTP status, and a method on the live objects. */
module Api {
  import opened Types
  import opened Cluster
  import opened Manager
  import opened Store
  import opened Database
  import opened Ports
  import opened Controller
  import Registry

  /** The authenticated user of a request. */
  datatype Caller = Caller(name: Name, isAdmin: bool, isRoot: bool)

  /** What the authentication middleware lets through to these handlers: an existing user who is not
      suspended and need not change the password first, with the flags of that moment. */
  predicate Authentic(t: Tables, caller: Caller) {
    caller.name in t.users
    && var u := t.users[caller.name];
       !u.isSuspended && !u.mustChange && caller.isAdmin == u.isAdmin && caller.isRoot == u.isRoot
  }

  predicate MayManage(caller: Caller, row: Row) {
    caller.name == row.owner || caller.isAdmin
  }

  function WithPort(cfg: ValheimConfig, p: int32): ValheimConfig {
    cfg.(core := cfg.core.(serverPort := p))
  }

  function StatusOf(r: DbReply, success: int): int {
    match r
    case Ok => success
    case Err(ServerNotFound) => 404
    case Err(ServerExists) => 409
    case Err(_) => 500
  }

  /** Allocation and insertion as one serial step. */
  function Create(t: Tables, reg: Registry.Servers, owner: Name, n: Name, cfg: ValheimConfig, list: Fault,
      f: Fault): (Tables, int) {
    if n in reg then (t, 409)
    else
      match if list.Clean? then Allocate(t.rows, reg) else None
      case None => (t, 500)
      case Some(p) =>
        var (t', r) := CreateServer(t, n, owner, WithPort(cfg, p), f);
        (t', StatusOf(r, 202))
  }

  predicate MayPurge(caller: Caller, row: Row) {
    caller.name == row.owner || caller.isRoot
  }

  /** A request to delete, to start or stop, or to hand over a server. Its handler first reads and
      checks, then makes one write. */
  datatype Request =
    | Deletion(name: Name, purge: bool)
    | StateChange(name: Name, running: bool)
    | Transfer(name: Name, owner: Name)

  function Wanted(running: bool): Desired {
    if running then Running else Stopped
  }

  /** The status of a refusal, if the checks refuse. Start and Stop refuse only a server already in
      the wanted state. */
  function Refusal(t: Tables, caller: Caller, req: Request): Option<int> {
    if req.name !in t.rows then Some(404)
    else if !MayManage(caller, t.rows[req.name]) then Some(403)
    else
      match req
      case Deletion(n, purge) => if purge && !MayPurge(caller, t.rows[n]) then Some(403) else None
      case StateChange(n, running) => if t.rows[n].desired == Wanted(running) then Some(409) else None
      case Transfer(_, owner) => if owner !in t.users then Some(404) else None
  }

  /** The write of a request that was not refused, whatever has happened since. */
  function Write(t: Tables, req: Request, f: Fault): (Tables, int) {
    match req
    case Deletion(n, purge) => (var (t', r) := MarkDeleting(t, n, purge, f); (t', StatusOf(r, 202)))
    case StateChange(n, running) => (var (t', r) := UpdateState(t, n, Wanted(running), f); (t', StatusOf(r, 200)))
    case Transfer(n, owner) => (var (t', r) := TransferServer(t, n, owner, f); (t', if r.Ok? then 200 else 500))
  }

  /** Both halves with nothing in between. */
  function Handle(t: Tables, caller: Caller, req: Request, f: Fault): (Tables, int) {
    match Refusal(t, caller, req)
    case Some(status) => (t, status)
    case None => Write(t, req, f)
  }

  /** The new configuration must keep the port and the world name; nothing keeps the server name. */
  function UpdateConfig(t: Tables, caller: Caller, n: Name, cfg: ValheimConfig, f: Fault): (Tables, int) {
    if n !in t.rows then (t, 404)
    else if !MayManage(caller, t.rows[n]) then (t, 403)
    else if !cfg.Valid() then (t, 400)
    else
      match t.rows[n].config
      case Corrupt => (t, 500)
      case Encoded(current) =>
        if cfg.core.serverPort != current.core.serverPort || cfg.core.worldName != current.core.worldName then (t, 400)
        else
          var (t', r) := UpdateServerConfig(t, n, cfg, f);
          (t', StatusOf(r, 200))
  }

  /** The reset endpoint of cmd/server: clear both tables, then create the configured root user. */
  function Reset(t: Tables, password: string, servers: Fault, users: Fault, admin: Fault): (Tables, int) {
    var (t1, r1) := ResetDatabase(t, servers, users);
    if !r1.Ok? then (t1, 500) else
    var (t2, r2) := BootstrapAdmin(t1, password, admin);
    (t2, if r2.Ok? then 200 else 500)
  }

  class ApiConfig {
    const db: Database
    const registry: Registry.ServerRegistry
    const clientset: Clientset
    const trigger: Trigger
    const namespace: string

    constructor (db: Database, registry: Registry.ServerRegistry, clientset: Clientset, trigger: Trigger,
        namespace: string)
      ensures this.db == db && this.registry == registry && this.clientset == clientset
      ensures this.trigger == trigger && this.namespace == namespace
    {
      this.db, this.registry, this.clientset := db, registry, clientset;
      this.trigger, this.namespace := trigger, namespace;
    }

    /** The entry of a server whose deletion was accepted. */
    function Departing(e: Registry.Entry): Registry.Entry {
      e.(deployment := e.deployment.(status := Registry.Deleting))
    }

    /** The entry the create handler puts up before any informer has seen the server. */
    function Provisional(e: Registry.Entry): Registry.Entry {
      e.(deployment :=
          e.deployment.(status := Registry.Provisioning, replicas := MAX_REPLICAS, namespace := this.namespace))
    }

    method CreateGameServer(owner: Name, n: Name, cfg: ValheimConfig, list: Fault, f: Fault) returns (status: int)
      requires trigger.Valid()
      modifies db, registry, trigger
      ensures trigger.Valid()
      ensures (db.State(), status) == Create(old(db.State()), old(registry.servers), owner, n, cfg, list, f)
      ensures status == 202 ==>
                && trigger.tokens == 1 && n !in old(registry.servers)
                && registry.servers == old(registry.servers)[n := Registry.Entry(
                     Registry.DeploymentPart(Registry.Provisioning, 1, 0, namespace),
                     Registry.ServicePart(0, 0), Registry.PodPart("", 0, None, ""))]
      ensures status != 202 ==> trigger.tokens == old(trigger.tokens) && registry.servers == old(registry.servers)
    {
      var known := registry.Get(n);
      if known.Some? { return 409; }
      var port := AllocateServerPort(db, registry, list);
      if port.None? { return 500; }
      var r := db.CreateServer(n, owner, WithPort(cfg, port.value), f);
      if r != Ok { return StatusOf(r, 202); }
      registry.Upsert(n, (e: Registry.Entry) => this.Provisional(e));
      trigger.Poke();
      return 202;
    }

    method DeleteGameServer(caller: Caller, n: Name, purge: bool, f: Fault) returns (status: int)
      requires trigger.Valid()
      modifies db, registry, trigger
      ensures trigger.Valid() && (db.State(), status) == Handle(old(db.State()), caller, Deletion(n, purge), f)
      ensures status == 202 ==> trigger.tokens == 1
      ensures status != 202 ==> trigger.tokens == old(trigger.tokens)
      ensures status != 202 || n !in old(registry.servers) ==> registry.servers == old(registry.servers)
      ensures status == 202 && n in old(registry.servers) ==>
                var e := old(registry.servers)[n];
                registry.servers
                == old(registry.servers)[n := e.(deployment := e.deployment.(status := Registry.Deleting))]
    {
      var row := db.GetServer(n);
      if row.None? { return 404; }
      if caller.name != row.value.owner && !caller.isAdmin { return 403; }
      if purge && caller.name != row.value.owner && !caller.isRoot { return 403; }
      var r := db.MarkDeleting(n, purge, f);
      if r != Ok { return StatusOf(r, 202); }
      var known := registry.Get(n);
      if known.Some? {
        registry.Upsert(n, (e: Registry.Entry) => this.Departing(e));
      }
      trigger.Poke();
      return 202;
    }

    /** HandlerStartGameServer and HandlerStopGameServer. */
    method SetGameServerState(caller: Caller, n: Name, running: bool, f: Fault) returns (status: int)
      requires trigger.Valid()
      modifies db, trigger
      ensures trigger.Valid() && (db.State(), status) == Handle(old(db.State()), caller, StateChange(n, running), f)
      ensures trigger.tokens == if status == 200 then 1 else old(trigger.tokens)
    {
      var row := db.GetServer(n);
      if row.None? { return 404; }
      if caller.name != row.value.owner && !caller.isAdmin { return 403; }
      if row.value.desired == Wanted(running) { return 409; }
      var r := db.UpdateState(n, Wanted(running), f);
      if r != Ok { return StatusOf(r, 200); }
      trigger.Poke();
      return 200;
    }

    method UpdateGameServerConfig(caller: Caller, n: Name, cfg: ValheimConfig, f: Fault) returns (status: int)
      requires trigger.Valid()
      modifies db, trigger
      ensures trigger.Valid() && (db.State(), status) == UpdateConfig(old(db.State()), caller, n, cfg, f)
      ensures trigger.tokens == if status == 200 then 1 else old(trigger.tokens)
    {
      var row := db.GetServer(n);
      if row.None? { return 404; }
      if caller.name != row.value.owner && !caller.isAdmin { return 403; }
      if !cfg.Valid() { return 400; }
      if row.value.config.Corrupt? { return 500; }
      var current := row.value.config.cfg;
      if cfg.core.serverPort != current.core.serverPort { return 400; }
      if cfg.core.worldName != current.core.worldName { return 400; }
      var r := db.UpdateServerConfig(n, cfg, f);
      if r != Ok { return StatusOf(r, 200); }
      trigger.Poke();
      return 200;
    }

    method TransferGameServer(caller: Caller, n: Name, owner: Name, f: Fault) returns (status: int)
      modifies db
      ensures (db.State(), status) == Handle(old(db.State()), caller, Transfer(n, owner), f)
    {
      var row := db.GetServer(n);
      if row.None? { return 404; }
      if caller.name != row.value.owner && !caller.isAdmin { return 403; }
      if owner !in db.users { return 404; }
      var r := db.TransferServer(n, owner, f);
      return if r.Ok? then 200 else 500;
    }

    method ResetAll(password: string, serversFault: Fault, usersFault: Fault, adminFault: Fault) returns (status: int)
      requires trigger.Valid()
      modifies db, trigger
      ensures trigger.Valid()
      ensures (db.State(), status) == Reset(old(db.State()), password, serversFault, usersFault, adminFault)
      ensures trigger.tokens == if status == 200 then 1 else old(trigger.tokens)
    {
      var r := db.ResetDatabase(serversFault, usersFault);
      if r != Ok { return 500; }
      r := db.BootstrapAdmin(password, adminFault);
      if r != Ok { return 500; }
      trigger.Poke();
      return 200;
    }

    /** The purge handler's two halves run as one step here; between them others may act. */
    method DeletePVC(n: Name, confirm: bool, f: Fault) returns (status: int)
      modifies clientset
      ensures n in db.rows || !confirm ==> clientset.State() == old(clientset.State()) && status in {400, 409}
      ensures n !in db.rows && confirm ==>
                var (s, r) := Perform(old(clientset.State().At(n)), DeleteVolume, true, f);
                && clientset.State() == old(clientset.State()).Put(n, s)
                && status == if r.Done? then 200 else if r.NotFound? then 404 else 500
    {
      var row := db.GetServer(n);
      if row.Some? { return 409; }
      if !confirm { return 400; }
      var r := clientset.Do(n, DeleteVolume, f);
      return if r.Done? then 200 else if r.NotFound? then 404 else 500;
    }
  }
}
