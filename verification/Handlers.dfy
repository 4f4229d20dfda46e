/** What the handlers answer, status by status, and what they leave in the tables. */
module HandlerProofs {
  import opened Types
  import opened Cluster
  import opened Store
  import opened Ports
  import Api
  import Registry

  /** Neither the owner nor an admin. */
  predicate Stranger(caller: Api.Caller, row: Row) {
    caller.name != row.owner && !caller.isAdmin
  }

  /** The row is already what the start or stop asks for. */
  predicate AlreadyThere(row: Row, running: bool) {
    if running then row.desired.Running? else row.desired.Stopped?
  }

  /** Only the owner and root users may purge. */
  predicate MayNotPurge(caller: Api.Caller, row: Row, req: Api.Request) {
    req.Deletion? && req.purge && caller.name != row.owner && !caller.isRoot
  }

  /** What a deletion, start, stop or hand-over that goes through makes of the row. */
  predicate Granted(req: Api.Request, a: Row, b: Row) {
    match req
    case Deletion(_, purge) => b == Row(a.owner, a.config, Deleting, purge, a.failures)
    case StateChange(_, running) =>
      b == Row(a.owner, a.config, if running then Running else Stopped, a.purge, a.failures)
    case Transfer(_, owner) => b == Row(owner, a.config, a.desired, a.purge, a.failures)
  }

  /** Strangers get 403, and an owner or root alone may purge; a start of a running server and a stop of a
      stopped one get 409; a missing server or new owner 404; each of these changes nothing. Everything
      else is granted, unless the statement fails. */
  lemma RequestAnswers(t: Tables, caller: Api.Caller, req: Api.Request, f: Fault)
    ensures var (n, status) := (req.name, Api.Handle(t, caller, req, f).1);
            var known := n in t.rows;
            && (status == 403 <==>
                (known && (Stranger(caller, t.rows[n]) || MayNotPurge(caller, t.rows[n], req))))
            && (status == 409 <==>
                (known && !Stranger(caller, t.rows[n]) && req.StateChange? && AlreadyThere(t.rows[n], req.running)))
            && (status == 404 <==>
                (!known || (!Stranger(caller, t.rows[n]) && req.Transfer? && req.owner !in t.users)))
            && (status in {403, 404, 409} ==> Api.Handle(t, caller, req, f).0 == t)
            && (status !in {403, 404, 409} ==> status == if !f.Clean? then 500 else if req.Deletion? then 202 else 200)
  {
  }

  lemma RequestWrites(t: Tables, caller: Api.Caller, req: Api.Request, f: Fault)
    requires Api.Handle(t, caller, req, f).1 !in {403, 404, 409} && !f.Dropped?
    ensures var t' := Api.Handle(t, caller, req, f).0;
            && req.name in t.rows && t'.users == t.users && t'.rootUser == t.rootUser
            && t'.rows.Keys == t.rows.Keys && Granted(req, t.rows[req.name], t'.rows[req.name])
            && forall m | m in t.rows && m != req.name :: t'.rows[m] == t.rows[m]
  {
  }

  /** The row may be gone by the time of the write: nothing changes, and all but the hand-over say so. */
  lemma LateWriteFindsNothing(t: Tables, req: Api.Request, f: Fault)
    requires req.name !in t.rows
    ensures Api.Write(t, req, f) == (t, if f.Clean? && !req.Transfer? then 404 else 500)
  {
  }

  /** The password has at least five characters, and not both mod loaders are on. */
  predicate Acceptable(cfg: ValheimConfig) {
    |cfg.core.serverPass| > 4 && (cfg.mods.bepInEx ==> !cfg.mods.valheimPlus)
  }

  predicate MovesPortOrWorld(row: Row, cfg: ValheimConfig) {
    row.config.Encoded?
    && (cfg.core.serverPort != row.config.cfg.core.serverPort || cfg.core.worldName != row.config.cfg.core.worldName)
  }

  lemma UpdateAnswers(t: Tables, caller: Api.Caller, n: Name, cfg: ValheimConfig, f: Fault)
    ensures var status := Api.UpdateConfig(t, caller, n, cfg, f).1;
            var allowed := n in t.rows && !Stranger(caller, t.rows[n]);
            && (status == 404 <==> n !in t.rows)
            && (status == 403 <==> (n in t.rows && Stranger(caller, t.rows[n])))
            && (status == 400 <==> (allowed && (!Acceptable(cfg) || MovesPortOrWorld(t.rows[n], cfg))))
            && (status == 200 <==>
                (allowed && Acceptable(cfg) && t.rows[n].config.Encoded? && !MovesPortOrWorld(t.rows[n], cfg)
                 && f.Clean?))
            && status in {200, 400, 403, 404, 500}
  {
  }

  lemma UpdateWrites(t: Tables, caller: Api.Caller, n: Name, cfg: ValheimConfig, f: Fault)
    ensures var (t', status) := Api.UpdateConfig(t, caller, n, cfg, f);
            && (t' != t ==> status in {200, 500} && !f.Dropped?)
            && (status == 200 ==> n in t.rows && t' == t.(rows := t.rows[n := t.rows[n].(config := Encoded(cfg))]))
  {
  }

  /** A create is refused with 409 if the registry or the table knows the name, and accepted with the
      least port pair that rows and registry leave free. */
  lemma CreateAnswers(t: Tables, reg: Registry.Servers, owner: Name, n: Name, cfg: ValheimConfig, list: Fault, f: Fault)
    ensures var status := Api.Create(t, reg, owner, n, cfg, list, f).1;
            var free := list.Clean? && !Answers(t.rows, reg, None);
            && (status == 409 <==> (n in reg || (n in t.rows && free)))
            && (status == 202 <==> (n !in reg && n !in t.rows && owner in t.users && free && f.Clean?))
            && status in {202, 409, 500}
  {
    AllocationIff(t.rows, reg, None);
  }

  lemma CreateWrites(t: Tables, reg: Registry.Servers, owner: Name, n: Name, cfg: ValheimConfig, list: Fault, f: Fault)
      returns (p: int32)
    ensures var t' := Api.Create(t, reg, owner, n, cfg, list, f).0;
            t' != t ==>
              && n !in t.rows && Answers(t.rows, reg, Some(p))
              && t' == t.(rows := t.rows[n := Row(owner, Encoded(cfg.(core := cfg.core.(serverPort := p))), Running,
                                                  false, 0)])
    ensures var (t', status) := Api.Create(t, reg, owner, n, cfg, list, f); status == 202 ==> n in t'.rows
  {
    var port := Allocate(t.rows, reg);
    p := if port.Some? then port.value else 0;
    AllocationIff(t.rows, reg, port);
  }

  /** A reset that answers 200 leaves no server and one user: the configured root user, an admin who must
      change the password. */
  lemma ResetAnswers(t: Tables, password: string, servers: Fault, users: Fault, admin: Fault)
    ensures var (t', status) := Api.Reset(t, password, servers, users, admin);
            && (status == 200 <==> servers.Clean? && users.Clean? && admin.Clean?)
            && (status == 200 ==>
                  t' == Tables(map[t.rootUser := User(password, true, true, false, true)], map[], t.rootUser))
            && (status != 200 ==> status == 500)
  {
  }
}
