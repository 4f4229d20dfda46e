/** internal/db: the users and servers tables, their constraints and every statement on them. */
module Store {
  import opened Types
  import opened Cluster

  datatype Desired = Running | Stopped | Deleting

  /** The config_json column: decodable, or not. Encoding then decoding gives the configuration back. */
  datatype Column = Encoded(cfg: ValheimConfig) | Corrupt

  datatype Row = Row(owner: Name, config: Column, desired: Desired, purge: bool, failures: nat)

  /** One listed row. */
  datatype Record = Record(name: Name, row: Row)

  datatype User = User(password: string, isRoot: bool, isAdmin: bool, isSuspended: bool, mustChange: bool)

  /** rootUser: the user name the process was started with, kept in Store.rootUser. */
  datatype Tables = Tables(users: map<Name, User>, rows: map<Name, Row>, rootUser: Name)

  datatype DbError = ServerNotFound | ServerExists | UserNotFound | IsRoot | Constraint | Failed

  datatype DbReply = Ok | Err(error: DbError)

  /** One statement under a fault. */
  function Exec(t: Tables, after: (Tables, DbReply), f: Fault): (Tables, DbReply) {
    match f
    case Clean => after
    case Dropped => (t, Err(Failed))
    case Lost => (after.0, Err(Failed))
  }

  /** UPDATE servers ... WHERE name = n, when the row exists. */
  function SetRow(t: Tables, n: Name, r: Row, f: Fault): (Tables, DbReply) {
    Exec(t, (t.(rows := t.rows[n := r]), Ok), f)
  }

  /** The affected-rows test failed. */
  function NoRow(t: Tables, f: Fault): (Tables, DbReply) {
    Exec(t, (t, Err(ServerNotFound)), f)
  }

  function MarkDeleting(t: Tables, n: Name, purge: bool, f: Fault): (Tables, DbReply) {
    if n !in t.rows then NoRow(t, f) else SetRow(t, n, t.rows[n].(desired := Deleting, purge := purge), f)
  }

  function IncrementFailure(t: Tables, n: Name, f: Fault): (Tables, DbReply) {
    if n !in t.rows then NoRow(t, f) else SetRow(t, n, t.rows[n].(failures := t.rows[n].failures + 1), f)
  }

  function ResetFailures(t: Tables, n: Name, f: Fault): (Tables, DbReply) {
    if n !in t.rows then NoRow(t, f) else SetRow(t, n, t.rows[n].(failures := 0), f)
  }

  function UpdateState(t: Tables, n: Name, desired: Desired, f: Fault): (Tables, DbReply) {
    if n !in t.rows then NoRow(t, f) else SetRow(t, n, t.rows[n].(desired := desired), f)
  }

  function UpdateServerConfig(t: Tables, n: Name, cfg: ValheimConfig, f: Fault): (Tables, DbReply) {
    if n !in t.rows then NoRow(t, f) else SetRow(t, n, t.rows[n].(config := Encoded(cfg)), f)
  }

  /** The owner column references users, so an unknown owner violates the foreign key. */
  function TransferServer(t: Tables, n: Name, owner: Name, f: Fault): (Tables, DbReply) {
    if n !in t.rows then (t, Err(ServerNotFound))
    else if owner !in t.users then (t, Err(Constraint))
    else SetRow(t, n, t.rows[n].(owner := owner), f)
  }

  /** INSERT INTO servers: refused on a taken name or an unknown owner. */
  function InsertRow(t: Tables, n: Name, r: Row, f: Fault): (Tables, DbReply) {
    Exec(t, if n in t.rows || r.owner !in t.users then (t, Err(Constraint)) else (t.(rows := t.rows[n := r]), Ok), f)
  }

  function CreateServer(t: Tables, n: Name, owner: Name, cfg: ValheimConfig, f: Fault): (Tables, DbReply) {
    if n in t.rows then (t, Err(ServerExists))
    else InsertRow(t, n, Row(owner, Encoded(cfg), Running, false, 0), f)
  }

  function InsertOrphanTombstone(t: Tables, n: Name, cfg: ValheimConfig, f: Fault): (Tables, DbReply) {
    InsertRow(t, n, Row(t.rootUser, Encoded(cfg), Deleting, false, 0), f)
  }

  function DeleteServer(t: Tables, n: Name, f: Fault): (Tables, DbReply) {
    Exec(t, if n in t.rows then (t.(rows := t.rows - {n}), Ok) else (t, Err(ServerNotFound)), f)
  }

  function CreateUser(t: Tables, u: Name, password: string, isAdmin: bool, f: Fault): (Tables, DbReply) {
    Exec(t,
         if u in t.users then (t, Err(Constraint))
         else (t.(users := t.users[u := User(password, false, isAdmin, false, true)]), Ok),
         f)
  }

  /** The root check in front of Suspend, Unsuspend, Promote, Demote, ResetPassword and DeleteUser. */
  function RootCheck(t: Tables, u: Name): DbReply {
    if u !in t.users then Err(UserNotFound) else if t.users[u].isRoot then Err(IsRoot) else Ok
  }

  /** UPDATE users behind the root check. */
  function SetUser(t: Tables, u: Name, r: User, f: Fault): (Tables, DbReply) {
    if !RootCheck(t, u).Ok? then (t, RootCheck(t, u)) else Exec(t, (t.(users := t.users[u := r]), Ok), f)
  }

  function UserOr(t: Tables, u: Name): User {
    if u in t.users then t.users[u] else User("", false, false, false, false)
  }

  function SuspendUser(t: Tables, u: Name, f: Fault): (Tables, DbReply) {
    SetUser(t, u, UserOr(t, u).(isSuspended := true), f)
  }

  function UnsuspendUser(t: Tables, u: Name, f: Fault): (Tables, DbReply) {
    SetUser(t, u, UserOr(t, u).(isSuspended := false), f)
  }

  function PromoteUser(t: Tables, u: Name, f: Fault): (Tables, DbReply) {
    SetUser(t, u, UserOr(t, u).(isAdmin := true), f)
  }

  function DemoteUser(t: Tables, u: Name, f: Fault): (Tables, DbReply) {
    SetUser(t, u, UserOr(t, u).(isAdmin := false), f)
  }

  function ResetPassword(t: Tables, u: Name, password: string, f: Fault): (Tables, DbReply) {
    SetUser(t, u, UserOr(t, u).(password := password, mustChange := true), f)
  }

  /** UpdatePassword has no root check and no affected-rows test. */
  function UpdatePassword(t: Tables, u: Name, password: string, f: Fault): (Tables, DbReply) {
    Exec(t,
         (if u in t.users then t.(users := t.users[u := t.users[u].(password := password, mustChange := false)]) else t,
          Ok),
         f)
  }

  /** The foreign key keeps a user who still owns a server. */
  function DeleteUser(t: Tables, u: Name, f: Fault): (Tables, DbReply) {
    if !RootCheck(t, u).Ok? then (t, RootCheck(t, u))
    else if exists n | n in t.rows :: t.rows[n].owner == u then (t, Err(Constraint))
    else Exec(t, (t.(users := t.users - {u}), Ok), f)
  }

  /** INSERT of the configured root user. */
  function BootstrapAdmin(t: Tables, password: string, f: Fault): (Tables, DbReply) {
    Exec(t,
         if t.rootUser in t.users then (t, Err(Constraint))
         else (t.(users := t.users[t.rootUser := User(password, true, true, false, true)]), Ok),
         f)
  }

  /** migrate: the root user is only created in an empty users table; rootUser is always the name
      the process was started with. */
  function Open(users: map<Name, User>, rows: map<Name, Row>, admin: Name, password: string): Tables {
    var t := Tables(users, rows, admin);
    if users == map[] then BootstrapAdmin(t, password, Clean).0 else t
  }

  /** DELETE FROM servers, then DELETE FROM users. */
  function ResetDatabase(t: Tables, servers: Fault, users: Fault): (Tables, DbReply) {
    var (t', r) := Exec(t, (t.(rows := map[]), Ok), servers);
    if r.Ok? then Exec(t', (t'.(users := map[]), Ok), users) else (t', r)
  }

  ghost predicate IsListing(records: seq<Record>, rows: map<Name, Row>) {
    && (forall i, j | 0 <= i < j < |records| :: records[i].name != records[j].name)
    && (forall i | 0 <= i < |records| :: records[i].name in rows && records[i].row == rows[records[i].name])
    && (forall n | n in rows :: Record(n, rows[n]) in records)
  }
}
