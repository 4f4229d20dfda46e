/** The store object of internal/db: one method per statement, over the two tables. */
module Database {
  import opened Types
  import opened Cluster
  import opened Store

  class Database {
    var users: map<Name, User>
    var rows: map<Name, Row>
    const rootUser: Name

    function State(): Tables
      reads this
    {
      Tables(users, rows, rootUser)
    }

    constructor (users: map<Name, User>, rows: map<Name, Row>, admin: Name, password: string)
      ensures State() == Open(users, rows, admin, password)
    {
      this.rootUser := admin;
      this.rows := rows;
      this.users := if users == map[] then map[admin := User(password, true, true, false, true)] else users;
    }

    /** UPDATE servers SET edit WHERE name = n, and the test on the number of affected rows. */
    method Update(n: Name, edit: Row -> Row, f: Fault) returns (r: DbReply)
      modifies this`rows
      ensures rows == if n in old(rows) && !f.Dropped? then old(rows)[n := edit(old(rows)[n])] else old(rows)
      ensures r == if !f.Clean? then Err(Failed) else if n in old(rows) then Ok else Err(ServerNotFound)
    {
      if f.Dropped? { return Err(Failed); }
      var affected := 0;
      if n in rows {
        rows := rows[n := edit(rows[n])];
        affected := 1;
      }
      if f.Lost? { return Err(Failed); }
      if affected == 0 { return Err(ServerNotFound); }
      return Ok;
    }

    /** INSERT INTO servers, under the primary key and the foreign key. */
    method Insert(n: Name, row: Row, f: Fault) returns (r: DbReply)
      modifies this`rows
      ensures rows == if n in old(rows) || row.owner !in users || f.Dropped? then old(rows) else old(rows)[n := row]
      ensures r ==
                if !f.Clean? then Err(Failed)
                else if n in old(rows) || row.owner !in users then Err(Constraint)
                else Ok
    {
      if f.Dropped? { return Err(Failed); }
      var violated := n in rows || row.owner !in users;
      if !violated {
        rows := rows[n := row];
      }
      if f.Lost? { return Err(Failed); }
      if violated { return Err(Constraint); }
      return Ok;
    }

    method GetServer(n: Name) returns (row: Option<Row>)
      ensures row == if n in rows then Some(rows[n]) else None
    {
      row := if n in rows then Some(rows[n]) else None;
    }

    /** Appends the rows to a slice in whatever order the query yields them. */
    method ListServerConfigs(f: Fault) returns (records: Option<seq<Record>>)
      ensures f.Clean? <==> records.Some?
      ensures records.Some? ==> IsListing(records.value, rows)
    {
      if !f.Clean? { return None; }
      var out: seq<Record> := [];
      var left := rows.Keys;
      while left != {}
        invariant left <= rows.Keys
        invariant forall i | 0 <= i < |out| :: out[i].name in rows.Keys - left && out[i].row == rows[out[i].name]
        invariant forall n | n in rows.Keys - left :: Record(n, rows[n]) in out
        invariant forall i, j | 0 <= i < j < |out| :: out[i].name != out[j].name
        decreases left
      {
        var n :| n in left;
        out := out + [Record(n, rows[n])];
        left := left - {n};
      }
      return Some(out);
    }

    method MarkDeleting(n: Name, purge: bool, f: Fault) returns (r: DbReply)
      modifies this`rows
      ensures (State(), r) == Store.MarkDeleting(old(State()), n, purge, f)
    {
      r := Update(n, (x: Row) => x.(desired := Deleting, purge := purge), f);
    }

    method CreateServer(n: Name, owner: Name, cfg: ValheimConfig, f: Fault) returns (r: DbReply)
      modifies this`rows
      ensures (State(), r) == Store.CreateServer(old(State()), n, owner, cfg, f)
    {
      if n in rows { return Err(ServerExists); }
      r := Insert(n, Row(owner, Encoded(cfg), Running, false, 0), f);
    }

    method DeleteServer(n: Name, f: Fault) returns (r: DbReply)
      modifies this`rows
      ensures (State(), r) == Store.DeleteServer(old(State()), n, f)
    {
      if f.Dropped? { return Err(Failed); }
      var affected := 0;
      if n in rows {
        rows := rows - {n};
        affected := 1;
      }
      if f.Lost? { return Err(Failed); }
      if affected == 0 { return Err(ServerNotFound); }
      return Ok;
    }

    /** The affected rows are not tested here: the row was there a moment before. */
    method TransferServer(n: Name, owner: Name, f: Fault) returns (r: DbReply)
      modifies this`rows
      ensures (State(), r) == Store.TransferServer(old(State()), n, owner, f)
    {
      if n !in rows { return Err(ServerNotFound); }
      if owner !in users { return Err(Constraint); }
      r := Update(n, (x: Row) => x.(owner := owner), f);
    }

    method IncrementFailure(n: Name, f: Fault) returns (r: DbReply)
      modifies this`rows
      ensures (State(), r) == Store.IncrementFailure(old(State()), n, f)
    {
      r := Update(n, (x: Row) => x.(failures := x.failures + 1), f);
    }

    method ResetFailures(n: Name, f: Fault) returns (r: DbReply)
      modifies this`rows
      ensures (State(), r) == Store.ResetFailures(old(State()), n, f)
    {
      r := Update(n, (x: Row) => x.(failures := 0), f);
    }

    method UpdateState(n: Name, desired: Desired, f: Fault) returns (r: DbReply)
      modifies this`rows
      ensures (State(), r) == Store.UpdateState(old(State()), n, desired, f)
    {
      r := Update(n, (x: Row) => x.(desired := desired), f);
    }

    method InsertOrphanTombstone(n: Name, cfg: ValheimConfig, f: Fault) returns (r: DbReply)
      modifies this`rows
      ensures (State(), r) == Store.InsertOrphanTombstone(old(State()), n, cfg, f)
    {
      r := Insert(n, Row(rootUser, Encoded(cfg), Deleting, false, 0), f);
    }

    method UpdateServerConfig(n: Name, cfg: ValheimConfig, f: Fault) returns (r: DbReply)
      modifies this`rows
      ensures (State(), r) == Store.UpdateServerConfig(old(State()), n, cfg, f)
    {
      r := Update(n, (x: Row) => x.(config := Encoded(cfg)), f);
    }

    // Users. The operations behind the root check change one column.

    method IsRootUser(u: Name) returns (isRoot: Option<bool>)
      ensures isRoot == if u in users then Some(users[u].isRoot) else None
    {
      if u !in users { return None; }
      return Some(users[u].isRoot);
    }

    /** UPDATE users SET edit WHERE username = u AND is_root = 0, after the root check. */
    method UpdateUser(u: Name, edit: User -> User, f: Fault) returns (r: DbReply)
      modifies this`users
      ensures users ==
                if u in old(users) && !old(users)[u].isRoot && !f.Dropped? then old(users)[u := edit(old(users)[u])]
                else old(users)
      ensures r ==
                if u !in old(users) then Err(UserNotFound)
                else if old(users)[u].isRoot then Err(IsRoot)
                else if f.Clean? then Ok
                else Err(Failed)
    {
      var isRoot := IsRootUser(u);
      if isRoot.None? { return Err(UserNotFound); }
      if isRoot.value { return Err(IsRoot); }
      if f.Dropped? { return Err(Failed); }
      users := users[u := edit(users[u])];
      if f.Lost? { return Err(Failed); }
      return Ok;
    }

    method CreateUser(u: Name, password: string, isAdmin: bool, f: Fault) returns (r: DbReply)
      modifies this`users
      ensures (State(), r) == Store.CreateUser(old(State()), u, password, isAdmin, f)
    {
      if f.Dropped? { return Err(Failed); }
      var violated := u in users;
      if !violated {
        users := users[u := User(password, false, isAdmin, false, true)];
      }
      if f.Lost? { return Err(Failed); }
      if violated { return Err(Constraint); }
      return Ok;
    }

    method DeleteUser(u: Name, f: Fault) returns (r: DbReply)
      modifies this`users
      ensures (State(), r) == Store.DeleteUser(old(State()), u, f)
    {
      var isRoot := IsRootUser(u);
      if isRoot.None? { return Err(UserNotFound); }
      if isRoot.value { return Err(IsRoot); }
      if exists n | n in rows :: rows[n].owner == u { return Err(Constraint); }
      if f.Dropped? { return Err(Failed); }
      users := users - {u};
      if f.Lost? { return Err(Failed); }
      return Ok;
    }

    method SuspendUser(u: Name, f: Fault) returns (r: DbReply)
      modifies this`users
      ensures (State(), r) == Store.SuspendUser(old(State()), u, f)
    {
      r := UpdateUser(u, (x: User) => x.(isSuspended := true), f);
    }

    method UnsuspendUser(u: Name, f: Fault) returns (r: DbReply)
      modifies this`users
      ensures (State(), r) == Store.UnsuspendUser(old(State()), u, f)
    {
      r := UpdateUser(u, (x: User) => x.(isSuspended := false), f);
    }

    method PromoteUser(u: Name, f: Fault) returns (r: DbReply)
      modifies this`users
      ensures (State(), r) == Store.PromoteUser(old(State()), u, f)
    {
      r := UpdateUser(u, (x: User) => x.(isAdmin := true), f);
    }

    method DemoteUser(u: Name, f: Fault) returns (r: DbReply)
      modifies this`users
      ensures (State(), r) == Store.DemoteUser(old(State()), u, f)
    {
      r := UpdateUser(u, (x: User) => x.(isAdmin := false), f);
    }

    method ResetPassword(u: Name, password: string, f: Fault) returns (r: DbReply)
      modifies this`users
      ensures (State(), r) == Store.ResetPassword(old(State()), u, password, f)
    {
      r := UpdateUser(u, (x: User) => x.(password := password, mustChange := true), f);
    }

    method UpdatePassword(u: Name, password: string, f: Fault) returns (r: DbReply)
      modifies this`users
      ensures (State(), r) == Store.UpdatePassword(old(State()), u, password, f)
    {
      if f.Dropped? { return Err(Failed); }
      if u in users {
        users := users[u := users[u].(password := password, mustChange := false)];
      }
      if f.Lost? { return Err(Failed); }
      return Ok;
    }

    method BootstrapAdmin(password: string, f: Fault) returns (r: DbReply)
      modifies this`users
      ensures (State(), r) == Store.BootstrapAdmin(old(State()), password, f)
    {
      if f.Dropped? { return Err(Failed); }
      var violated := rootUser in users;
      if !violated {
        users := users[rootUser := User(password, true, true, false, true)];
      }
      if f.Lost? { return Err(Failed); }
      if violated { return Err(Constraint); }
      return Ok;
    }

    /** Servers first: the foreign key allows no other order. */
    method ResetDatabase(serversFault: Fault, usersFault: Fault) returns (r: DbReply)
      modifies this
      ensures (State(), r) == Store.ResetDatabase(old(State()), serversFault, usersFault)
    {
      if serversFault.Dropped? { return Err(Failed); }
      rows := map[];
      if serversFault.Lost? { return Err(Failed); }
      if usersFault.Dropped? { return Err(Failed); }
      users := map[];
      if usersFault.Lost? { return Err(Failed); }
      return Ok;
    }
  }
}
