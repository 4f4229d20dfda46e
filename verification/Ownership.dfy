/** Ownership: one root user, and every row owned by an existing user, in every run. */
module OwnershipProofs {
  import opened Types
  import opened Cluster
  import opened Store
  import opened Machine
  import opened RowProofs
  import Api

  /** r is the one root user, an admin who is not suspended. */
  ghost predicate RootIs(users: map<Name, User>, r: Name) {
    && r in users && users[r].isAdmin && !users[r].isSuspended
    && forall u | u in users :: users[u].isRoot <==> u == r
  }

  ghost predicate Owned(t: Tables) {
    forall n | n in t.rows :: t.rows[n].owner in t.users
  }

  ghost predicate Ownership(t: Tables, r: Name) {
    RootIs(t.users, r) && Owned(t)
  }

  // One statement.

  lemma SetUserKeepsOwnership(t: Tables, u: Name, v: User, f: Fault, r: Name)
    requires Ownership(t, r) && (u in t.users ==> v.isRoot == t.users[u].isRoot)
    ensures Ownership(SetUser(t, u, v, f).0, r)
  {
  }

  /** The operations behind the root check, but deletion. */
  predicate Guarded(e: Event) {
    e.SuspendUser? || e.UnsuspendUser? || e.PromoteUser? || e.DemoteUser? || e.ResetPassword?
  }

  lemma GuardedKeepsOwnership(t: Tables, e: Event, r: Name)
    requires Ownership(t, r) && Guarded(e)
    ensures Ownership(UserTables(t, e), r)
  {
    var u := UserOr(t, e.user);
    var v :=
      if e.SuspendUser? then u.(isSuspended := true)
      else if e.UnsuspendUser? then u.(isSuspended := false)
      else if e.PromoteUser? then u.(isAdmin := true)
      else if e.DemoteUser? then u.(isAdmin := false)
      else u.(password := e.password, mustChange := true);
    SetUserKeepsOwnership(t, e.user, v, e.fault, r);
  }

  lemma UserEventKeepsOwnership(t: Tables, e: Event, r: Name)
    requires Ownership(t, r) && ChangesUsers(e)
    ensures Ownership(UserTables(t, e), r)
  {
    if Guarded(e) {
      GuardedKeepsOwnership(t, e, r);
    }
  }

  // Resets.

  /** A reset that deletes the users and does not get to create the root user. */
  predicate HalfReset(e: Event) {
    e.ResetDatabase? && e.servers.Clean? && !e.users.Dropped? && (e.users.Lost? || e.admin.Dropped?)
  }

  /** The root user after an event: a whole reset appoints the configured one. */
  function RootAfter(s: State, e: Event, r: Name): Name {
    if e.ResetDatabase? && e.servers.Clean? && e.users.Clean? then s.tables.rootUser else r
  }

  lemma ResetKeepsOwnership(s: State, e: Event, r: Name)
    requires Ownership(s.tables, r) && e.ResetDatabase? && !HalfReset(e)
    ensures Ownership(Apply(s, e).tables, RootAfter(s, e, r))
  {
    WholeReset(s.tables, e, r);
  }

  lemma WholeReset(t: Tables, e: Event, r: Name)
    requires Ownership(t, r) && e.ResetDatabase? && !HalfReset(e)
    ensures Ownership(Api.Reset(t, e.password, e.servers, e.users, e.admin).0,
                      if e.servers.Clean? && e.users.Clean? then t.rootUser else r)
  {
  }

  /** After a reset that is cut in half nobody and nothing is left. */
  lemma HalfResetClears(s: State, e: Event)
    requires HalfReset(e)
    ensures Apply(s, e).tables.users == map[] && Apply(s, e).tables.rows == map[]
  {
  }

  /** A reset leaves a root user exactly if it is not cut off between deleting the users and creating
      him. */
  lemma ResetLeavesRootIff(s: State, e: Event, r: Name)
    requires Ownership(s.tables, r) && e.ResetDatabase?
    ensures (exists q :: Ownership(Apply(s, e).tables, q)) <==> !HalfReset(e)
  {
    if HalfReset(e) {
      HalfResetClears(s, e);
    } else {
      ResetKeepsOwnership(s, e, r);
    }
  }

  // One event.

  lemma FateKeepsOwned(s: State, e: Event, t': Tables)
    requires Owned(s.tables) && t'.users == s.tables.users && forall n :: RowFate(s, e, t', n)
    ensures Owned(t')
  {
    forall n | n in t'.rows ensures t'.rows[n].owner in t'.users {
      assert RowFate(s, e, t', n);
    }
  }

  lemma StepKeepsOwnership(s: State, e: Event, r: Name)
    requires Ownership(s.tables, r) && !HalfReset(e)
    ensures Ownership(Apply(s, e).tables, RootAfter(s, e, r))
  {
    if ChangesUsers(e) {
      UserEventKeepsOwnership(s.tables, e, r);
    } else if e.ResetDatabase? {
      ResetKeepsOwnership(s, e, r);
    } else if !e.Restart? {
      OthersKeepOwned(s, e);
    }
  }

  lemma OthersKeepOwned(s: State, e: Event)
    requires Owned(s.tables) && !ChangesUsers(e) && !e.ResetDatabase? && !e.Restart?
    ensures Owned(Apply(s, e).tables) && SameUsers(s.tables, Apply(s, e).tables)
  {
    UsersStay(s, e);
    var t' := Apply(s, e).tables;
    forall n ensures RowFate(s, e, t', n) {
      StepFate(s, e, n);
    }
    FateKeepsOwned(s, e, t');
  }

  // Whole runs.

  /** Ownership integrity: after every run of user, server and loop events, restarts under any name
      and resets that are not cut in half, there is exactly one root user, an admin and not suspended,
      and every row's owner is an existing user. */
  lemma {:induction false} OwnershipHolds(s: State, es: seq<Event>, r: Name) returns (q: Name)
    requires Ownership(s.tables, r) && forall e | e in es :: !HalfReset(e)
    ensures Ownership(Run(s, es).tables, q)
    decreases |es|
  {
    q := r;
    if es != [] {
      StepKeepsOwnership(s, es[0], r);
      q := OwnershipHolds(Apply(s, es[0]), es[1..], RootAfter(s, es[0], r));
    }
  }

  lemma OnlyRestartRenames(s: State, e: Event)
    requires !e.Restart?
    ensures Apply(s, e).tables.rootUser == s.tables.rootUser
  {
    if ChangesUsers(e) {
      UserFate(s.tables, e);
    } else if !e.ResetDatabase? {
      UsersStay(s, e);
    }
  }

  /** As long as restarts keep the configured name, the root user is the configured one, so the
      insertion of a tombstone under a free name never violates the foreign key. */
  lemma {:induction false} TombstonesAreOwned(s: State, es: seq<Event>, n: Name)
    requires Ownership(s.tables, s.tables.rootUser)
    requires forall e | e in es :: !HalfReset(e) && (e.Restart? ==> e.rootUser == s.tables.rootUser)
    ensures var t := Run(s, es).tables;
            && Ownership(t, t.rootUser) && t.rootUser == s.tables.rootUser
            && (n !in t.rows ==> InsertOrphanTombstone(t, n, OrphanConfig(n), Clean).1.Ok?)
    decreases |es|
  {
    if es != [] {
      StepKeepsOwnership(s, es[0], s.tables.rootUser);
      if !es[0].Restart? {
        OnlyRestartRenames(s, es[0]);
      }
      TombstonesAreOwned(Apply(s, es[0]), es[1..], n);
    }
  }

  // Repair.

  /** Nobody is root, and rows have existing owners. */
  ghost predicate Rootless(t: Tables) {
    Owned(t) && forall u | u in t.users :: !t.users[u].isRoot
  }

  lemma UserEventKeepsRootless(t: Tables, e: Event)
    requires Rootless(t) && ChangesUsers(e)
    ensures Rootless(UserTables(t, e))
  {
  }

  lemma StepKeepsRootless(s: State, e: Event)
    requires Rootless(s.tables) && !e.ResetDatabase? && !e.Restart?
    ensures Rootless(Apply(s, e).tables)
  {
    if ChangesUsers(e) {
      UserEventKeepsRootless(s.tables, e);
    } else {
      OthersKeepOwned(s, e);
    }
  }

  lemma {:induction false} RunKeepsRootless(s: State, es: seq<Event>)
    requires Rootless(s.tables) && forall e | e in es :: !e.ResetDatabase? && !e.Restart?
    ensures Rootless(Run(s, es).tables)
    decreases |es|
  {
    if es != [] {
      StepKeepsRootless(s, es[0]);
      RunKeepsRootless(Apply(s, es[0]), es[1..]);
    }
  }

  lemma RestartOfRootless(s: State, u: Name, p: string)
    requires Rootless(s.tables)
    ensures var t := Apply(s, Restart(u, p)).tables;
            if s.tables.users == map[] then Ownership(t, u) else Rootless(t) && t.users != map[]
  {
  }

  /** A reset that was cut in half is repaired by a restart, under any name, exactly if the users table
      is still empty by then: a user created in between keeps the root user from being created. */
  lemma RestartRepairsIff(s: State, e: Event, es: seq<Event>, u: Name, p: string)
    requires HalfReset(e) && forall x | x in es :: !x.ResetDatabase? && !x.Restart?
    ensures var a := Run(Apply(s, e), es);
            (exists q :: Ownership(Apply(a, Restart(u, p)).tables, q)) <==> a.tables.users == map[]
  {
    HalfResetClears(s, e);
    RunKeepsRootless(Apply(s, e), es);
    var a := Run(Apply(s, e), es);
    RestartOfRootless(a, u, p);
    if a.tables.users != map[] {
      NobodyRoots(Apply(a, Restart(u, p)).tables);
    }
  }

  lemma NobodyRoots(t: Tables)
    requires Rootless(t)
    ensures !exists q :: Ownership(t, q)
  {
  }

  // Another root name.

  /** The event leaves it open who u is: it neither creates nor deletes u, nor starts over. */
  predicate LeavesUser(e: Event, u: Name) {
    !(e.CreateUser? && e.user == u) && !(e.DeleteUser? && e.user == u) && !e.ResetDatabase? && !e.Restart?
  }

  lemma StepLeavesUser(s: State, e: Event, u: Name)
    requires LeavesUser(e, u)
    ensures Apply(s, e).tables.rootUser == s.tables.rootUser
    ensures u in Apply(s, e).tables.users <==> u in s.tables.users
  {
    OnlyRestartRenames(s, e);
    if ChangesUsers(e) {
      UserEventLeaves(s.tables, e, u);
    } else {
      UsersStay(s, e);
    }
  }

  lemma UserEventLeaves(t: Tables, e: Event, u: Name)
    requires ChangesUsers(e) && LeavesUser(e, u)
    ensures u in UserTables(t, e).users <==> u in t.users
  {
  }

  /** After a restart under another name, and from then on until a user of that name is created or
      deleted, tombstones under free names are accepted exactly if that user existed. */
  lemma {:induction false} RenamedRootIff(s: State, es: seq<Event>, n: Name)
    requires forall e | e in es :: LeavesUser(e, s.tables.rootUser)
    ensures var t := Run(s, es).tables;
            n !in t.rows ==>
              (InsertOrphanTombstone(t, n, OrphanConfig(n), Clean).1.Ok? <==> s.tables.rootUser in s.tables.users)
    decreases |es|
  {
    if es != [] {
      StepLeavesUser(s, es[0], s.tables.rootUser);
      RenamedRootIff(Apply(s, es[0]), es[1..], n);
    }
  }

  /** The restart itself only renames: the old root user stays. */
  lemma RestartRenames(s: State, rootUser: Name, password: string, r: Name)
    requires Ownership(s.tables, r)
    ensures var t := Apply(s, Restart(rootUser, password)).tables;
            Ownership(t, r) && t.rootUser == rootUser && t.users == s.tables.users
  {
  }
}
