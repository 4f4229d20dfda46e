/** What one event can do to one user, and who became an admin or was let in again, over whole runs. */
module UserProofs {
  import opened Types
  import opened Cluster
  import opened Store
  import opened Machine
  import opened RowProofs
  import opened PermissionProofs

  /** User u, there before and after: always root or never; each other column changes only by the
      operation on u that is named after it, and only that way. */
  predicate UserStays(e: Event, u: Name, a: User, b: User) {
    && b.isRoot == a.isRoot
    && (b.isAdmin && !a.isAdmin ==> e.PromoteUser? && e.user == u && !a.isRoot)
    && (!b.isAdmin && a.isAdmin ==> e.DemoteUser? && e.user == u && !a.isRoot)
    && (b.isSuspended && !a.isSuspended ==> e.SuspendUser? && e.user == u && !a.isRoot)
    && (!b.isSuspended && a.isSuspended ==> e.UnsuspendUser? && e.user == u && !a.isRoot)
    && (b.mustChange && !a.mustChange ==> e.ResetPassword? && e.user == u && !a.isRoot)
    && (!b.mustChange && a.mustChange ==> e.UpdatePassword? && e.user == u)
    && (b.password != a.password ==>
          (e.ResetPassword? || e.UpdatePassword?) && e.user == u && b.password == e.password)
  }

  /** User u, new: by CreateUser, who is not root and must change the password, or the configured root
      user, in an empty table. */
  predicate UserArrives(t: Tables, e: Event, u: Name, b: User) {
    if e.CreateUser? then e.user == u && b == User(e.password, false, e.isAdmin, false, true)
    else
      && ((e.Restart? && e.rootUser == u && t.users == map[]) || (e.ResetDatabase? && t.rootUser == u))
      && b == User(e.password, true, true, false, true)
  }

  /** User u, gone: deleted, neither root nor an owner. */
  predicate UserLeaves(t: Tables, e: Event, u: Name)
    requires u in t.users
  {
    e.DeleteUser? && e.user == u && !t.users[u].isRoot && forall n | n in t.rows :: t.rows[n].owner != u
  }

  predicate UserFateOf(t: Tables, e: Event, t': Tables, u: Name) {
    if u in t.users && u in t'.users then UserStays(e, u, t.users[u], t'.users[u])
    else if u in t.users then u !in t'.users && UserLeaves(t, e, u)
    else u in t'.users ==> UserArrives(t, e, u, t'.users[u])
  }

  lemma UserEventFate(t: Tables, e: Event, u: Name)
    requires ChangesUsers(e)
    ensures UserFateOf(t, e, UserTables(t, e), u)
  {
  }

  lemma RestartFate(t: Tables, e: Event, u: Name)
    requires e.Restart?
    ensures UserFateOf(t, e, Open(t.users, t.rows, e.rootUser, e.password), u)
  {
  }

  lemma SameUsersFate(t: Tables, e: Event, t': Tables, u: Name)
    requires SameUsers(t, t')
    ensures UserFateOf(t, e, t', u)
  {
  }

  /** One event, one user; a reset starts over. */
  lemma UserStepFate(s: State, e: Event, u: Name)
    requires !e.ResetDatabase?
    ensures UserFateOf(s.tables, e, Apply(s, e).tables, u)
  {
    if ChangesUsers(e) {
      UserEventFate(s.tables, e, u);
    } else if e.Restart? {
      RestartFate(s.tables, e, u);
    } else {
      UsersStay(s, e);
      SameUsersFate(s.tables, e, Apply(s, e).tables, u);
    }
  }

  /** The operations on users do what they say, unless the statement does not take effect. */
  lemma UserOperationsWork(t: Tables, e: Event)
    requires ChangesUsers(e) && !e.fault.Dropped?
    ensures var t', u := UserTables(t, e), e.user;
            && (e.CreateUser? ==> u in t'.users)
            && (u in t.users && !e.DeleteUser? ==> u in t'.users)
            && (u in t.users && !e.DeleteUser? && !t.users[u].isRoot ==>
                  var v := t'.users[u];
                  && (e.PromoteUser? ==> v.isAdmin) && (e.DemoteUser? ==> !v.isAdmin)
                  && (e.SuspendUser? ==> v.isSuspended) && (e.UnsuspendUser? ==> !v.isSuspended)
                  && (e.ResetPassword? ==> v.password == e.password && v.mustChange))
            && (u in t.users && e.UpdatePassword? ==> t'.users[u].password == e.password && !t'.users[u].mustChange)
            && (u in t.users && e.DeleteUser? && !t.users[u].isRoot ==>
                  (u in t'.users <==> exists n :: n in t.rows && t.rows[n].owner == u))
  {
  }

  /** Behind the root check: a missing user and a root user are told apart and left alone. */
  lemma GuardedReplies(t: Tables, u: Name, v: User, f: Fault)
    ensures var (t', r) := SetUser(t, u, v, f);
            && (r == Err(UserNotFound) <==> u !in t.users)
            && (r == Err(IsRoot) <==> u in t.users && t.users[u].isRoot)
            && (r == Ok <==> u in t.users && !t.users[u].isRoot && f.Clean?)
            && (u !in t.users || t.users[u].isRoot ==> t' == t)
  {
  }

  /** u is a user all along the run. */
  ghost predicate StaysUser(s: State, es: seq<Event>, u: Name) {
    forall k | 0 <= k <= |es| :: u in Run(s, es[..k]).tables.users
  }

  /** The step in which something begins to hold of user u, who is there before and after. */
  lemma FirstUserChange(s: State, es: seq<Event>, u: Name, p: User -> bool) returns (k: nat)
    requires StaysUser(s, es, u) && forall e | e in es :: !e.ResetDatabase?
    requires u in s.tables.users && !p(s.tables.users[u])
    requires u in Run(s, es).tables.users && p(Run(s, es).tables.users[u])
    ensures k < |es| && u in Run(s, es[..k]).tables.users && u in Apply(Run(s, es[..k]), es[k]).tables.users
    ensures var a, b := Run(s, es[..k]), Apply(Run(s, es[..k]), es[k]);
            !p(a.tables.users[u]) && p(b.tables.users[u]) && UserStays(es[k], u, a.tables.users[u], b.tables.users[u])
  {
    k := FirstStep(s, es, (x: State) => u in x.tables.users && p(x.tables.users[u]));
    assert u in Run(s, es[..k]).tables.users;
    UserStepFate(Run(s, es[..k]), es[k], u);
  }

  /** A user who was no admin and is one now was promoted in the run. */
  lemma AdminWasPromoted(s: State, es: seq<Event>, u: Name) returns (k: nat)
    requires StaysUser(s, es, u) && forall e | e in es :: !e.ResetDatabase?
    requires u in s.tables.users && !s.tables.users[u].isAdmin
    requires u in Run(s, es).tables.users && Run(s, es).tables.users[u].isAdmin
    ensures k < |es| && es[k].PromoteUser? && es[k].user == u
  {
    k := FirstUserChange(s, es, u, (x: User) => x.isAdmin);
  }

  /** A user who was suspended and is not now was let in again by an operation on him; so suspension ends
      only that way, through restarts and everything else. */
  lemma SuspensionWasLifted(s: State, es: seq<Event>, u: Name) returns (k: nat)
    requires StaysUser(s, es, u) && forall e | e in es :: !e.ResetDatabase?
    requires u in s.tables.users && s.tables.users[u].isSuspended
    requires u in Run(s, es).tables.users && !Run(s, es).tables.users[u].isSuspended
    ensures k < |es| && es[k].UnsuspendUser? && es[k].user == u
  {
    k := FirstUserChange(s, es, u, (x: User) => !x.isSuspended);
  }
}
