/** Who was allowed what, over whole runs: requests are checked in one step and written in another. */
module PermissionProofs {
  import opened Types
  import opened Store
  import opened Machine
  import opened RowProofs
  import opened OwnershipProofs
  import Api

  /** The event approves a request: its caller is a user in good standing who owns the server or is an
      admin, by the users table of this moment, and who owns it or is a root user if it is to be purged. */
  predicate Approves(s: State, e: Event, req: Api.Request) {
    && e.Check? && e.request == req && req.name in s.tables.rows
    && Entitled(s.tables, e.caller.name, s.tables.rows[req.name])
    && (req.Deletion? && req.purge ==>
          e.caller.name == s.tables.rows[req.name].owner || s.tables.users[e.caller.name].isRoot)
  }

  /** What else a check asks: a start is for a server that is not running, a stop for one that is not
      stopped, a hand-over is to an existing user. */
  predicate MakesSense(t: Tables, req: Api.Request)
    requires req.name in t.rows
  {
    match req
    case Deletion(_, _) => true
    case StateChange(n, running) => if running then !t.rows[n].desired.Running? else !t.rows[n].desired.Stopped?
    case Transfer(_, owner) => owner in t.users
  }

  /** A check with the flags of the users table approves its request exactly if its caller is entitled to
      it and it makes sense. */
  lemma CheckApprovesIff(s: State, caller: Api.Caller, req: Api.Request)
    requires caller.name in s.tables.users
    requires var u := s.tables.users[caller.name]; caller.isAdmin == u.isAdmin && caller.isRoot == u.isRoot
    ensures var e := Check(caller, req);
            Apply(s, e).approved[req] > s.approved[req] <==> Approves(s, e, req) && MakesSense(s.tables, req)
  {
  }

  /** Approvals come from checks alone. */
  lemma ApprovalIsChecked(s: State, e: Event, req: Api.Request)
    requires Apply(s, e).approved[req] > s.approved[req]
    ensures Approves(s, e, req) && MakesSense(s.tables, req)
  {
    if ChangesServers(e) {
      ServerOutcome(s, e);
    }
  }

  // Looking back in a run.

  /** What holds at the end of a run and not at its start begins to hold in some step. */
  lemma {:induction false} FirstStep(s: State, es: seq<Event>, p: State -> bool) returns (k: nat)
    requires !p(s) && p(Run(s, es))
    ensures k < |es| && !p(Run(s, es[..k])) && p(Apply(Run(s, es[..k]), es[k]))
    decreases |es|
  {
    var s' := Apply(s, es[0]);
    if p(s') {
      k := 0;
    } else {
      var i := FirstStep(s', es[1..], p);
      RunFirst(s, es[0], es[1..][..i]);
      assert es[..i + 1] == [es[0]] + es[1..][..i];
      k := i + 1;
    }
  }

  /** A request that is approved now and was not at the start was approved in a step of the run. */
  lemma ApprovalHasCheck(s: State, es: seq<Event>, req: Api.Request) returns (i: nat)
    requires req !in s.approved && req in Run(s, es).approved
    ensures i < |es| && Approves(Run(s, es[..i]), es[i], req)
  {
    i := FirstStep(s, es, (x: State) => req in x.approved);
    ApprovalIsChecked(Run(s, es[..i]), es[i], req);
  }

  lemma {:induction false} LivesAt(s: State, es: seq<Event>, n: Name, k: nat)
    requires LivesThrough(s, es, n) && k <= |es|
    ensures n in Run(s, es[..k]).tables.rows
    decreases k
  {
    if k > 0 {
      LivesAt(Apply(s, es[0]), es[1..], n, k - 1);
      RunFirst(s, es[0], es[1..][..k - 1]);
      assert es[..k] == [es[0]] + es[1..][..k - 1];
    }
  }

  /** The step in which a property of row n begins to hold, with the row there before and after. */
  lemma FirstChange(s: State, es: seq<Event>, n: Name, p: Row -> bool) returns (k: nat)
    requires LivesThrough(s, es, n) && !p(s.tables.rows[n])
    requires n in Run(s, es).tables.rows && p(Run(s, es).tables.rows[n])
    ensures k < |es| && n in Run(s, es[..k]).tables.rows && n in Apply(Run(s, es[..k]), es[k]).tables.rows
    ensures var a := Run(s, es[..k]);
            && !p(a.tables.rows[n]) && p(Apply(a, es[k]).tables.rows[n])
            && Stays(a.tables, a.approved, es[k], n, a.tables.rows[n], Apply(a, es[k]).tables.rows[n])
  {
    k := FirstStep(s, es, (x: State) => n in x.tables.rows && p(x.tables.rows[n]));
    LivesAt(s, es, n, k);
    StepFate(Run(s, es[..k]), es[k], n);
  }

  /** The approval in a longer run of a request that is approved after its first k steps. */
  lemma ApprovedBefore(s: State, es: seq<Event>, k: nat, req: Api.Request) returns (i: nat)
    requires k <= |es| && req !in s.approved && req in Run(s, es[..k]).approved
    ensures i < k && Approves(Run(s, es[..i]), es[i], req)
  {
    i := ApprovalHasCheck(s, es[..k], req);
    assert es[..k][..i] == es[..i];
  }

  // The server stays all along the run.

  /** No deletion of n is approved. */
  ghost predicate NoDeletion(s: State, n: Name) {
    forall purge :: Api.Deletion(n, purge) !in s.approved
  }

  /** A running or stopped row that ends up deleting was cleared for deletion in that run: by a user in
      good standing who was its owner or, by the users table of that moment, an admin. */
  lemma DeletionWasApproved(s: State, es: seq<Event>, n: Name) returns (i: nat, purge: bool)
    requires LivesThrough(s, es, n) && NoDeletion(s, n) && !s.tables.rows[n].desired.Deleting?
    requires n in Run(s, es).tables.rows && Run(s, es).tables.rows[n].desired.Deleting?
    ensures i < |es| && Approves(Run(s, es[..i]), es[i], Api.Deletion(n, purge))
    ensures var t, u := Run(s, es[..i]).tables, es[i].caller.name;
            u in t.users && !t.users[u].isSuspended && (u == t.rows[n].owner || t.users[u].isAdmin)
  {
    var k := FirstChange(s, es, n, (row: Row) => row.desired.Deleting?);
    purge := es[k].request.purge;
    i := ApprovedBefore(s, es, k, Api.Deletion(n, purge));
  }

  /** A row that turns running was started in that run, and one that turns stopped was stopped, by such a
      user. */
  lemma StateWasApproved(s: State, es: seq<Event>, n: Name, running: bool) returns (i: nat)
    requires LivesThrough(s, es, n) && Api.StateChange(n, running) !in s.approved
    requires s.tables.rows[n].desired != if running then Running else Stopped
    requires n in Run(s, es).tables.rows && Run(s, es).tables.rows[n].desired == if running then Running else Stopped
    ensures i < |es| && Approves(Run(s, es[..i]), es[i], Api.StateChange(n, running))
    ensures var t, u := Run(s, es[..i]).tables, es[i].caller.name;
            u in t.users && !t.users[u].isSuspended && (u == t.rows[n].owner || t.users[u].isAdmin)
  {
    var k := FirstChange(s, es, n, (row: Row) => row.desired == if running then Running else Stopped);
    i := ApprovedBefore(s, es, k, Api.StateChange(n, running));
  }

  /** A row that ends up with another owner was handed over to him in that run by such a user. */
  lemma TransferWasApproved(s: State, es: seq<Event>, n: Name, owner: Name) returns (i: nat)
    requires LivesThrough(s, es, n) && Api.Transfer(n, owner) !in s.approved && s.tables.rows[n].owner != owner
    requires n in Run(s, es).tables.rows && Run(s, es).tables.rows[n].owner == owner
    ensures i < |es| && Approves(Run(s, es[..i]), es[i], Api.Transfer(n, owner))
    ensures var t, u := Run(s, es[..i]).tables, es[i].caller.name;
            u in t.users && !t.users[u].isSuspended && (u == t.rows[n].owner || t.users[u].isAdmin)
  {
    var k := FirstChange(s, es, n, (row: Row) => row.owner == owner);
    i := ApprovedBefore(s, es, k, Api.Transfer(n, owner));
  }

  /** A row that ends up with another configuration was updated to it in that run by such a user. */
  lemma UpdateWasAllowed(s: State, es: seq<Event>, n: Name, column: Column) returns (i: nat)
    requires LivesThrough(s, es, n) && s.tables.rows[n].config != column
    requires n in Run(s, es).tables.rows && Run(s, es).tables.rows[n].config == column
    ensures i < |es| && es[i].UpdateServerConfig? && es[i].name == n && column == Encoded(es[i].cfg)
    ensures var t, u := Run(s, es[..i]).tables, es[i].caller.name;
            && n in t.rows && u in t.users && !t.users[u].isSuspended
            && (u == t.rows[n].owner || t.users[u].isAdmin)
  {
    i := FirstChange(s, es, n, (row: Row) => row.config == column);
  }

  /** A row that ends up with the purge flag was cleared for it in that run. */
  lemma PurgeWasApproved(s: State, es: seq<Event>, n: Name) returns (i: nat)
    requires LivesThrough(s, es, n) && Api.Deletion(n, true) !in s.approved && !s.tables.rows[n].purge
    requires n in Run(s, es).tables.rows && Run(s, es).tables.rows[n].purge
    ensures i < |es| && Approves(Run(s, es[..i]), es[i], Api.Deletion(n, true))
    ensures var t, u := Run(s, es[..i]).tables, es[i].caller.name;
            && u in t.users && !t.users[u].isSuspended && !t.users[u].mustChange
            && (u == t.rows[n].owner || (t.users[u].isAdmin && t.users[u].isRoot))
  {
    var k := FirstChange(s, es, n, (row: Row) => row.purge);
    i := ApprovedBefore(s, es, k, Api.Deletion(n, true));
  }

  /** A reset that is cut in half takes every row along. */
  lemma LivingExcludesHalfReset(s: State, es: seq<Event>, n: Name, j: nat)
    requires LivesThrough(s, es, n) && j < |es|
    ensures !HalfReset(es[j])
  {
    RunLast(s, es[..j], es[j]);
    assert es[..j + 1] == es[..j] + [es[j]];
    LivesAt(s, es, n, j + 1);
    if HalfReset(es[j]) {
      HalfResetClears(Run(s, es[..j]), es[j]);
    }
  }

  /** And it was its owner or the one root user who was cleared: an admin who is neither cannot purge. */
  lemma OnlyOwnerOrRootPurges(s: State, es: seq<Event>, n: Name, r: Name) returns (i: nat, root: Name)
    requires LivesThrough(s, es, n) && Api.Deletion(n, true) !in s.approved && !s.tables.rows[n].purge
    requires n in Run(s, es).tables.rows && Run(s, es).tables.rows[n].purge && Ownership(s.tables, r)
    ensures i < |es| && Approves(Run(s, es[..i]), es[i], Api.Deletion(n, true))
    ensures var t := Run(s, es[..i]).tables;
            Ownership(t, root) && (es[i].caller.name == t.rows[n].owner || es[i].caller.name == root)
  {
    i := PurgeWasApproved(s, es, n);
    forall e | e in es[..i] ensures !HalfReset(e) {
      var j :| 0 <= j < i && es[j] == e;
      LivingExcludesHalfReset(s, es, n, j);
    }
    root := OwnershipHolds(s, es[..i], r);
  }
}
