/** World conservation: a server's volume outlives everything but a purge. */
module WorldProofs {
  import opened Types
  import opened Cluster
  import opened Store
  import opened PassProofs
  import opened PassTheorems
  import opened Machine
  import opened RowProofs
  import opened TeardownProofs
  import opened PermissionProofs
  import Api
  import Registry

  /** The listed rows carry their own names and a volume is only deleted for a deleting row with the
      purge flag. */
  ghost predicate LoopNamed(s: State) {
    s.ctl.Rows? ==>
      && (forall i | 0 <= i < |s.ctl.todo| :: WellNamed(s.ctl.todo[i]))
      && (s.ctl.job.Some? ==> JobNamed(s.ctl.job.value))
  }

  ghost predicate JobNamed(job: Job) {
    WellNamed(job.rec) && (job.pc.FailureIncrement? || PointOk(job.rec.row, job.pc))
  }

  ghost predicate Named(s: State) {
    RowsWellNamed(s.tables.rows) && LoopNamed(s)
  }

  lemma EffectKeepsVolume(s: Slot, op: Op, admitted: bool, f: Fault)
    requires !op.DeleteVolume? && s.volume.Some?
    ensures Perform(s, op, admitted, f).0.volume == s.volume
  {
  }

  lemma OnlyVolumeDeletePurges(rec: Record, cfg: ValheimConfig, pc: Call, lingers: bool)
    ensures OpAt(rec, cfg, pc, lingers) == Some(DeleteVolume) <==> pc.VolumeDelete?
  {
  }

  /** A call of the loop takes a volume only at the purge point of that server's own teardown. */
  lemma CallKeepsVolume(c: Objects, t: Tables, reg: Registry.Servers, job: Job, f: Fault, lingers: bool, giveUp: bool,
      n: Name)
    requires WellNamed(job.rec) && c.At(n).volume.Some? && !(job.rec.name == n && job.pc.VolumeDelete?)
    ensures Step(c, t, reg, job, f, lingers, giveUp).cluster.At(n).volume == c.At(n).volume
  {
    if job.rec.row.config.Encoded? {
      var cfg := job.rec.row.config.cfg;
      var op := OpAt(job.rec, cfg, job.pc, lingers);
      if op.Some? && NameAt(job.rec, cfg, job.pc) == n {
        OnlyVolumeDeletePurges(job.rec, cfg, job.pc, lingers);
        EffectKeepsVolume(c.At(n), op.value, c.Admits(n, op.value), f);
      }
    }
  }

  /** The loop is about to purge n: it has come to the last deletion of a row of n that was listed as
      deleting with the purge flag. */
  predicate Purging(ctl: Ctl, n: Name) {
    && ctl.Rows? && ctl.job.Some? && ctl.job.value.rec.name == n && ctl.job.value.pc.VolumeDelete?
    && ctl.job.value.rec.row.desired.Deleting? && ctl.job.value.rec.row.purge
  }

  lemma CallLosesVolume(s: State, e: Event, n: Name)
    requires Named(s) && e.MakeCall? && s.cluster.At(n).volume.Some? && !Purging(s.ctl, n)
    ensures Apply(s, e).cluster.At(n).volume == s.cluster.At(n).volume
  {
    if s.ctl.Rows? && s.ctl.job.Some? {
      CallKeepsVolume(s.cluster, s.tables, s.registry, s.ctl.job.value, e.fault, e.lingers, e.giveUp, n);
    }
  }

  /** A volume disappears in a step only to a purge handler that had found no row, or to the teardown
      of the server's own row, listed as deleting with the purge flag. */
  lemma VolumeLossIsAPurge(s: State, e: Event, n: Name)
    requires Named(s) && s.cluster.At(n).volume.Some? && Apply(s, e).cluster.At(n).volume != s.cluster.At(n).volume
    ensures (e.PurgeDelete? && e.name == n && n in s.purging) || (e.MakeCall? && Purging(s.ctl, n))
  {
    if e.MakeCall? {
      if !Purging(s.ctl, n) {
        CallLosesVolume(s, e, n);
      }
    } else if ChangesServers(e) {
      ServerOutcome(s, e);
    }
  }

  lemma NextPoint(c: Objects, t: Tables, reg: Registry.Servers, job: Job, f: Fault, lingers: bool, giveUp: bool)
    requires JobNamed(job)
    ensures var r := Step(c, t, reg, job, f, lingers, giveUp); r.next.Some? ==> JobNamed(Job(job.rec, r.next.value))
  {
    if job.rec.row.config.Encoded? {
      var cfg := job.rec.row.config.cfg;
      if OpAt(job.rec, cfg, job.pc, lingers).Some? && PointOk(job.rec.row, job.pc) {
        AfterWritePoint(job.rec, cfg, job.pc, lingers);
      }
    }
  }

  /** The names stay in order in every step but a misnaming one, even through a database reset. */
  lemma StepKeepsNamed(s: State, e: Event)
    requires Named(s) && KeepsNames(e)
    ensures Named(Apply(s, e))
  {
    StepKeepsNames(s, e);
    if IsLoopEvent(e) {
      LoopKeepsNamed(s, e);
    } else if !IsWorldEvent(e) {
      HandlersKeepObjects(s, e);
    }
  }

  lemma LoopKeepsNamed(s: State, e: Event)
    requires Named(s) && IsLoopEvent(e)
    ensures LoopNamed(Apply(s, e))
  {
    var s' := Apply(s, e);
    if e.MakeCall? {
      if s.ctl.Rows? && s.ctl.job.Some? {
        NextPoint(s.cluster, s.tables, s.registry, s.ctl.job.value, e.fault, e.lingers, e.giveUp);
      }
    } else if e.ListRows? {
      if s'.ctl.Rows? && s'.ctl != s.ctl {
        WellNamedListing(e.records, s.tables.rows);
      }
    } else if e.NextRow? && s'.ctl != s.ctl {
      assert forall i | 0 <= i < |s.ctl.todo[1..]| :: s.ctl.todo[1..][i] == s.ctl.todo[i + 1];
      assert WellNamed(s.ctl.todo[0]);
    }
  }

  lemma WellNamedListing(records: seq<Record>, rows: map<Name, Row>)
    requires IsListing(records, rows) && RowsWellNamed(rows)
    ensures forall i | 0 <= i < |records| :: WellNamed(records[i])
  {
    forall i | 0 <= i < |records| ensures WellNamed(records[i]) {
      assert WellNamed(Record(records[i].name, rows[records[i].name]));
    }
  }

  // Whole runs.

  /** The next teardown of the row takes the volume along. */
  predicate Purges(row: Row) {
    row.desired.Deleting? && row.purge
  }

  /** No purge of n is under way: none is approved, its row and its listed rows do not purge, and no
      purge handler has n checked. */
  ghost predicate Unpurged(s: State, n: Name) {
    && n !in s.purging && Api.Deletion(n, true) !in s.approved
    && (n in s.tables.rows ==> !Purges(s.tables.rows[n]))
    && (s.ctl.Rows? ==>
          && (forall i | 0 <= i < |s.ctl.todo| && s.ctl.todo[i].name == n :: !Purges(s.ctl.todo[i].row))
          && (s.ctl.job.Some? && s.ctl.job.value.rec.name == n ==> !Purges(s.ctl.job.value.rec.row)))
  }

  /** The event clears a purge of n: a deletion with purge by the owner or a root user, or, without a
      row, the purge handler for a root user. */
  predicate PurgeCleared(s: State, e: Event, n: Name) {
    if n in s.tables.rows then Approves(s, e, Api.Deletion(n, true))
    else
      && e.PurgeCheck? && e.name == n
      && InGoodStanding(s.tables, e.caller.name) && s.tables.users[e.caller.name].isRoot
  }

  lemma RowKeepsUnpurged(s: State, e: Event, n: Name)
    requires Unpurged(s, n)
    ensures n in Apply(s, e).tables.rows ==> !Purges(Apply(s, e).tables.rows[n])
  {
    StepFate(s, e, n);
  }

  lemma LoopKeepsUnpurged(s: State, e: Event, n: Name)
    requires Unpurged(s, n) && IsLoopEvent(e)
    ensures Unpurged(Apply(s, e), n)
  {
    var s' := Apply(s, e);
    RowKeepsUnpurged(s, e, n);
    if e.NextRow? && s'.ctl != s.ctl {
      assert forall i | 0 <= i < |s.ctl.todo[1..]| :: s.ctl.todo[1..][i] == s.ctl.todo[i + 1];
    }
  }

  lemma StepKeepsUnpurged(s: State, e: Event, n: Name)
    requires Unpurged(s, n) && !PurgeCleared(s, e, n)
    ensures Unpurged(Apply(s, e), n)
  {
    if IsLoopEvent(e) {
      LoopKeepsUnpurged(s, e, n);
    } else {
      RowKeepsUnpurged(s, e, n);
      if ChangesServers(e) {
        ServerOutcome(s, e);
      }
    }
  }

  lemma StepKeepsWorld(s: State, e: Event, n: Name)
    requires Named(s) && Unpurged(s, n) && !PurgeCleared(s, e, n) && s.cluster.At(n).volume.Some?
    ensures Unpurged(Apply(s, e), n) && Apply(s, e).cluster.At(n).volume == s.cluster.At(n).volume
  {
    StepKeepsUnpurged(s, e, n);
    if Apply(s, e).cluster.At(n).volume != s.cluster.At(n).volume {
      VolumeLossIsAPurge(s, e, n);
    }
  }

  /** World conservation: in every run, through hard resets, tombstones, teardowns, start and stop,
      re-creation under the same name, faults, restarts and database resets, n keeps the very same
      volume until a purge of n is cleared in that run. */
  lemma {:induction false} VolumeLossWasCleared(s: State, es: seq<Event>, n: Name) returns (i: nat)
    requires Named(s) && Unpurged(s, n) && s.cluster.At(n).volume.Some? && forall e | e in es :: KeepsNames(e)
    requires Run(s, es).cluster.At(n).volume != s.cluster.At(n).volume
    ensures i < |es| && PurgeCleared(Run(s, es[..i]), es[i], n)
    decreases |es|
  {
    if PurgeCleared(s, es[0], n) {
      i := 0;
    } else {
      StepKeepsNamed(s, es[0]);
      StepKeepsWorld(s, es[0], n);
      i := VolumeLossWasCleared(Apply(s, es[0]), es[1..], n);
      RunFirst(s, es[0], es[1..][..i]);
      assert es[..i + 1] == [es[0]] + es[1..][..i];
      i := i + 1;
    }
  }

  /** The event does not ask to purge n. */
  predicate NoPurge(e: Event, n: Name) {
    !(e.PurgeCheck? && e.name == n) && !(e.Check? && e.request == Api.Deletion(n, true))
  }

  /** If nobody even asks, the volume stays. */
  lemma WorldSurvives(s: State, es: seq<Event>, n: Name)
    requires Named(s) && Unpurged(s, n) && s.cluster.At(n).volume.Some? && forall e | e in es :: KeepsNames(e)
    requires forall i | 0 <= i < |es| :: NoPurge(es[i], n)
    ensures Run(s, es).cluster.At(n).volume == s.cluster.At(n).volume
  {
    if Run(s, es).cluster.At(n).volume != s.cluster.At(n).volume {
      var _ := VolumeLossWasCleared(s, es, n);
    }
  }

  /** The loop holds no listed row of n. */
  predicate Unlisted(ctl: Ctl, n: Name) {
    ctl.Rows? ==>
      && (forall i | 0 <= i < |ctl.todo| :: ctl.todo[i].name != n)
      && (ctl.job.Some? ==> ctl.job.value.rec.name != n)
  }

  /** A purge that is no longer wanted: a later deletion without purge, a start or a stop withdraws it,
      unless the loop has already listed the row. */
  lemma WithdrawsPurge(s: State, req: Api.Request, f: Fault, n: Name)
    requires req.name == n && !req.Transfer? && req != Api.Deletion(n, true) && req in s.approved
    requires Api.Write(s.tables, req, f).1 in {200, 202}
    requires Unlisted(s.ctl, n) && n !in s.purging && Api.Deletion(n, true) !in s.approved
    ensures Unpurged(Apply(s, Write(req, f)), n)
  {
    ServerOutcome(s, Write(req, f));
    AcceptedWrite(s.tables, req, f);
  }

  lemma AcceptedWrite(t: Tables, req: Api.Request, f: Fault)
    requires !req.Transfer? && Api.Write(t, req, f).1 in {200, 202}
    ensures var rows' := Api.Write(t, req, f).0.rows;
            req.name in rows' && (Purges(rows'[req.name]) ==> req == Api.Deletion(req.name, true))
  {
  }

  /** The purge handler checks and deletes in two steps: a server created in between, with its row in
      place, still loses the volume it was to start from. */
  lemma PurgeRacesCreate(s: State, root: Api.Caller, owner: Name, n: Name, cfg: ValheimConfig)
    requires Api.Authentic(s.tables, root) && root.isRoot && s.cluster.At(n).volume.Some?
    requires n !in s.tables.rows && Api.Create(s.tables, s.registry, owner, n, cfg, Clean, Clean).1 == 202
    ensures var s1 := Run(s, [PurgeCheck(root, n), CreateServer(owner, n, cfg, Clean, Clean)]);
            var s2 := Apply(s1, PurgeDelete(n, Clean));
            && n in s1.tables.rows && s1.cluster.At(n).volume == s.cluster.At(n).volume
            && n in s2.tables.rows && s2.cluster.At(n).volume.None?
  {
    var a, b := PurgeCheck(root, n), CreateServer(owner, n, cfg, Clean, Clean);
    RunFirst(s, a, [b]);
    RunFirst(Apply(s, a), b, []);
    assert [a, b] == [a] + [b] && [b] == [b] + [];
    CheckApplies(s, root, n);
    CreateThenPurge(Apply(s, a), owner, n, cfg);
  }

  lemma CheckApplies(s: State, root: Api.Caller, n: Name)
    requires n !in s.tables.rows && Api.Authentic(s.tables, root) && root.isRoot
    ensures var s' := Apply(s, PurgeCheck(root, n));
            s'.tables == s.tables && s'.registry == s.registry && s'.cluster == s.cluster && n in s'.purging
  {
  }

  lemma CreateThenPurge(s: State, owner: Name, n: Name, cfg: ValheimConfig)
    requires n in s.purging && Api.Create(s.tables, s.registry, owner, n, cfg, Clean, Clean).1 == 202
    ensures var s1 := Apply(s, CreateServer(owner, n, cfg, Clean, Clean));
            var s2 := Apply(s1, PurgeDelete(n, Clean));
            && n in s1.tables.rows && s1.cluster == s.cluster
            && n in s2.tables.rows && s2.cluster.At(n).volume.None?
  {
    CreateApplies(s, owner, n, cfg);
    PurgeApplies(Apply(s, CreateServer(owner, n, cfg, Clean, Clean)), n);
    AcceptedCreateHasRow(s.tables, s.registry, owner, n, cfg);
  }

  lemma CreateApplies(s: State, owner: Name, n: Name, cfg: ValheimConfig)
    ensures var s' := Apply(s, CreateServer(owner, n, cfg, Clean, Clean));
            && s'.purging == s.purging && s'.cluster == s.cluster
            && s'.tables == Api.Create(s.tables, s.registry, owner, n, cfg, Clean, Clean).0
  {
  }

  lemma PurgeApplies(s: State, n: Name)
    requires n in s.purging
    ensures var s' := Apply(s, PurgeDelete(n, Clean)); s'.tables == s.tables && s'.cluster.At(n).volume.None?
  {
  }

  lemma AcceptedCreateHasRow(t: Tables, reg: Registry.Servers, owner: Name, n: Name, cfg: ValheimConfig)
    requires Api.Create(t, reg, owner, n, cfg, Clean, Clean).1 == 202
    ensures n in Api.Create(t, reg, owner, n, cfg, Clean, Clean).0.rows
  {
  }
}
