/** Starting or stopping a server that is being deleted. */
module StartProofs {
  import opened Types
  import opened Cluster
  import opened Store
  import opened Machine
  import opened RowProofs
  import opened TeardownProofs
  import opened WorldProofs
  import opened RefinementProofs
  import Api
  import Registry

  predicate TearsDown(row: Row) {
    row.desired.Deleting? && row.config.Encoded?
  }

  /** The loop has listed n as deleting and is not done with it. */
  predicate DeletingAhead(ctl: Ctl, n: Name) {
    ctl.Rows? &&
    ((exists i :: 0 <= i < |ctl.todo| && ctl.todo[i].name == n && TearsDown(ctl.todo[i].row))
     || (ctl.job.Some? && ctl.job.value.rec.name == n && TearsDown(ctl.job.value.rec.row)
         && !ctl.job.value.pc.FailureIncrement?))
  }

  // What is started stays, unless the loop is ahead.

  /** Row n is wanted running or stopped, and the loop does not think otherwise. */
  ghost predicate Started(s: State, n: Name) {
    n in s.tables.rows && !s.tables.rows[n].desired.Deleting? && !DeletingAhead(s.ctl, n)
  }

  predicate LeavesStarted(e: Event, n: Name) {
    !e.ResetDatabase? && !(e.Write? && e.request.Deletion? && e.request.name == n)
  }

  lemma RowStaysStarted(s: State, e: Event, n: Name)
    requires Named(s) && Started(s, n) && LeavesStarted(e, n)
    ensures n in Apply(s, e).tables.rows && !Apply(s, e).tables.rows[n].desired.Deleting?
  {
    StepFate(s, e, n);
  }

  lemma CallKeepsAhead(s: State, e: Event, n: Name)
    requires e.MakeCall? && !DeletingAhead(s.ctl, n)
    ensures !DeletingAhead(Apply(s, e).ctl, n)
  {
    if s.ctl.Rows? && s.ctl.job.Some? {
      var job := s.ctl.job.value;
      var r := Step(s.cluster, s.tables, s.registry, job, e.fault, e.lingers, e.giveUp);
      if job.pc.FailureIncrement? {
        CountingEndsTurn(s.cluster, s.tables, s.registry, job, e.fault, e.lingers, e.giveUp);
      }
      assert Apply(s, e) == AfterTurn(s, job.rec, r);
    }
  }

  lemma LoopKeepsAhead(s: State, e: Event, n: Name)
    requires Started(s, n) && IsLoopEvent(e)
    ensures !DeletingAhead(Apply(s, e).ctl, n)
  {
    if e.MakeCall? {
      CallKeepsAhead(s, e, n);
    } else if e.NextRow? {
      if Apply(s, e).ctl != s.ctl {
        assert forall i | 0 <= i < |s.ctl.todo[1..]| :: s.ctl.todo[1..][i] == s.ctl.todo[i + 1];
        assert s.ctl.todo[0].name == n ==> !TearsDown(s.ctl.todo[0].row);
      }
    }
  }

  lemma StepStaysStarted(s: State, e: Event, n: Name)
    requires Named(s) && Started(s, n) && LeavesStarted(e, n)
    ensures Started(Apply(s, e), n)
  {
    RowStaysStarted(s, e, n);
    if IsLoopEvent(e) {
      LoopKeepsAhead(s, e, n);
    } else if ChangesServers(e) {
      ServerOutcome(s, e);
    }
  }

  /** In every run without a new deletion of n, a row that is started while the loop has not listed it
      as deleting stays. */
  lemma {:induction false} StartSticks(s: State, es: seq<Event>, n: Name)
    requires Named(s) && Started(s, n) && forall e | e in es :: KeepsNames(e) && LeavesStarted(e, n)
    ensures Started(Run(s, es), n)
    decreases |es|
  {
    if es != [] {
      StepStaysStarted(s, es[0], n);
      StepKeepsNamed(s, es[0]);
      StartSticks(Apply(s, es[0]), es[1..], n);
    }
  }

  // And is lost, if it is.

  ghost predicate LosesRow(s: State, es: seq<Event>, n: Name) {
    (forall e | e in es :: Own(e)) && n !in Run(s, es).tables.rows
  }

  /** The loop's own next steps can drop row n. */
  ghost predicate CanLose(s: State, n: Name) {
    exists es :: LosesRow(s, es, n)
  }

  lemma LosesLater(s: State, s': State, n: Name)
    requires Reaches(s, s') && CanLose(s', n)
    ensures CanLose(s, n)
  {
    var es :| Leads(s, es, s');
    var fs :| LosesRow(s', fs, n);
    RunSplits(s, es, fs);
    assert LosesRow(s, es + fs, n);
  }

  /** How many calls of a teardown are left. */
  function CallsLeft(pc: Call): nat {
    match pc
    case DeploymentDelete => 5
    case ServiceDelete => 4
    case ConfigMapDelete => 3
    case SecretDelete => 2
    case VolumeDelete => 1
    case _ => 0
  }

  lemma CleanDeletionCall(c: Objects, t: Tables, rec: Record, cfg: ValheimConfig, pc: Call)
    requires rec.row.desired.Deleting? && PointOk(rec.row, pc) && !pc.RowDelete?
    ensures OpAt(rec, cfg, pc, false).Some?
    ensures WriteCall(c, t, rec, cfg, pc, OpAt(rec, cfg, pc, false).value, Clean).next == Some(AfterWrite(rec.row, pc))
  {
  }

  lemma CleanDeletion(s: State, rec: Record, cfg: ValheimConfig, pc: Call)
    requires s.ctl.Rows? && s.ctl.job == Some(Job(rec, pc)) && rec.row.config == Encoded(cfg)
    requires rec.row.desired.Deleting? && PointOk(rec.row, pc) && !pc.RowDelete?
    ensures var s' := Apply(s, MakeCall(Clean, false, false));
            s'.ctl == s.ctl.(job := Some(Job(rec, AfterWrite(rec.row, pc))))
  {
    CleanDeletionCall(s.cluster, s.tables, rec, cfg, pc);
    var r := WriteCall(s.cluster, s.tables, rec, cfg, pc, OpAt(rec, cfg, pc, false).value, Clean);
    assert Apply(s, MakeCall(Clean, false, false)) == AfterTurn(s, rec, r);
  }

  lemma CleanRowDelete(s: State, rec: Record, cfg: ValheimConfig)
    requires s.ctl.Rows? && s.ctl.job == Some(Job(rec, RowDelete)) && rec.row.config == Encoded(cfg)
    ensures rec.name !in Apply(s, MakeCall(Clean, false, false)).tables.rows
  {
    var r := OtherCall(s.cluster, s.tables, s.registry, rec, cfg, RowDelete, Clean, false);
    assert Apply(s, MakeCall(Clean, false, false)) == AfterTurn(s, rec, r);
  }

  lemma {:induction false} TeardownLoses(s: State, rec: Record, pc: Call)
    requires s.ctl.Rows? && s.ctl.job == Some(Job(rec, pc)) && TearsDown(rec.row) && PointOk(rec.row, pc)
    ensures CanLose(s, rec.name)
    decreases CallsLeft(pc)
  {
    var e := MakeCall(Clean, false, false);
    if pc.RowDelete? {
      CleanRowDelete(s, rec, rec.row.config.cfg);
      RunFirst(s, e, []);
      assert [e] + [] == [e];
      assert LosesRow(s, [e], rec.name);
    } else {
      CleanDeletion(s, rec, rec.row.config.cfg, pc);
      ReachesNext(s, e);
      AfterWritePoint(rec, rec.row.config.cfg, pc, false);
      TeardownLoses(Apply(s, e), rec, AfterWrite(rec.row, pc));
      LosesLater(s, Apply(s, e), rec.name);
    }
  }

  // Other rows' turns can all be cut short.

  function CutsLeft(pc: Call): nat {
    if pc.FailureIncrement? then 0 else if pc.ScaleCheck? then 2 else 1
  }

  lemma DroppedCall(s: State, job: Job)
    requires s.ctl.Rows? && s.ctl.job == Some(job)
    ensures var s' := Apply(s, MakeCall(Dropped, false, false));
            && s'.ctl == s.ctl.(job := s'.ctl.job)
            && (s'.ctl.job.Some? ==> CutsLeft(s'.ctl.job.value.pc) < CutsLeft(job.pc))
  {
    var r := Step(s.cluster, s.tables, s.registry, job, Dropped, false, false);
    DroppedStep(s.cluster, s.tables, s.registry, job);
    assert Apply(s, MakeCall(Dropped, false, false)) == AfterTurn(s, job.rec, r);
  }

  lemma DroppedStep(c: Objects, t: Tables, reg: Registry.Servers, job: Job)
    ensures var r := Step(c, t, reg, job, Dropped, false, false);
            r.next.Some? ==> CutsLeft(r.next.value) < CutsLeft(job.pc)
  {
  }

  lemma {:induction false} JobEnds(s: State, job: Job) returns (s': State)
    requires s.ctl.Rows? && s.ctl.job == Some(job)
    ensures Reaches(s, s') && s'.ctl == s.ctl.(job := None)
    decreases CutsLeft(job.pc)
  {
    var e := MakeCall(Dropped, false, false);
    DroppedCall(s, job);
    ReachesNext(s, e);
    s' := Apply(s, e);
    if s'.ctl.job.Some? {
      var s1 := s';
      s' := JobEnds(s1, s1.ctl.job.value);
      ReachesOn(s, s1, s');
    }
  }

  /** Between turns, with a deleting record of n still to come. */
  lemma {:induction false} ListedLoses(s: State, n: Name, i: nat)
    requires s.ctl.Rows? && s.ctl.job.None? && i < |s.ctl.todo| && s.ctl.todo[i].name == n
    requires TearsDown(s.ctl.todo[i].row)
    ensures CanLose(s, n)
    decreases i
  {
    var s1 := Apply(s, NextRow);
    ReachesNext(s, NextRow);
    if i == 0 {
      TeardownLoses(s1, s.ctl.todo[0], DeploymentDelete);
    } else {
      var s2 := JobEnds(s1, s1.ctl.job.value);
      ReachesOn(s, s1, s2);
      ListedLoses(s2, n, i - 1);
      LosesLater(s1, s2, n);
    }
    LosesLater(s, s1, n);
  }

  lemma AheadLoses(s: State, n: Name)
    requires Named(s) && DeletingAhead(s.ctl, n)
    ensures CanLose(s, n)
  {
    if s.ctl.job.Some? && s.ctl.job.value.rec.name == n && TearsDown(s.ctl.job.value.rec.row)
       && !s.ctl.job.value.pc.FailureIncrement? {
      TeardownLoses(s, s.ctl.job.value.rec, s.ctl.job.value.pc);
    } else {
      var i :| 0 <= i < |s.ctl.todo| && s.ctl.todo[i].name == n && TearsDown(s.ctl.todo[i].row);
      if s.ctl.job.Some? {
        var s1 := JobEnds(s, s.ctl.job.value);
        ListedLoses(s1, n, i);
        LosesLater(s, s1, n);
      } else {
        ListedLoses(s, n, i);
      }
    }
  }

  lemma StartedKeeps(s: State, n: Name)
    requires Named(s) && Started(s, n)
    ensures !CanLose(s, n)
  {
    if CanLose(s, n) {
      var es :| LosesRow(s, es, n);
      StartSticks(s, es, n);
    }
  }

  lemma AcceptedStart(t: Tables, n: Name, running: bool, f: Fault)
    requires Api.Write(t, Api.StateChange(n, running), f).1 == 200
    ensures var rows' := Api.Write(t, Api.StateChange(n, running), f).0.rows;
            n in rows' && (if running then rows'[n].desired.Running? else rows'[n].desired.Stopped?)
  {
  }

  /** An accepted start or stop leaves the row running or stopped, as asked. Of a server under deletion it
      can be lost, by the loop alone, exactly if the loop has already listed the row as deleting and is
      not done with it: the teardown then ends by dropping the row that is now wanted. */
  lemma AcceptedStartIsLostIff(s: State, n: Name, running: bool, f: Fault)
    requires Named(s) && Api.StateChange(n, running) in s.approved
    requires Api.Write(s.tables, Api.StateChange(n, running), f).1 == 200
    ensures var s' := Apply(s, Write(Api.StateChange(n, running), f));
            && n in s'.tables.rows
            && (if running then s'.tables.rows[n].desired.Running? else s'.tables.rows[n].desired.Stopped?)
            && (CanLose(s', n) <==> DeletingAhead(s.ctl, n))
  {
    var e := Write(Api.StateChange(n, running), f);
    var s' := Apply(s, e);
    ServerOutcome(s, e);
    AcceptedStart(s.tables, n, running, f);
    StepKeepsNamed(s, e);
    if DeletingAhead(s.ctl, n) {
      AheadLoses(s', n);
    } else {
      StartedKeeps(s', n);
    }
  }

  // And stays as it was asked to be.

  /** No other deletion, start or stop of n is written, and the database is not reset. */
  predicate LeavesState(e: Event, n: Name) {
    LeavesStarted(e, n) && !(e.Write? && e.request.name == n && !e.request.Transfer?)
  }

  lemma {:induction false} StateLasts(s: State, es: seq<Event>, n: Name)
    requires Named(s) && Started(s, n) && forall e | e in es :: KeepsNames(e) && LeavesState(e, n)
    ensures Started(Run(s, es), n) && Run(s, es).tables.rows[n].desired == s.tables.rows[n].desired
    decreases |es|
  {
    if es != [] {
      assert LeavesState(es[0], n);
      StepStaysStarted(s, es[0], n);
      StepKeepsNamed(s, es[0]);
      StepFate(s, es[0], n);
      StateLasts(Apply(s, es[0]), es[1..], n);
    }
  }

  /** A server whose start was accepted, with no teardown of it ahead, is running at the end of every run
      without another deletion, start or stop of it, whatever fails, drifts or restarts; likewise a stop. */
  lemma AcceptedStartLasts(s: State, n: Name, running: bool, f: Fault, es: seq<Event>)
    requires Named(s) && Api.StateChange(n, running) in s.approved && !DeletingAhead(s.ctl, n)
    requires Api.Write(s.tables, Api.StateChange(n, running), f).1 == 200
    requires forall e | e in es :: KeepsNames(e) && LeavesState(e, n)
    ensures var rows := Run(s, [Write(Api.StateChange(n, running), f)] + es).tables.rows;
            n in rows && (if running then rows[n].desired.Running? else rows[n].desired.Stopped?)
  {
    var e := Write(Api.StateChange(n, running), f);
    ServerOutcome(s, e);
    AcceptedStart(s.tables, n, running, f);
    StepKeepsNamed(s, e);
    StateLasts(Apply(s, e), es, n);
    RunFirst(s, e, es);
  }
}
