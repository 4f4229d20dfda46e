/** Rows whose configuration cannot be decoded. */
module CorruptProofs {
  import opened Types
  import opened Cluster
  import opened Store
  import opened Converge
  import opened Machine
  import opened RowProofs
  import Registry

  predicate Undecodable(t: Tables, n: Name) {
    n in t.rows && t.rows[n].config.Corrupt?
  }

  /** The row cannot be decoded, and the loop has not listed it as it was when it could. */
  ghost predicate Stuck(s: State, n: Name) {
    && Undecodable(s.tables, n)
    && (s.ctl.Rows? ==>
          && (forall i | 0 <= i < |s.ctl.todo| && s.ctl.todo[i].name == n :: s.ctl.todo[i].row.config.Corrupt?)
          && (s.ctl.job.Some? && s.ctl.job.value.rec.name == n ==> s.ctl.job.value.rec.row.config.Corrupt?))
  }

  /** Its turn touches no object and counts a failure, unless the count does not take effect. */
  lemma UndecodableTurnFails(sys: Sys, rec: Record, reg: Registry.Servers, io: Io)
    requires rec.row.config.Corrupt? && rec.name in sys.tables.rows && sys.tables.rows[rec.name] == rec.row
    ensures var r := PassRow(sys, rec, reg, io);
            && r.cluster == sys.cluster
            && r.tables.rows == if io.fault(FailureIncrement).Dropped? then sys.tables.rows
                                else sys.tables.rows[rec.name := rec.row.(failures := rec.row.failures + 1)]
  {
  }

  lemma RowStaysStuck(s: State, e: Event, n: Name)
    requires Stuck(s, n) && !e.ResetDatabase?
    ensures Undecodable(Apply(s, e).tables, n)
  {
    StepFate(s, e, n);
  }

  lemma LoopStaysStuck(s: State, e: Event, n: Name)
    requires Stuck(s, n) && IsLoopEvent(e)
    ensures Stuck(Apply(s, e), n)
  {
    RowStaysStuck(s, e, n);
    if e.NextRow? && Apply(s, e).ctl != s.ctl {
      assert forall i | 0 <= i < |s.ctl.todo[1..]| :: s.ctl.todo[1..][i] == s.ctl.todo[i + 1];
    }
  }

  lemma StepStaysStuck(s: State, e: Event, n: Name)
    requires Stuck(s, n) && !e.ResetDatabase?
    ensures Stuck(Apply(s, e), n)
  {
    if IsLoopEvent(e) {
      LoopStaysStuck(s, e, n);
    } else {
      RowStaysStuck(s, e, n);
      if ChangesServers(e) {
        ServerOutcome(s, e);
      }
    }
  }

  /** A row that cannot be decoded is stuck: no deletion, update or pass ever removes or repairs it,
      since even the teardown starts with decoding. Only the database reset does. */
  lemma {:induction false} UndecodableForGood(s: State, es: seq<Event>, n: Name)
    requires Stuck(s, n) && forall e | e in es :: !e.ResetDatabase?
    ensures Stuck(Run(s, es), n)
    decreases |es|
  {
    if es != [] {
      StepStaysStuck(s, es[0], n);
      UndecodableForGood(Apply(s, es[0]), es[1..], n);
    }
  }
}
