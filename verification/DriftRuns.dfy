/** Drift safety: the drift pass adds a row only after three passes missed one, and never touches a
    row that is there. */
module DriftProofs {
  import opened Types
  import opened Cluster
  import opened Store
  import opened Converge
  import opened PassTheorems
  import opened Machine
  import opened RowProofs
  import Api

  /** The passes ks, in order and none after the last one begun, all listed the rows without n. */
  ghost predicate AreMisses(snapshots: seq<set<Name>>, ks: seq<nat>, n: Name) {
    && (forall i, j | 0 <= i < j < |ks| :: ks[i] < ks[j])
    && (forall i | 0 <= i < |ks| :: 1 <= ks[i] <= |snapshots| && n !in snapshots[ks[i] - 1])
  }

  /** The drift loop of the pass in progress has not come to n yet. */
  predicate NotYet(ctl: Ctl, n: Name) {
    ctl.Rows? || (ctl.Drifting? && n in ctl.left)
  }

  /** The count of n is the number of its recorded misses, none of them from the pass in progress
      before its drift loop comes to n. */
  ghost predicate Counted(s: State, n: Name) {
    var ks := MissesOf(s.hist, n);
    && Count(s.drift, n) == |ks| && (n in s.drift <==> n in s.hist.misses)
    && AreMisses(s.hist.snapshots, ks, n)
    && (NotYet(s.ctl, n) ==> |s.hist.snapshots| !in ks)
  }

  /** The loop works with the names of the last listing, and comes to each registry entry once. */
  ghost predicate InPass(s: State) {
    && (s.ctl.Rows? || s.ctl.Drifting? ==>
        |s.hist.snapshots| > 0 && s.ctl.names == s.hist.snapshots[|s.hist.snapshots| - 1])
    && (s.ctl.Drifting? ==> forall i, j | 0 <= i < j < |s.ctl.left| :: s.ctl.left[i] != s.ctl.left[j])
  }

  ghost predicate DriftCounted(s: State) {
    InPass(s) && forall n :: Counted(s, n)
  }

  lemma ListingKeepsCounted(s: State, s': State, n: Name, names: set<Name>)
    requires Counted(s, n)
    requires s'.drift == s.drift && s'.hist.misses == s.hist.misses && s'.hist.snapshots == s.hist.snapshots + [names]
    ensures Counted(s', n)
  {
  }

  /** The turn of the drift loop for n itself. */
  lemma TurnCounts(s: State, f: Fault)
    requires DriftCounted(s) && s.ctl.Drifting? && s.ctl.left != []
    ensures Counted(DriftTurn(s, s.ctl.left[0], s.ctl.left[1..], s.ctl.names, f), s.ctl.left[0])
  {
    var n := s.ctl.left[0];
    assert Counted(s, n);
    var s' := DriftTurn(s, n, s.ctl.left[1..], s.ctl.names, f);
    assert n !in s.ctl.left[1..];
    var ks := MissesOf(s.hist, n);
    if n in s'.drift {
      assert MissesOf(s'.hist, n) == ks + [|s.hist.snapshots|];
    }
  }

  lemma TurnKeepsOthers(s: State, f: Fault, m: Name)
    requires DriftCounted(s) && s.ctl.Drifting? && s.ctl.left != [] && m != s.ctl.left[0]
    ensures Counted(DriftTurn(s, s.ctl.left[0], s.ctl.left[1..], s.ctl.names, f), m)
  {
    assert Counted(s, m);
    var s' := DriftTurn(s, s.ctl.left[0], s.ctl.left[1..], s.ctl.names, f);
    assert MissesOf(s'.hist, m) == MissesOf(s.hist, m) && Count(s'.drift, m) == Count(s.drift, m);
  }

  lemma DriftOneKeepsCounted(s: State, f: Fault)
    requires DriftCounted(s)
    ensures DriftCounted(Apply(s, DriftOne(f)))
  {
    if s.ctl.Drifting? && s.ctl.left != [] {
      forall n ensures Counted(Apply(s, DriftOne(f)), n) {
        if n == s.ctl.left[0] {
          TurnCounts(s, f);
        } else {
          TurnKeepsOthers(s, f, n);
        }
      }
    }
  }

  /** What the counts depend on, after an event that is neither a listing, a drift turn nor a restart. */
  ghost predicate SameCounts(s: State, s': State) {
    && s'.drift == s.drift && s'.hist.misses == s.hist.misses && s'.hist.snapshots == s.hist.snapshots
    && (s'.ctl.Rows? ==> s.ctl.Rows? && s'.ctl.names == s.ctl.names)
    && (s'.ctl.Drifting? ==> (s.ctl.Drifting? && s'.ctl == s.ctl) || (s.ctl.Rows? && s'.ctl.names == s.ctl.names))
  }

  lemma TurnKeepsCounts(s: State, rec: Record, r: Turn)
    requires s.ctl.Rows?
    ensures SameCounts(s, AfterTurn(s, rec, r))
  {
  }

  lemma LoopKeepsCounts(s: State, e: Event)
    requires IsLoopEvent(e) && !e.DriftOne? && !e.ListRows?
    ensures SameCounts(s, Apply(s, e))
  {
    if e.MakeCall? {
      if s.ctl.Rows? && s.ctl.job.Some? {
        var job := s.ctl.job.value;
        TurnKeepsCounts(s, job.rec, Step(s.cluster, s.tables, s.registry, job, e.fault, e.lingers, e.giveUp));
      }
    }
  }

  lemma ServerHandlersKeepCounts(s: State, e: Event)
    requires ChangesServers(e)
    ensures SameCounts(s, Apply(s, e))
  {
    ServerOutcome(s, e);
  }

  lemma HandlerKeepsCounts(s: State, e: Event)
    requires !e.ResetDatabase?
    ensures SameCounts(s, HandlerEvent(s, e))
  {
  }

  lemma WorldKeepsCounts(s: State, e: Event)
    requires !e.Restart?
    ensures SameCounts(s, WorldEvent(s, e))
  {
  }

  lemma RestKeepsCounts(s: State, e: Event)
    requires !IsLoopEvent(e) && !e.Restart? && !ChangesServers(e) && !e.ResetDatabase?
    ensures SameCounts(s, Apply(s, e))
  {
    HandlerKeepsCounts(s, e);
    WorldKeepsCounts(s, e);
  }

  lemma OutsideKeepsCounts(s: State, e: Event)
    requires !IsLoopEvent(e) && !e.Restart?
    ensures SameCounts(s, Apply(s, e))
  {
    if ChangesServers(e) {
      ServerHandlersKeepCounts(s, e);
    } else if e.ResetDatabase? {
      ResetKeepsCounts(s, Api.Reset(s.tables, e.password, e.servers, e.users, e.admin));
    } else {
      RestKeepsCounts(s, e);
    }
  }

  lemma ResetKeepsCounts(s: State, r: (Tables, int))
    ensures SameCounts(s, Handled(s, r, true))
  {
    HandledOnlyWrote(s, r, true);
  }

  lemma OthersKeepCounted(s: State, s': State)
    requires DriftCounted(s) && SameCounts(s, s')
    requires s'.ctl.Drifting? && s'.ctl != s.ctl ==> forall i, j | 0 <= i < j < |s'.ctl.left| ::
        s'.ctl.left[i] != s'.ctl.left[j]
    ensures DriftCounted(s')
  {
    forall n ensures Counted(s', n) {
      assert Counted(s, n);
    }
  }

  lemma ListRowsKeepsCounted(s: State, records: seq<Record>, f: Fault)
    requires DriftCounted(s)
    ensures DriftCounted(Apply(s, ListRows(records, f)))
  {
    var s' := Apply(s, ListRows(records, f));
    forall n ensures Counted(s', n) {
      assert Counted(s, n);
      if s'.ctl.Rows? && s'.ctl != s.ctl {
        ListingKeepsCounted(s, s', n, RecordNames(records));
      }
    }
  }

  lemma StepKeepsCounted(s: State, e: Event)
    requires DriftCounted(s)
    ensures DriftCounted(Apply(s, e))
  {
    if e.DriftOne? {
      DriftOneKeepsCounted(s, e.fault);
    } else if e.ListRows? {
      ListRowsKeepsCounted(s, e.records, e.fault);
    } else if !e.Restart? {
      if IsLoopEvent(e) {
        LoopKeepsCounts(s, e);
      } else {
        OutsideKeepsCounts(s, e);
      }
      OthersKeepCounted(s, Apply(s, e));
    }
  }

  lemma {:induction false} RunKeepsCounted(s: State, es: seq<Event>)
    requires DriftCounted(s)
    ensures DriftCounted(Run(s, es))
    decreases |es|
  {
    if es != [] {
      StepKeepsCounted(s, es[0]);
      RunKeepsCounted(Apply(s, es[0]), es[1..]);
    }
  }

  /** Exactly when a turn of the drift loop adds a row: n is missing from the listing and from the
      table, it was missed at least twice before, root still exists, and the insertion takes effect. */
  lemma TombstoneIff(s: State, f: Fault)
    requires DriftCounted(s) && s.ctl.Drifting? && s.ctl.left != []
    ensures var n := s.ctl.left[0];
            n in Apply(s, DriftOne(f)).tables.rows <==>
            n in s.tables.rows
            || (n !in s.ctl.names && |MissesOf(s.hist, n)| >= 2 && s.tables.rootUser in s.tables.users && !f.Dropped?)
  {
    assert Counted(s, s.ctl.left[0]);
  }

  /** What the turn leaves of the count: nothing for a listed server, and nothing once a tombstone is in;
      otherwise one more. A tombstone is tried at the third miss and, as long as it fails, at every later one. */
  lemma CountAfterTurn(t: Tables, drift: DriftCounts, n: Name, names: set<Name>, f: Fault)
    ensures var drift' := DriftEntry(t, drift, n, names, f).1;
            var misses := Count(drift, n) + 1;
            var inserted := misses >= 3 && n !in t.rows && t.rootUser in t.users && f.Clean?;
            && (n in drift' <==> (n !in names && !inserted))
            && (n in drift' ==> drift'[n] == misses)
            && forall m | m != n :: Count(drift', m) == Count(drift, m) && (m in drift' <==> m in drift)
  {
  }

  lemma DriftAdds(s: State, f: Fault, n: Name)
    requires n !in s.tables.rows && n in Apply(s, DriftOne(f)).tables.rows
    ensures s.ctl.Drifting? && s.ctl.left != [] && n == s.ctl.left[0]
  {
  }

  lemma ThreeMisses(s: State, f: Fault, n: Name, ks: seq<nat>)
    requires DriftCounted(s) && ks == MissesOf(s.hist, n)
    requires n !in s.tables.rows && n in Apply(s, DriftOne(f)).tables.rows
    ensures var h := s.hist;
            && |ks| >= 2 && 1 <= ks[0] < ks[1] < |h.snapshots|
            && n !in h.snapshots[ks[0] - 1] && n !in h.snapshots[ks[1] - 1] && n !in h.snapshots[|h.snapshots| - 1]
  {
    DriftAdds(s, f, n);
    TombstoneIff(s, f);
    assert Counted(s, n);
    assert ks[1] in ks && ks[1] != |s.hist.snapshots|;
  }

  /** In every run, when the drift pass adds a row for n, the pass in progress and at least two earlier
      ones, all since the count of n was last reset, listed the rows without n. */
  lemma TombstoneAfterThreeMisses(s: State, es: seq<Event>, f: Fault, n: Name) returns (a: nat, b: nat)
    requires DriftCounted(s)
    requires n !in Run(s, es).tables.rows && n in Apply(Run(s, es), DriftOne(f)).tables.rows
    ensures var h := Run(s, es).hist;
            && a in MissesOf(h, n) && b in MissesOf(h, n) && 1 <= a < b < |h.snapshots|
            && n !in h.snapshots[a - 1] && n !in h.snapshots[b - 1] && n !in h.snapshots[|h.snapshots| - 1]
  {
    RunKeepsCounted(s, es);
    var ks := MissesOf(Run(s, es).hist, n);
    ThreeMisses(Run(s, es), f, n, ks);
    a, b := ks[0], ks[1];
  }

  /** The drift loop never alters or removes a row, even one created in mid-pass, and what it adds is a
      tombstone that keeps the storage. */
  lemma DriftLeavesRows(s: State, f: Fault, n: Name)
    ensures var t' := Apply(s, DriftOne(f)).tables;
            && (n in s.tables.rows ==> n in t'.rows && t'.rows[n] == s.tables.rows[n])
            && (n !in s.tables.rows && n in t'.rows ==> t'.rows[n] == Tombstone(s.tables, n) && !t'.rows[n].purge)
  {
  }

  /** A running or stopped row turns into a deleting one only through the write of a deletion request
      that was approved. */
  lemma OnlyDeletionMarks(s: State, e: Event, n: Name)
    requires n in s.tables.rows && !s.tables.rows[n].desired.Deleting?
    requires n in Apply(s, e).tables.rows && Apply(s, e).tables.rows[n].desired.Deleting?
    ensures e.Write? && e.request.Deletion? && e.request.name == n && e.request in s.approved
  {
    StepFate(s, e, n);
  }
}
