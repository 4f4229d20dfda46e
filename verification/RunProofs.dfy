/** Wake-ups, over whole runs: when a change that was announced to the loop is forgotten. */
module RunProofs {
  import opened Store
  import opened Machine
  import Api

  /** At most one token is buffered, so at most one extra pass is queued, and the writes are counted
      in order. */
  ghost predicate Bounded(s: State) {
    && s.tokens <= 1 && s.hist.seen <= s.hist.writes
    && (forall w | w in s.hist.owed :: w < s.hist.writes)
    && (forall w | w in s.hist.poked :: w < s.hist.writes)
  }

  /** Every poked write is covered: a listing has seen it, or a token waits, or the loop is woken and
      has not listed yet. */
  ghost predicate WakeUps(s: State) {
    Bounded(s) && forall w | w in s.hist.poked :: w < s.hist.seen || s.tokens == 1 || s.ctl.Woken?
  }

  /** The listing at the start of the pass fails. */
  predicate ListingFails(s: State, e: Event) {
    s.ctl.Woken? && e.ListRows? && !e.fault.Clean?
  }

  /** The event takes the last token or wake-up there is without listing the rows. */
  predicate DropsWakeUp(s: State, e: Event) {
    e.Restart? || (ListingFails(s, e) && s.tokens == 0)
  }

  /** Some poked write has not been listed. */
  ghost predicate Pending(s: State) {
    exists w :: w in s.hist.poked && s.hist.seen <= w
  }

  /** A wake-up is lost exactly when some poked write is unlisted and either the listing fails with no
      token left, or the process restarts: the token is in its memory, and it does not poke itself. */
  lemma WakeUpLostIff(s: State, e: Event)
    requires WakeUps(s)
    ensures WakeUps(Apply(s, e)) <==> !(DropsWakeUp(s, e) && Pending(s))
  {
    var s' := Apply(s, e);
    if e.Restart? {
      RestartForgets(s, e);
    } else if ListingFails(s, e) {
      assert s' == s.(ctl := Idle);
    } else if IsLoopEvent(e) {
      LoopKeepsWakeUps(s, e);
    } else if !IsWorldEvent(e) {
      HandlerKeepsWakeUps(s, e);
    }
  }

  lemma RestartForgets(s: State, e: Event)
    requires Bounded(s) && e.Restart?
    ensures Bounded(Apply(s, e)) && (WakeUps(Apply(s, e)) <==> !Pending(s))
  {
  }

  lemma LoopKeepsWakeUps(s: State, e: Event)
    requires WakeUps(s) && IsLoopEvent(e) && !ListingFails(s, e)
    ensures WakeUps(Apply(s, e))
  {
  }

  lemma WriteKeepsWakeUps(s: State, r: (Tables, int), pokes: bool)
    ensures WakeUps(s) ==> WakeUps(Handled(s, r, pokes))
    ensures Bounded(s) ==> Bounded(Handled(s, r, pokes))
  {
  }

  lemma HandlerKeepsWakeUps(s: State, e: Event)
    requires !IsLoopEvent(e) && !IsWorldEvent(e)
    ensures WakeUps(s) ==> WakeUps(Apply(s, e))
    ensures Bounded(s) ==> Bounded(Apply(s, e))
  {
    if ChangesServers(e) {
      ServerWriteKeepsWakeUps(s, e);
    } else if e.ResetDatabase? {
      WriteKeepsWakeUps(s, Api.Reset(s.tables, e.password, e.servers, e.users, e.admin), true);
    }
  }

  lemma ServerWriteKeepsWakeUps(s: State, e: Event)
    requires ChangesServers(e)
    ensures WakeUps(s) ==> WakeUps(ServerEvent(s, e))
    ensures Bounded(s) ==> Bounded(ServerEvent(s, e))
  {
    var r := Outcome(s, e);
    if !e.Write? {
      WriteKeepsWakeUps(s, r, true);
    } else if e.request in s.approved {
      WriteKeepsWakeUps(s.(approved := s.approved - multiset{e.request}), r, !e.request.Transfer?);
    }
  }

  /** A handler that writes to the servers table has answered with success, and is one that pokes: all
      do but the hand-over. */
  predicate Accepted(s: State, e: Event)
    requires ChangesServers(e)
  {
    && (e.Write? ==> e.request in s.approved && !e.request.Transfer?)
    && (Outcome(s, e).1 == 200 || Outcome(s, e).1 == 202)
  }

  /** Exactly then a poke is owed. */
  lemma PokeOwedIff(s: State, e: Event)
    requires Bounded(s) && ChangesServers(e)
    ensures s.hist.writes in Apply(s, e).hist.owed <==> Accepted(s, e)
  {
    ServerWriteOwes(s, e);
  }

  lemma ServerWriteOwes(s: State, e: Event)
    requires Bounded(s) && ChangesServers(e)
    ensures s.hist.writes in ServerEvent(s, e).hist.owed <==> Accepted(s, e)
  {
  }

  /** A reset owes one exactly if all its statements succeed. */
  lemma ResetOwesIff(s: State, e: Event)
    requires Bounded(s) && e.ResetDatabase?
    ensures s.hist.writes in HandlerEvent(s, e).hist.owed <==> e.servers.Clean? && e.users.Clean? && e.admin.Clean?
  {
  }

  /** A poke that is owed leaves exactly one token, and the idle loop takes it and wakes. */
  lemma TokenComesAndGoes(s: State, w: nat)
    requires s.tokens <= 1
    ensures w in s.hist.owed ==>
              Apply(s, Poke(w)).tokens == 1 && Apply(s, Poke(w)).hist.poked == s.hist.poked + {w}
    ensures s.ctl.Idle? && s.tokens == 1 ==> Apply(s, Receive).tokens == 0 && Apply(s, Receive).ctl.Woken?
  {
  }

  lemma StepKeepsBounded(s: State, e: Event)
    requires Bounded(s)
    ensures Bounded(Apply(s, e))
  {
    if !IsLoopEvent(e) && !IsWorldEvent(e) {
      HandlerKeepsWakeUps(s, e);
    }
  }

  /** The loop lists the rows. */
  ghost predicate Relists(s: State, e: Event) {
    s.ctl.Woken? && e.ListRows? && e.fault.Clean? && IsListing(e.records, s.tables.rows)
  }

  /** Whatever was lost before, the next listing makes up for it. */
  lemma ListingRestores(s: State, e: Event)
    requires Bounded(s) && Relists(s, e)
    ensures WakeUps(Apply(s, e)) && !Pending(Apply(s, e))
  {
  }

  // Whole runs.

  lemma {:induction false} RunKeepsBounded(s: State, es: seq<Event>)
    requires Bounded(s)
    ensures Bounded(Run(s, es))
    decreases |es|
  {
    if es != [] {
      StepKeepsBounded(s, es[0]);
      RunKeepsBounded(Apply(s, es[0]), es[1..]);
    }
  }

  /** Event i of the run loses a wake-up. */
  ghost predicate LosesAt(s: State, es: seq<Event>, i: nat)
    requires i < |es|
  {
    var a := Run(s, es[..i]);
    WakeUps(a) && DropsWakeUp(a, es[i]) && Pending(a)
  }

  /** If some poked write is uncovered at the end of a run, then an event of the run lost it, by a failed
      listing without a token or by a restart, and no listing has succeeded since. */
  lemma {:induction false} LostUntilListing(s: State, es: seq<Event>) returns (i: nat)
    requires WakeUps(s) && !WakeUps(Run(s, es))
    ensures i < |es| && LosesAt(s, es, i)
    ensures forall j | i < j < |es| :: !Relists(Run(s, es[..j]), es[j])
    decreases |es|
  {
    var k := |es| - 1;
    var front, last := es[..k], es[k];
    assert es == front + [last];
    RunLast(s, front, last);
    if WakeUps(Run(s, front)) {
      i := k;
      WakeUpLostIff(Run(s, front), last);
    } else {
      i := LostUntilListing(s, front);
      RunKeepsBounded(s, front);
      if Relists(Run(s, front), last) {
        ListingRestores(Run(s, front), last);
      }
      PrefixesAgree(es, k);
    }
  }

  lemma PrefixesAgree(es: seq<Event>, k: nat)
    requires k <= |es|
    ensures forall j | 0 <= j <= k :: es[..k][..j] == es[..j]
  {
  }

  /** No lost wake-up: in every run without a failed listing and without a restart, every poked write
      stays covered. */
  lemma NoLostWakeUp(s: State, es: seq<Event>)
    requires WakeUps(s) && forall i | 0 <= i < |es| :: !es[i].Restart? && (es[i].ListRows? ==> es[i].fault.Clean?)
    ensures WakeUps(Run(s, es))
  {
    if !WakeUps(Run(s, es)) {
      var _ := LostUntilListing(s, es);
    }
  }
}
