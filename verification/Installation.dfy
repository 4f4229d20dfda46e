/** What every run from a new installation keeps. */
module InstallationProofs {
  import opened Types
  import opened Manager
  import opened Converge
  import opened SlotProofs
  import opened PassProofs
  import opened PassTheorems
  import opened Convergence
  import opened Machine
  import opened RowProofs
  import opened TeardownProofs
  import opened WorldProofs
  import opened RunProofs
  import opened DriftProofs
  import opened PortProofs
  import opened OwnershipProofs
  import opened HonestyProofs

  /** A new installation satisfies every invariant. */
  lemma InstalledInOrder(rootUser: Name, password: string)
    ensures var s := Install(rootUser, password);
            Inv(s) && Named(s) && PortsOk(s) && WakeUps(s) && DriftCounted(s) && Ownership(s.tables, rootUser)
  {
    var s := Install(rootUser, password);
    forall n ensures Counted(s, n) {
      assert MissesOf(s.hist, n) == [];
    }
  }

  /** From a new installation, in every run that keeps the names and never resets the database: objects
      have rows, every Service has its own row's ports, the state is one the pass theorems apply to,
      drift counts are backed by passes, there is one root user, and rows have existing owners. */
  lemma EveryReachableStateIsInOrder(rootUser: Name, password: string, es: seq<Event>) returns (root: Name)
    requires forall e | e in es :: KeepsNames(e) && !e.ResetDatabase?
    ensures var s := Run(Install(rootUser, password), es);
            && (forall n :: Live(s.cluster.At(n)) ==> n in s.tables.rows)
            && ServicesMatch(s.cluster, s.tables.rows) && PairsApart(s.tables.rows)
            && Tidy(Sys(s.tables, s.cluster)) && DriftCounted(s) && Ownership(s.tables, root)
  {
    var s := Install(rootUser, password);
    InstalledInOrder(rootUser, password);
    ObjectsHaveRows(s, es);
    EveryRunIsTidy(s, es);
    RunKeepsCounted(s, es);
    root := OwnershipHolds(s, es, rootUser);
  }

  /** End to end: after a run from a new installation in which no risky step left n unfit, when
      the loop is woken, three passes that are calm for n bring it to what its row wants and keep it
      there, whatever the other servers do; n only needs a port, and no Deployment on its way out. */
  lemma ReachableServerConverges(rootUser: Name, password: string, es: seq<Event>, s: State, n: Name,
      p: PassEnd, a: PassInput, one: PassEnd, b: PassInput, two: PassEnd, c: PassInput, three: PassEnd)
    requires s == Run(Install(rootUser, password), es) && p == PassEnd(Sys(s.tables, s.cluster), s.drift)
    requires SteadyRun(Install(rootUser, password), es, n) && forall e | e in es :: KeepsNames(e) && !e.ResetDatabase?
    requires s.ctl.Woken? && Wanted(s.tables.rows, n) && PortOf(s.tables.rows[n]) != 0
    requires s.cluster.At(n).deployment.Some? ==> !s.cluster.At(n).deployment.value.terminating
    requires HardResetDue(s.tables.rows[n]) ==> InTime(a.io(n), RECREATE_POLL_INTERVAL)
    requires Fits(p, a) && Calm(a.io(n)) && one == RunPass(p, a)
    requires Fits(one, b) && Calm(b.io(n)) && Synced(b.reg, one.sys.cluster, n) && two == RunPass(one, b)
    requires Fits(two, c) && Calm(c.io(n)) && Synced(c.reg, two.sys.cluster, n) && three == RunPass(two, c)
    ensures var row := s.tables.rows[n].(failures := 0);
            && RowIs(two.sys.tables.rows, n, Some(row)) && Settled(two.sys.cluster.At(n), row, row.config.cfg)
            && RowIs(three.sys.tables.rows, n, Some(row)) && three.sys.cluster.At(n) == two.sys.cluster.At(n)
  {
    var start := Install(rootUser, password);
    InstalledInOrder(rootUser, password);
    EveryRunIsTidy(start, es);
    MarkersAreHonest(start, es, n);
    ReadyToConverge(s, n, a.io(n));
    ConvergesAlone(p, a, one, b, two, c, three, n);
  }
}
