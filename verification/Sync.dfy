/** When the registry knows a server's Deployment: the assumption of the convergence theorems. */
module SyncProofs {
  import opened Types
  import opened Cluster
  import opened Registry
  import opened Convergence
  import Informer

  /** The Deployment cache holds the Deployment of n if there is one, with its replica count. */
  ghost predicate Shows(ds: seq<DeploymentObj>, c: Objects, n: Name) {
    && ((exists i :: 0 <= i < |ds| && Informer.DeploymentOf(ds[i], n)) <==> c.At(n).deployment.Some?)
    && (forall i | 0 <= i < |ds| && Informer.DeploymentOf(ds[i], n) ::
          c.At(n).deployment.Some? && ds[i].replicas == Some(c.At(n).deployment.value.replicas))
  }

  /** Start-up replay of up-to-date caches, over any registry, puts n in sync exactly if n has a Deployment
      or nothing else speaks for it: no entry from before and no Service. */
  lemma ReplaySyncsIff(r: Servers, ds: seq<DeploymentObj>, ss: seq<ServiceObj>, ps: seq<PodObj>, c: Objects, n: Name)
    requires Informer.Cached(ds, ss, ps) && Shows(ds, c, n)
    ensures Synced(Informer.ReplayAll(r, ds, ss, ps), c, n) <==>
            (c.At(n).deployment.Some?
             || (n !in r && forall i | 0 <= i < |ss| :: !Informer.ServiceOf(ss[i], n)))
  {
    if c.At(n).deployment.Some? {
      var i :| 0 <= i < |ds| && Informer.DeploymentOf(ds[i], n);
      Informer.ReplayProjects(r, ds, ss, ps, n, i);
    } else {
      Informer.ReplayEntry(r, ds, ss, ps, n);
    }
  }

  /** Live events keep n in sync: once the informer has delivered the present Deployment of n, whatever it
      delivered before, and however the other informers and servers interleave afterwards. */
  lemma DeliverySyncs(r: Servers, a: seq<Event>, d: DeploymentObj, b: seq<Event>, c: Objects, n: Name)
    requires Informer.DeploymentOf(d, n) && c.At(n).deployment.Some?
    requires d.replicas == Some(c.At(n).deployment.value.replicas)
    requires forall i | 0 <= i < |b| :: !Informer.Matches(b[i], n, Informer.DeploymentKind)
    ensures Synced(ApplyAll(r, a + [DeploymentUpsert(d)] + b), c, n)
  {
    Informer.ApplyAllSplits(r, a + [DeploymentUpsert(d)], b);
    Informer.ApplyAllSplits(r, a, [DeploymentUpsert(d)]);
    assert [DeploymentUpsert(d)][1..] == [];
    OthersKeepReplicas(ApplyAll(r, a + [DeploymentUpsert(d)]), b, n);
  }

  lemma {:induction false} OthersKeepReplicas(r: Servers, b: seq<Event>, n: Name)
    requires n in r && forall i | 0 <= i < |b| :: !Informer.Matches(b[i], n, Informer.DeploymentKind)
    ensures n in ApplyAll(r, b) && ApplyAll(r, b)[n].deployment == r[n].deployment
    decreases |b|
  {
    if b != [] {
      OneKeepsReplicas(r, b[0], n);
      OthersKeepReplicas(Registry.Apply(r, b[0]), b[1..], n);
    }
  }

  lemma OneKeepsReplicas(r: Servers, e: Event, n: Name)
    requires n in r && !Informer.Matches(e, n, Informer.DeploymentKind)
    ensures n in Registry.Apply(r, e) && Registry.Apply(r, e)[n].deployment == r[n].deployment
  {
    Informer.OneEventActs(r, e, n);
  }
}
