/** The controller object of internal/controller/controller.go. */
module Controller {
  import opened Types
  import opened Builder
  import opened Cluster
  import opened Manager
  import opened Store
  import opened Database
  import opened Converge
  import Registry

  /** A Go channel of capacity 1, of which only the number of buffered tokens matters. */
  class Trigger {
    var tokens: nat

    predicate Valid()
      reads this
    {
      tokens <= 1
    }

    constructor ()
      ensures Valid() && tokens == 0
    {
      tokens := 0;
    }

    /** Poke never blocks: a full buffer drops the token. Afterwards exactly one token waits. */
    method Poke()
      requires Valid()
      modifies this
      ensures Valid() && tokens == 1
    {
      if tokens < 1 {
        tokens := tokens + 1;
      }
    }
  }

  class Controller {
    const store: Database
    const clientset: Clientset
    const registry: Registry.ServerRegistry
    const trigger: Trigger
    var driftCounts: DriftCounts

    function State(): Sys
      reads store, clientset
    {
      Sys(store.State(), clientset.State())
    }

    constructor (store: Database, clientset: Clientset, registry: Registry.ServerRegistry)
      ensures this.store == store && this.clientset == clientset && this.registry == registry
      ensures driftCounts == map[] && fresh(trigger) && trigger.Valid() && trigger.tokens == 0
    {
      this.store := store;
      this.clientset := clientset;
      this.registry := registry;
      this.driftCounts := map[];
      this.trigger := new Trigger();
    }

    method EnsureReplicas(n: Name, want: int32, io: Io) returns (ok: bool)
      modifies clientset
      ensures (clientset.State(), ok) == Converge.EnsureReplicas(old(clientset.State()), n, want, registry.servers, io)
    {
      var state := registry.Get(n);
      if state.None? || state.value.deployment.replicas == want { return true; }
      var r, _ := clientset.GetDeployment(n, io.fault(ScaleGet));
      if !r.Done? { return false; }
      r := clientset.Do(n, UpdateReplicas(want), io.fault(ScaleUpdate));
      return r.Done?;
    }

    method StateActions(rec: Record, cfg: ValheimConfig, io: Io) returns (ok: bool)
      requires rec.row.config == Encoded(cfg) && !rec.row.desired.Deleting?
      modifies store, clientset
      ensures (State(), ok) == Converge.ConvergeRow(old(State()), rec, registry.servers, io)
    {
      var mgr := new ServerManager(clientset, cfg.core.serverName, cfg);
      var want := TargetReplicas(rec.row.desired);
      if rec.row.failures > 0 && rec.row.failures % 5 == 0 {
        ok := mgr.RecreateAll(RECREATE_POLL_INTERVAL, io);
        if !ok { return; }
        ok := EnsureReplicas(rec.name, want, io);
        if !ok { return; }
        var reset := store.ResetFailures(rec.name, io.fault(FailuresReset));
        return reset.Ok?;
      }
      ok := mgr.CreateAll(io);
      if !ok { return; }
      var r, dep := clientset.GetDeployment(rec.name, io.fault(HashGet));
      if r.Refused? { return false; }
      var liveHash := if dep.Some? then dep.value.marker else None;
      if liveHash.Some? {
        if liveHash.value != HashCfg(cfg) {
          ok := mgr.ApplyConfig(HashCfg(cfg), io);
          if !ok { return; }
        }
      } else {
        ok := mgr.ApplyConfig(HashCfg(cfg), io);
        if !ok { return; }
      }
      ok := EnsureReplicas(rec.name, want, io);
      if !ok { return; }
      var reset := store.ResetFailures(rec.name, io.fault(FailuresReset));
      return reset.Ok?;
    }

    method ConvergeRow(rec: Record, io: Io) returns (ok: bool)
      modifies store, clientset
      ensures (State(), ok) == Converge.ConvergeRow(old(State()), rec, registry.servers, io)
    {
      match rec.row.config
      case Corrupt => return false;
      case Encoded(cfg) =>
        match rec.row.desired
        case Running => ok := StateActions(rec, cfg, io);
        case Stopped => ok := StateActions(rec, cfg, io);
        case Deleting =>
          var mgr := new ServerManager(clientset, cfg.core.serverName, cfg);
          ok := mgr.DeleteAll(rec.row.purge, io);
          if !ok { return; }
          var r := store.DeleteServer(rec.name, io.fault(RowDelete));
          return r.Ok?;
    }

    method DriftPass(rowNames: set<Name>, io: Weather) returns (ghost names: seq<Name>)
      modifies this, store
      ensures Lists(names, registry.servers.Keys)
      ensures (store.State(), driftCounts)
          == Converge.DriftPass(old(store.State()), old(driftCounts), names, rowNames, io)
    {
      var listed := registry.List();
      names := listed;
      for i := 0 to |listed|
        invariant Converge.DriftPass(store.State(), driftCounts, listed[i..], rowNames, io)
               == Converge.DriftPass(old(store.State()), old(driftCounts), listed, rowNames, io)
      {
        var n := listed[i];
        assert listed[i..][1..] == listed[i + 1..];
        if n in rowNames {
          driftCounts := driftCounts - {n};
        } else {
          driftCounts := driftCounts[n := Count(driftCounts, n) + 1];
          if driftCounts[n] >= 3 {
            var r := store.InsertOrphanTombstone(n, OrphanConfig(n), io(n).fault(TombstoneInsert));
            if r.Ok? {
              driftCounts := driftCounts - {n};
            }
          }
        }
      }
      assert listed[|listed|..] == [];
    }

    /** The row loop of Reconcile: a failing row is counted and the loop goes on. */
    method ConvergeRows(rows: seq<Record>, io: Weather)
      modifies store, clientset
      ensures State() == PassRows(old(State()), rows, registry.servers, io)
    {
      for i := 0 to |rows|
        invariant PassRows(State(), rows[i..], registry.servers, io)
            == PassRows(old(State()), rows, registry.servers, io)
      {
        assert rows[i..][1..] == rows[i + 1..];
        var ok := ConvergeRow(rows[i], io(rows[i].name));
        if !ok {
          var _ := store.IncrementFailure(rows[i].name, io(rows[i].name).fault(FailureIncrement));
        }
      }
      assert rows[|rows|..] == [];
    }

    /** A failed listing ends the pass before it starts. Otherwise the pass runs over the rows in the
        order the query gave and over the registry in the order the map gave. */
    method Reconcile(listing: Fault, io: Weather) returns (ghost records: seq<Record>, ghost names: seq<Name>)
      modifies this, store, clientset
      ensures !listing.Clean? ==> State() == old(State()) && driftCounts == old(driftCounts)
      ensures listing.Clean? ==>
                && IsListing(records, old(store.rows))
                && Lists(names, registry.servers.Keys)
                && PassEnd(State(), driftCounts)
                    == Pass(old(State()), old(driftCounts), records, names, registry.servers, io)
    {
      records, names := [], [];
      var listed := store.ListServerConfigs(listing);
      if listed.None? { return; }
      var rows := listed.value;
      records := rows;
      var rowNames := set r | r in rows :: r.name;
      ConvergeRows(rows, io);
      names := DriftPass(rowNames, io);
    }
  }
}
