/** The informer callbacks and the start-up replay of internal/k8s/informer.go, and what they
    promise about the registry. */
module Informer {
  import opened Types
  import opened Registry

  class InformerManager {
    const registry: ServerRegistry

    constructor ()
      ensures fresh(registry) && registry.servers == map[]
    {
      registry := new ServerRegistry();
    }

    method UpsertDeployment(d: DeploymentObj)
      modifies registry
      ensures registry.servers == Apply(old(registry.servers), DeploymentUpsert(d))
    {
      if !d.managed { return; }
      registry.Upsert(d.name, (x: Entry) => x.(deployment := DeploymentSeen(x.deployment, d)));
    }

    method DeleteDeployment(d: DeploymentObj)
      modifies registry
      ensures registry.servers == Apply(old(registry.servers), DeploymentDelete(d))
    {
      registry.Delete(d.name);
    }

    method UpsertService(s: ServiceObj)
      modifies registry
      ensures registry.servers == Apply(old(registry.servers), ServiceUpsert(s))
    {
      if !s.managed { return; }
      var gamePort: int32, queryPort: int32 := 0, 0;
      for i := 0 to |s.ports|
        invariant gamePort == PortNamed(s.ports[..i], "valheim-udp")
        invariant queryPort == PortNamed(s.ports[..i], "valheim-query")
      {
        assert s.ports[..i + 1][..i] == s.ports[..i];
        if s.ports[i].name == "valheim-udp" {
          assert "valheim-udp"[8] != "valheim-query"[8];
          gamePort := s.ports[i].nodePort;
        } else if s.ports[i].name == "valheim-query" {
          queryPort := s.ports[i].nodePort;
        }
      }
      assert s.ports[..|s.ports|] == s.ports;
      registry.Upsert(TrimServiceSuffix(s.name), (x: Entry) => x.(service := ServicePart(gamePort, queryPort)));
    }

    method DeleteService(s: ServiceObj)
      modifies registry
      ensures registry.servers == Apply(old(registry.servers), ServiceDelete(s))
    {
      if !s.managed { return; }
      var _ := registry.UpdateIfExists(TrimServiceSuffix(s.name), (x: Entry) => x.(service := NO_SERVICE));
    }

    method UpsertPod(p: PodObj)
      modifies registry
      ensures registry.servers == Apply(old(registry.servers), PodUpsert(p))
    {
      if !p.managed || p.server.None? { return; }
      var _ := registry.UpdateIfExists(p.server.value, (x: Entry) => x.(pod := PodSeen(x.pod, p)));
    }

    method DeletePod(p: PodObj)
      modifies registry
      ensures registry.servers == Apply(old(registry.servers), PodDelete(p))
    {
      if !p.managed || p.server.None? { return; }
      var _ := registry.UpdateIfExists(p.server.value, (x: Entry) => x.(pod := NO_POD));
    }

    /** The three loops StartInformerManager runs once the caches are synced. */
    method Replay(ds: seq<DeploymentObj>, ss: seq<ServiceObj>, ps: seq<PodObj>)
      modifies registry
      ensures registry.servers == ReplayAll(old(registry.servers), ds, ss, ps)
    {
      ghost var es := ReplayEvents(ds, ss, ps);
      ghost var start := registry.servers;
      assert es[..0] == [];
      for i := 0 to |ds|
        invariant registry.servers == ApplyAll(start, es[..i])
      {
        UpsertDeployment(ds[i]);
        ApplyOneMore(start, es, i);
      }
      for i := 0 to |ss|
        invariant registry.servers == ApplyAll(start, es[..|ds| + i])
      {
        UpsertService(ss[i]);
        ApplyOneMore(start, es, |ds| + i);
      }
      for i := 0 to |ps|
        invariant registry.servers == ApplyAll(start, es[..|ds| + |ss| + i])
      {
        UpsertPod(ps[i]);
        ApplyOneMore(start, es, |ds| + |ss| + i);
      }
      assert es[..|ds| + |ss| + |ps|] == es;
    }
  }

  function Deployments(ds: seq<DeploymentObj>): (es: seq<Event>)
    ensures |es| == |ds| && forall i | 0 <= i < |ds| :: es[i] == DeploymentUpsert(ds[i])
  {
    seq(|ds|, i requires 0 <= i < |ds| => DeploymentUpsert(ds[i]))
  }

  function Services(ss: seq<ServiceObj>): (es: seq<Event>)
    ensures |es| == |ss| && forall i | 0 <= i < |ss| :: es[i] == ServiceUpsert(ss[i])
  {
    seq(|ss|, i requires 0 <= i < |ss| => ServiceUpsert(ss[i]))
  }

  function Pods(ps: seq<PodObj>): (es: seq<Event>)
    ensures |es| == |ps| && forall i | 0 <= i < |ps| :: es[i] == PodUpsert(ps[i])
  {
    seq(|ps|, i requires 0 <= i < |ps| => PodUpsert(ps[i]))
  }

  /** Replay takes the Deployments and Services, which make entries, before the pods, which do not. */
  function ReplayEvents(ds: seq<DeploymentObj>, ss: seq<ServiceObj>, ps: seq<PodObj>): seq<Event> {
    Deployments(ds) + Services(ss) + Pods(ps)
  }

  function ReplayAll(r: Servers, ds: seq<DeploymentObj>, ss: seq<ServiceObj>, ps: seq<PodObj>): Servers {
    ApplyAll(r, ReplayEvents(ds, ss, ps))
  }

  lemma {:induction false} ApplyAllSplits(r: Servers, a: seq<Event>, b: seq<Event>)
    ensures ApplyAll(r, a + b) == ApplyAll(ApplyAll(r, a), b)
    decreases |a|
  {
    if a == [] {
      assert a + b == b;
    } else {
      assert (a + b)[1..] == a[1..] + b;
      ApplyAllSplits(Apply(r, a[0]), a[1..], b);
    }
  }

  lemma ApplyOneMore(r: Servers, es: seq<Event>, i: nat)
    requires i < |es|
    ensures ApplyAll(r, es[..i + 1]) == Apply(ApplyAll(r, es[..i]), es[i])
  {
    assert es[..i + 1] == es[..i] + [es[i]];
    ApplyAllSplits(r, es[..i], [es[i]]);
  }

  // Confluence.

  /** The server an event is about, if the callback acts on any. */
  function Target(e: Event): Option<Name> {
    match e
    case DeploymentUpsert(d) => if d.managed then Some(d.name) else None
    case DeploymentDelete(d) => Some(d.name)
    case ServiceUpsert(s) => if s.managed then Some(TrimServiceSuffix(s.name)) else None
    case ServiceDelete(s) => if s.managed then Some(TrimServiceSuffix(s.name)) else None
    case PodUpsert(p) => if p.managed then p.server else None
    case PodDelete(p) => if p.managed then p.server else None
  }

  datatype Kind = DeploymentKind | ServiceKind | PodKind

  function KindOf(e: Event): Kind {
    match e
    case DeploymentUpsert(_) => DeploymentKind
    case DeploymentDelete(_) => DeploymentKind
    case ServiceUpsert(_) => ServiceKind
    case ServiceDelete(_) => ServiceKind
    case PodUpsert(_) => PodKind
    case PodDelete(_) => PodKind
  }

  predicate Matches(e: Event, n: Name, k: Kind) {
    Target(e) == Some(n) && KindOf(e) == k
  }

  /** The events of one kind about one server, in order: one informer's stream for that server. */
  function Stream(es: seq<Event>, n: Name, k: Kind): seq<Event> {
    if es == [] then []
    else (if Matches(es[0], n, k) then [es[0]] else []) + Stream(es[1..], n, k)
  }

  // What an event of its kind does to the part of its server's entry.

  function DeploymentStep(p: DeploymentPart, e: Event): DeploymentPart {
    if e.DeploymentUpsert? then DeploymentSeen(p, e.d) else p
  }

  function ServiceStep(p: ServicePart, e: Event): ServicePart {
    if e.ServiceUpsert? then ServiceSeen(e.s) else if e.ServiceDelete? then NO_SERVICE else p
  }

  function PodStep(p: PodPart, e: Event): PodPart {
    if e.PodUpsert? then PodSeen(p, e.p) else if e.PodDelete? then NO_POD else p
  }

  function Fold<P>(step: (P, Event) -> P, p: P, es: seq<Event>): P
    decreases |es|
  {
    if es == [] then p else Fold(step, step(p, es[0]), es[1..])
  }

  predicate IsDeploymentDelete(e: Event, n: Name) {
    e.DeploymentDelete? && e.d.name == n
  }

  predicate IsPodUpsert(e: Event, n: Name) {
    e.PodUpsert? && Target(e) == Some(n)
  }

  /** The product of the three folds. */
  function Folds(x: Entry, es: seq<Event>, n: Name): Entry {
    Entry(
      Fold(DeploymentStep, x.deployment, Stream(es, n, DeploymentKind)),
      Fold(ServiceStep, x.service, Stream(es, n, ServiceKind)),
      Fold(PodStep, x.pod, Stream(es, n, PodKind)))
  }

  /** One event changes only the part of its own kind, in its own server's entry. */
  lemma OneEventActs(r: Servers, e: Event, n: Name)
    requires !IsDeploymentDelete(e, n) && (n in r || !IsPodUpsert(e, n))
    ensures n in r ==> n in Apply(r, e)
    ensures var x, y := EntryOr(r, n), EntryOr(Apply(r, e), n);
            && y.deployment == (if Matches(e, n, DeploymentKind) then DeploymentStep(x.deployment, e) else x.deployment)
            && y.service == (if Matches(e, n, ServiceKind) then ServiceStep(x.service, e) else x.service)
            && y.pod == (if Matches(e, n, PodKind) then PodStep(x.pod, e) else x.pod)
  {
    match e
    case DeploymentUpsert(_) =>
    case DeploymentDelete(_) =>
    case ServiceUpsert(_) =>
    case ServiceDelete(_) =>
    case PodUpsert(_) =>
    case PodDelete(_) =>
  }

  lemma FoldHead<P>(step: (P, Event) -> P, p: P, es: seq<Event>, n: Name, k: Kind)
    requires es != []
    ensures Fold(step, p, Stream(es, n, k))
         == Fold(step, if Matches(es[0], n, k) then step(p, es[0]) else p, Stream(es[1..], n, k))
  {
    if Matches(es[0], n, k) {
      assert Stream(es, n, k)[1..] == Stream(es[1..], n, k);
    } else {
      assert Stream(es, n, k) == Stream(es[1..], n, k);
    }
  }

  lemma OneEventFolds(r: Servers, es: seq<Event>, n: Name)
    requires es != [] && !IsDeploymentDelete(es[0], n) && (n in r || !IsPodUpsert(es[0], n))
    ensures Folds(EntryOr(Apply(r, es[0]), n), es[1..], n) == Folds(EntryOr(r, n), es, n)
    ensures n in r ==> n in Apply(r, es[0])
  {
    var x := EntryOr(r, n);
    OneEventActs(r, es[0], n);
    FoldHead(DeploymentStep, x.deployment, es, n, DeploymentKind);
    FoldHead(ServiceStep, x.service, es, n, ServiceKind);
    FoldHead(PodStep, x.pod, es, n, PodKind);
  }

  /** Without a Deployment delete, and with pod events only once the entry exists, the entry is the
      product of the folds. */
  lemma {:induction false} EntryFolds(r: Servers, es: seq<Event>, n: Name)
    requires forall i | 0 <= i < |es| :: !IsDeploymentDelete(es[i], n) && (n in r || !IsPodUpsert(es[i], n))
    ensures n in r ==> n in ApplyAll(r, es)
    ensures EntryOr(ApplyAll(r, es), n) == Folds(EntryOr(r, n), es, n)
    decreases |es|
  {
    if es != [] {
      OneEventFolds(r, es, n);
      forall i | 0 <= i < |es[1..]|
        ensures !IsDeploymentDelete(es[1..][i], n) && (n in Apply(r, es[0]) || !IsPodUpsert(es[1..][i], n))
      {
        assert es[1..][i] == es[i + 1];
      }
      EntryFolds(Apply(r, es[0]), es[1..], n);
    }
  }

  /** While an entry exists and no Deployment delete for it arrives, any interleaving of the three
      informers' events leaves the product of three folds, one per informer, each over that
      informer's own stream for the server. */
  lemma EntryIsProductOfFolds(r: Servers, es: seq<Event>, n: Name)
    requires n in r && forall i | 0 <= i < |es| :: !IsDeploymentDelete(es[i], n)
    ensures n in ApplyAll(r, es) && ApplyAll(r, es)[n] == Folds(r[n], es, n)
  {
    EntryFolds(r, es, n);
  }

  /** Two interleavings of the same per-server streams leave the same entry. */
  lemma InterleavingsAgree(r: Servers, a: seq<Event>, b: seq<Event>, n: Name)
    requires n in r
    requires forall i | 0 <= i < |a| :: !IsDeploymentDelete(a[i], n)
    requires forall i | 0 <= i < |b| :: !IsDeploymentDelete(b[i], n)
    requires forall k: Kind :: Stream(a, n, k) == Stream(b, n, k)
    ensures n in ApplyAll(r, a) && n in ApplyAll(r, b) && ApplyAll(r, a)[n] == ApplyAll(r, b)[n]
  {
    EntryIsProductOfFolds(r, a, n);
    EntryIsProductOfFolds(r, b, n);
  }

  // Start-up replay.

  predicate DeploymentOf(d: DeploymentObj, n: Name) {
    d.managed && d.name == n
  }

  predicate ServiceOf(s: ServiceObj, n: Name) {
    s.managed && TrimServiceSuffix(s.name) == n
  }

  predicate PodOf(p: PodObj, n: Name) {
    p.managed && p.server == Some(n)
  }

  /** The synced caches: at most one Deployment, one Service and one pod per server. */
  ghost predicate Cached(ds: seq<DeploymentObj>, ss: seq<ServiceObj>, ps: seq<PodObj>) {
    && (forall i, j, n | 0 <= i < j < |ds| :: !(DeploymentOf(ds[i], n) && DeploymentOf(ds[j], n)))
    && (forall i, j, n | 0 <= i < j < |ss| :: !(ServiceOf(ss[i], n) && ServiceOf(ss[j], n)))
    && (forall i, j, n | 0 <= i < j < |ps| :: !(PodOf(ps[i], n) && PodOf(ps[j], n)))
  }

  lemma {:induction false} StreamNone(es: seq<Event>, n: Name, k: Kind)
    requires forall i | 0 <= i < |es| :: !Matches(es[i], n, k)
    ensures Stream(es, n, k) == []
  {
    if es != [] {
      assert !Matches(es[0], n, k);
      forall i | 0 <= i < |es[1..]| ensures !Matches(es[1..][i], n, k) {
        assert es[1..][i] == es[i + 1];
      }
      StreamNone(es[1..], n, k);
    }
  }

  lemma {:induction false} StreamOne(es: seq<Event>, n: Name, k: Kind, at: nat)
    requires at < |es| && Matches(es[at], n, k)
    requires forall i | 0 <= i < |es| && i != at :: !Matches(es[i], n, k)
    ensures Stream(es, n, k) == [es[at]]
  {
    forall i | 0 <= i < |es[1..]| && i + 1 != at ensures !Matches(es[1..][i], n, k) {
      assert es[1..][i] == es[i + 1];
    }
    if at == 0 {
      StreamNone(es[1..], n, k);
    } else {
      assert !Matches(es[0], n, k);
      StreamOne(es[1..], n, k, at - 1);
    }
  }

  lemma {:induction false} StreamSplits(a: seq<Event>, b: seq<Event>, n: Name, k: Kind)
    ensures Stream(a + b, n, k) == Stream(a, n, k) + Stream(b, n, k)
  {
    if a == [] {
      assert a + b == b;
    } else {
      assert (a + b)[1..] == a[1..] + b;
      StreamSplits(a[1..], b, n, k);
      var head := if Matches(a[0], n, k) then [a[0]] else [];
      var x, y := Stream(a[1..], n, k), Stream(b, n, k);
      assert Stream(a + b, n, k) == head + (x + y);
      assert head + (x + y) == (head + x) + y;
    }
  }

  /** An upsert of the server's Deployment or Service makes the entry. */
  lemma {:induction false} UpsertMakesEntry(r: Servers, es: seq<Event>, n: Name)
    requires forall i | 0 <= i < |es| :: es[i].DeploymentUpsert? || es[i].ServiceUpsert?
    ensures n in ApplyAll(r, es) <==> n in r || exists i | 0 <= i < |es| :: Target(es[i]) == Some(n)
    decreases |es|
  {
    if es != [] {
      assert forall i | 0 <= i < |es[1..]| :: es[1..][i] == es[i + 1];
      UpsertMakesEntry(Apply(r, es[0]), es[1..], n);
      assert n in Apply(r, es[0]) <==> n in r || Target(es[0]) == Some(n);
      if i :| 0 <= i < |es| && Target(es[i]) == Some(n) {
        if i > 0 {
          assert es[1..][i - 1] == es[i];
        }
      }
    }
  }

  ghost predicate Listed(ds: seq<DeploymentObj>, ss: seq<ServiceObj>, n: Name) {
    (exists i :: 0 <= i < |ds| && DeploymentOf(ds[i], n)) || (exists i :: 0 <= i < |ss| && ServiceOf(ss[i], n))
  }

  lemma ListedIsTargeted(ds: seq<DeploymentObj>, ss: seq<ServiceObj>, n: Name)
    ensures Listed(ds, ss, n) <==>
            exists i | 0 <= i < |Deployments(ds) + Services(ss)| ::
                Target((Deployments(ds) + Services(ss))[i]) == Some(n)
  {
    var a, b := Deployments(ds), Services(ss);
    var heads := a + b;
    if Listed(ds, ss, n) {
      if i :| 0 <= i < |ds| && DeploymentOf(ds[i], n) {
        assert heads[i] == a[i] && Target(heads[i]) == Some(n);
      } else {
        var k :| 0 <= k < |ss| && ServiceOf(ss[k], n);
        assert heads[|a| + k] == b[k] && Target(heads[|a| + k]) == Some(n);
      }
    } else if i :| 0 <= i < |heads| && Target(heads[i]) == Some(n) {
      TargetIsListed(ds, ss, n, i);
    }
  }

  lemma TargetIsListed(ds: seq<DeploymentObj>, ss: seq<ServiceObj>, n: Name, i: nat)
    requires i < |ds| + |ss| && Target((Deployments(ds) + Services(ss))[i]) == Some(n)
    ensures Listed(ds, ss, n)
  {
    if i < |ds| {
      assert DeploymentOf(ds[i], n);
    } else {
      assert (Deployments(ds) + Services(ss))[i] == Services(ss)[i - |ds|];
      assert ServiceOf(ss[i - |ds|], n);
    }
  }

  /** Replay, server by server: a server ends with an entry exactly when it had one or is listed, and
      then the entry is the fold of the replayed events over the old one; a server with no entry
      ignores its pods. */
  lemma ReplayEntry(r: Servers, ds: seq<DeploymentObj>, ss: seq<ServiceObj>, ps: seq<PodObj>, n: Name)
    ensures n in ReplayAll(r, ds, ss, ps) <==> n in r || Listed(ds, ss, n)
    ensures n in ReplayAll(r, ds, ss, ps) ==>
        ReplayAll(r, ds, ss, ps)[n] == Folds(EntryOr(r, n), ReplayEvents(ds, ss, ps), n)
  {
    var heads, tails := Deployments(ds) + Services(ss), Pods(ps);
    ApplyAllSplits(r, heads, tails);
    var mid := ApplyAll(r, heads);
    UpsertMakesEntry(r, heads, n);
    ListedIsTargeted(ds, ss, n);
    PodsMakeNoEntry(mid, ps, n);
    if n in mid {
      EntryFolds(r, heads, n);
      EntryFolds(mid, tails, n);
      FoldsSplit(EntryOr(r, n), heads, tails, n);
    }
  }

  lemma {:induction false} PodsMakeNoEntry(r: Servers, ps: seq<PodObj>, n: Name)
    ensures n in ApplyAll(r, Pods(ps)) <==> n in r
    decreases |ps|
  {
    if ps != [] {
      assert Pods(ps)[1..] == Pods(ps[1..]);
      PodsMakeNoEntry(Apply(r, PodUpsert(ps[0])), ps[1..], n);
    }
  }

  lemma FoldsSplit(x: Entry, a: seq<Event>, b: seq<Event>, n: Name)
    ensures Folds(Folds(x, a, n), b, n) == Folds(x, a + b, n)
  {
    StreamSplits(a, b, n, DeploymentKind);
    StreamSplits(a, b, n, ServiceKind);
    StreamSplits(a, b, n, PodKind);
    FoldSplits(DeploymentStep, x.deployment, Stream(a, n, DeploymentKind), Stream(b, n, DeploymentKind));
    FoldSplits(ServiceStep, x.service, Stream(a, n, ServiceKind), Stream(b, n, ServiceKind));
    FoldSplits(PodStep, x.pod, Stream(a, n, PodKind), Stream(b, n, PodKind));
  }

  lemma {:induction false} FoldSplits<P>(step: (P, Event) -> P, p: P, a: seq<Event>, b: seq<Event>)
    ensures Fold(step, Fold(step, p, a), b) == Fold(step, p, a + b)
    decreases |a|
  {
    if a == [] {
      assert a + b == b;
    } else {
      assert (a + b)[1..] == a[1..] + b;
      FoldSplits(step, step(p, a[0]), a[1..], b);
    }
  }

  /** Of the replayed events, an informer's stream takes only its own part. */
  lemma OwnPart(ds: seq<DeploymentObj>, ss: seq<ServiceObj>, ps: seq<PodObj>, n: Name)
    ensures var es := ReplayEvents(ds, ss, ps);
            && Stream(es, n, DeploymentKind) == Stream(Deployments(ds), n, DeploymentKind)
            && Stream(es, n, ServiceKind) == Stream(Services(ss), n, ServiceKind)
            && Stream(es, n, PodKind) == Stream(Pods(ps), n, PodKind)
  {
    forall k: Kind
      ensures Stream(ReplayEvents(ds, ss, ps), n, k)
           == Stream(Deployments(ds), n, k) + Stream(Services(ss), n, k) + Stream(Pods(ps), n, k)
    {
      StreamSplits(Deployments(ds) + Services(ss), Pods(ps), n, k);
      StreamSplits(Deployments(ds), Services(ss), n, k);
    }
    StreamNone(Deployments(ds), n, ServiceKind);
    StreamNone(Deployments(ds), n, PodKind);
    StreamNone(Services(ss), n, DeploymentKind);
    StreamNone(Services(ss), n, PodKind);
    StreamNone(Pods(ps), n, DeploymentKind);
    StreamNone(Pods(ps), n, ServiceKind);
  }

  lemma DeploymentStream(ds: seq<DeploymentObj>, n: Name)
    requires forall i, j | 0 <= i < j < |ds| :: !(DeploymentOf(ds[i], n) && DeploymentOf(ds[j], n))
    ensures forall i | 0 <= i < |ds| && DeploymentOf(ds[i], n) ::
              Stream(Deployments(ds), n, DeploymentKind) == [DeploymentUpsert(ds[i])]
    ensures (forall i | 0 <= i < |ds| :: !DeploymentOf(ds[i], n)) ==> Stream(Deployments(ds), n, DeploymentKind) == []
  {
    OneOrNone(Deployments(ds), n, DeploymentKind);
    forall i | 0 <= i < |ds| && DeploymentOf(ds[i], n)
      ensures Stream(Deployments(ds), n, DeploymentKind) == [DeploymentUpsert(ds[i])]
    {
      StreamOne(Deployments(ds), n, DeploymentKind, i);
    }
  }

  lemma ServiceStream(ss: seq<ServiceObj>, n: Name)
    requires forall i, j | 0 <= i < j < |ss| :: !(ServiceOf(ss[i], n) && ServiceOf(ss[j], n))
    ensures forall i | 0 <= i < |ss| && ServiceOf(ss[i], n) ::
        Stream(Services(ss), n, ServiceKind) == [ServiceUpsert(ss[i])]
    ensures (forall i | 0 <= i < |ss| :: !ServiceOf(ss[i], n)) ==> Stream(Services(ss), n, ServiceKind) == []
  {
    OneOrNone(Services(ss), n, ServiceKind);
    forall i | 0 <= i < |ss| && ServiceOf(ss[i], n)
      ensures Stream(Services(ss), n, ServiceKind) == [ServiceUpsert(ss[i])]
    {
      StreamOne(Services(ss), n, ServiceKind, i);
    }
  }

  lemma PodStream(ps: seq<PodObj>, n: Name)
    requires forall i, j | 0 <= i < j < |ps| :: !(PodOf(ps[i], n) && PodOf(ps[j], n))
    ensures forall i | 0 <= i < |ps| && PodOf(ps[i], n) :: Stream(Pods(ps), n, PodKind) == [PodUpsert(ps[i])]
    ensures (forall i | 0 <= i < |ps| :: !PodOf(ps[i], n)) ==> Stream(Pods(ps), n, PodKind) == []
  {
    OneOrNone(Pods(ps), n, PodKind);
    forall i | 0 <= i < |ps| && PodOf(ps[i], n) ensures Stream(Pods(ps), n, PodKind) == [PodUpsert(ps[i])] {
      StreamOne(Pods(ps), n, PodKind, i);
    }
  }

  /** The replayed events about one server, by kind: the listed object, or nothing. */
  lemma ReplayStreams(ds: seq<DeploymentObj>, ss: seq<ServiceObj>, ps: seq<PodObj>, n: Name)
    requires Cached(ds, ss, ps)
    ensures var es := ReplayEvents(ds, ss, ps);
            && (forall i | 0 <= i < |ds| && DeploymentOf(ds[i], n) ::
                Stream(es, n, DeploymentKind) == [DeploymentUpsert(ds[i])])
            && ((forall i | 0 <= i < |ds| :: !DeploymentOf(ds[i], n)) ==> Stream(es, n, DeploymentKind) == [])
            && (forall i | 0 <= i < |ss| && ServiceOf(ss[i], n) :: Stream(es, n, ServiceKind) == [ServiceUpsert(ss[i])])
            && ((forall i | 0 <= i < |ss| :: !ServiceOf(ss[i], n)) ==> Stream(es, n, ServiceKind) == [])
            && (forall i | 0 <= i < |ps| && PodOf(ps[i], n) :: Stream(es, n, PodKind) == [PodUpsert(ps[i])])
            && ((forall i | 0 <= i < |ps| :: !PodOf(ps[i], n)) ==> Stream(es, n, PodKind) == [])
  {
    OwnPart(ds, ss, ps, n);
    DeploymentStream(ds, n);
    ServiceStream(ss, n);
    PodStream(ps, n);
  }

  lemma OneOrNone(es: seq<Event>, n: Name, k: Kind)
    ensures (forall i | 0 <= i < |es| :: !Matches(es[i], n, k)) ==> Stream(es, n, k) == []
  {
    if forall i | 0 <= i < |es| :: !Matches(es[i], n, k) {
      StreamNone(es, n, k);
    }
  }

  /** Start-up replay repairs whatever the live events left: from any registry, a listed server's
      entry becomes the projection of its cached objects, a part without a cached object keeps its
      old value, and pods that arrived before their entry are back. */
  lemma ReplayProjects(r: Servers, ds: seq<DeploymentObj>, ss: seq<ServiceObj>, ps: seq<PodObj>, n: Name, i: nat)
    requires Cached(ds, ss, ps) && i < |ds| && DeploymentOf(ds[i], n) && ds[i].replicas.Some?
    ensures n in ReplayAll(r, ds, ss, ps)
    ensures var e := ReplayAll(r, ds, ss, ps)[n];
            && e.deployment
                == DeploymentPart(DeploymentStatus(ds[i]), ds[i].replicas.value, ds[i].readyReplicas, ds[i].namespace)
            && (forall j | 0 <= j < |ss| && ServiceOf(ss[j], n) :: e.service == ServiceSeen(ss[j]))
            && ((forall j | 0 <= j < |ss| :: !ServiceOf(ss[j], n)) ==> e.service == EntryOr(r, n).service)
            && (forall j | 0 <= j < |ps| && PodOf(ps[j], n) && ps[j].containers != [] ::
                e.pod == PodSeen(NO_POD, ps[j]))
            && ((forall j | 0 <= j < |ps| :: !PodOf(ps[j], n)) ==> e.pod == EntryOr(r, n).pod)
  {
    ReplayEntry(r, ds, ss, ps, n);
    assert Listed(ds, ss, n);
    ReplayStreams(ds, ss, ps, n);
    FoldOne(DeploymentStep, EntryOr(r, n).deployment, DeploymentUpsert(ds[i]));
    forall j | 0 <= j < |ss| && ServiceOf(ss[j], n) ensures ReplayAll(r, ds, ss, ps)[n].service == ServiceSeen(ss[j]) {
      FoldOne(ServiceStep, EntryOr(r, n).service, ServiceUpsert(ss[j]));
    }
    forall j | 0 <= j < |ps| && PodOf(ps[j], n) && ps[j].containers != []
      ensures ReplayAll(r, ds, ss, ps)[n].pod == PodSeen(NO_POD, ps[j])
    {
      FoldOne(PodStep, EntryOr(r, n).pod, PodUpsert(ps[j]));
    }
  }

  lemma FoldOne<P>(step: (P, Event) -> P, p: P, e: Event)
    ensures Fold(step, p, [e]) == step(p, e)
  {
    assert [e][1..] == [];
  }

  // A fold depends on its start only where no event writes.

  lemma {:induction false} DeploymentFoldForgets(p: DeploymentPart, q: DeploymentPart, es: seq<Event>)
    ensures var a, b := Fold(DeploymentStep, p, es), Fold(DeploymentStep, q, es);
            && (a.replicas == b.replicas || (a.replicas == p.replicas && b.replicas == q.replicas))
            && (a.(replicas := 0) == b.(replicas := 0) || (a == p && b == q))
    decreases |es|
  {
    if es != [] {
      DeploymentFoldForgets(DeploymentStep(p, es[0]), DeploymentStep(q, es[0]), es[1..]);
    }
  }

  lemma {:induction false} ServiceFoldForgets(p: ServicePart, q: ServicePart, es: seq<Event>)
    ensures var a, b := Fold(ServiceStep, p, es), Fold(ServiceStep, q, es); a == b || (a == p && b == q)
    decreases |es|
  {
    if es != [] {
      ServiceFoldForgets(ServiceStep(p, es[0]), ServiceStep(q, es[0]), es[1..]);
    }
  }

  lemma {:induction false} PodFoldForgets(p: PodPart, q: PodPart, es: seq<Event>)
    ensures var a, b := Fold(PodStep, p, es), Fold(PodStep, q, es);
            && (a.nodeIP == b.nodeIP || (a == p && b == q))
            && (a.(nodeIP := "") == b.(nodeIP := "")
                || (a.(nodeIP := "") == p.(nodeIP := "") && b.(nodeIP := "") == q.(nodeIP := "")))
    decreases |es|
  {
    if es != [] {
      PodFoldForgets(PodStep(p, es[0]), PodStep(q, es[0]), es[1..]);
    }
  }

  /** The product of folds is idempotent, for any events. */
  lemma FoldsTwice(x: Entry, es: seq<Event>, n: Name)
    ensures Folds(Folds(x, es, n), es, n) == Folds(x, es, n)
  {
    var y := Folds(x, es, n);
    DeploymentFoldForgets(x.deployment, y.deployment, Stream(es, n, DeploymentKind));
    ServiceFoldForgets(x.service, y.service, Stream(es, n, ServiceKind));
    PodFoldForgets(x.pod, y.pod, Stream(es, n, PodKind));
  }

  /** Replaying the same caches again changes nothing, whatever they hold: several pods of one server
      included. */
  lemma ReplayTwiceIsOnce(r: Servers, ds: seq<DeploymentObj>, ss: seq<ServiceObj>, ps: seq<PodObj>)
    ensures ReplayAll(ReplayAll(r, ds, ss, ps), ds, ss, ps) == ReplayAll(r, ds, ss, ps)
  {
    var once := ReplayAll(r, ds, ss, ps);
    var twice := ReplayAll(once, ds, ss, ps);
    forall n
      ensures n in once <==> n in twice
      ensures n in once ==> once[n] == twice[n]
    {
      ReplayEntry(r, ds, ss, ps, n);
      ReplayEntry(once, ds, ss, ps, n);
      if n in once {
        FoldsTwice(EntryOr(r, n), ReplayEvents(ds, ss, ps), n);
      }
    }
  }

  // What the callbacks write, field by field.

  /** The status of a Deployment that asks for `want` replicas: on its way out, scaled to none, all ready,
      nothing there yet, or in between. */
  lemma StatusMeans(d: DeploymentObj)
    ensures var want := if d.replicas.Some? then d.replicas.value else 1;
            var status := DeploymentStatus(d);
            && (status.Deleting? <==> d.deleted)
            && (status.Stopped? <==> (!d.deleted && want == 0))
            && (status.Running? <==> (!d.deleted && want != 0 && d.statusReplicas > 0 && want <= d.readyReplicas))
            && (status.Provisioning? <==> (!d.deleted && want != 0 && d.statusReplicas == 0))
            && !status.NoStatus?
  {
  }

  /** A Deployment event writes its server's Deployment part and nothing else. */
  lemma DeploymentWrites(r: Servers, d: DeploymentObj)
    ensures var r', x := Apply(r, DeploymentUpsert(d)), EntryOr(r, d.name);
            if !d.managed then r' == r
            else
              && d.name in r' && r' - {d.name} == r - {d.name}
              && r'[d.name].service == x.service && r'[d.name].pod == x.pod
              && r'[d.name].deployment.status == DeploymentStatus(d)
              && r'[d.name].deployment.ready == d.readyReplicas && r'[d.name].deployment.namespace == d.namespace
              && r'[d.name].deployment.replicas == if d.replicas.Some? then d.replicas.value else x.deployment.replicas
    ensures Apply(r, DeploymentDelete(d)) == r - {d.name}
  {
  }

  /** The last port of the name counts. */
  lemma {:induction false} PortNamedIsLast(ports: seq<PortObj>, name: string, i: nat)
    requires i < |ports| && ports[i].name == name && forall j | i < j < |ports| :: ports[j].name != name
    ensures PortNamed(ports, name) == ports[i].nodePort
    decreases |ports|
  {
    if i < |ports| - 1 {
      PortNamedIsLast(ports[..|ports| - 1], name, i);
    }
  }

  /** A Service event writes the game port and the query port; an entry it makes knows nothing else. */
  lemma ServiceWrites(r: Servers, s: ServiceObj, i: nat, j: nat)
    requires s.managed && i < |s.ports| && j < |s.ports|
    requires s.ports[i].name == "valheim-udp" && forall k | i < k < |s.ports| :: s.ports[k].name != "valheim-udp"
    requires s.ports[j].name == "valheim-query" && forall k | j < k < |s.ports| :: s.ports[k].name != "valheim-query"
    ensures var n := TrimServiceSuffix(s.name);
            var r', x := Apply(r, ServiceUpsert(s)), EntryOr(r, n);
            && n in r' && r' - {n} == r - {n} && r'[n].deployment == x.deployment && r'[n].pod == x.pod
            && r'[n].service.nodePort == s.ports[i].nodePort && r'[n].service.queryPort == s.ports[j].nodePort
            && (n !in r ==>
                  r'[n].deployment == DeploymentPart(NoStatus, 0, 0, "") && r'[n].pod == PodPart("", 0, None, ""))
  {
    PortNamedIsLast(s.ports, "valheim-udp", i);
    PortNamedIsLast(s.ports, "valheim-query", j);
  }

  /** A pod event writes the pod part of an existing entry: its node, and of its first container the
      restarts, and since when it runs or why it waits. */
  lemma PodWrites(r: Servers, p: PodObj, n: Name)
    requires PodOf(p, n)
    ensures var r' := Apply(r, PodUpsert(p));
            if n !in r then r' == r
            else
              && n in r' && r' - {n} == r - {n}
              && r'[n].deployment == r[n].deployment && r'[n].service == r[n].service
              && r'[n].pod.nodeIP == p.hostIP
              && (p.containers == [] ==> r'[n].pod.(nodeIP := "") == r[n].pod.(nodeIP := ""))
              && (p.containers != [] ==>
                    var c := p.containers[0];
                    && r'[n].pod.restartCount == c.restartCount
                    && r'[n].pod.runningSince == (if c.state.RunningSince? then c.state.at else None)
                    && r'[n].pod.podWaiting == (if c.state.Waiting? then c.state.reason else ""))
  {
  }

  /** Deleted Services and pods leave zeros in an existing entry. */
  lemma DeletesWriteZeros(r: Servers, s: ServiceObj, p: PodObj, n: Name)
    requires PodOf(p, n) && ServiceOf(s, n)
    ensures n !in r ==> Apply(r, ServiceDelete(s)) == r && Apply(r, PodDelete(p)) == r
    ensures n in r ==>
              && Apply(r, ServiceDelete(s)) == r[n := r[n].(service := ServicePart(0, 0))]
              && Apply(r, PodDelete(p)) == r[n := r[n].(pod := PodPart("", 0, None, ""))]
  {
  }

  /** Objects without the label are ignored, but for the deletion of a Deployment. */
  lemma ForeignIgnored(r: Servers, d: DeploymentObj, s: ServiceObj, p: PodObj)
    requires !d.managed && !s.managed && (!p.managed || p.server.None?)
    ensures Apply(r, DeploymentUpsert(d)) == r && Apply(r, ServiceUpsert(s)) == r && Apply(r, ServiceDelete(s)) == r
    ensures Apply(r, PodUpsert(p)) == r && Apply(r, PodDelete(p)) == r
  {
  }

  /** Nothing but the suffix is trimmed, and only where it is. */
  lemma TrimsSuffixOnly(s: string)
    ensures var t := TrimServiceSuffix(s); s == t + "-service" || (s == t && forall n: string :: s != n + "-service")
  {
    forall n: string ensures s == n + "-service" ==> TrimServiceSuffix(s) == n {
      ServiceNameRoundTrip(n);
    }
  }

  /** A Service's own name leads back to its server. */
  lemma ServiceNameRoundTrip(n: Name)
    ensures TrimServiceSuffix(n + "-service") == n
  {
    assert (n + SERVICE_SUFFIX)[|n|..] == SERVICE_SUFFIX;
  }
}
