/** What the manager's operations promise for one server, whatever faults occur. */
module SlotProofs {
  import opened Types
  import opened Builder
  import opened Cluster
  import opened Manager

  /** Every call answered cleanly. */
  ghost predicate Calm(io: Io) {
    (forall c: Call :: io.fault(c).Clean?) && (forall k: nat :: io.pollFault(k).Clean?)
  }

  /** The four objects are the ones built from the configuration. */
  predicate Built(s: Slot, cfg: ValheimConfig) {
    && s.configMap == Some(EnvOf(cfg))
    && s.secret == Some(cfg.core.serverPass)
    && s.service == Some(cfg.core.serverPort)
    && s.deployment == Some(Deployment(Some(HashCfg(cfg)), 1, false))
  }

  /** The server keeps its very volume, or gets its first one. */
  predicate VolumeKept(s: Slot, s': Slot) {
    if s.volume.Some? then s'.volume == s.volume && s'.volumesMade == s.volumesMade
    else
      || (s'.volume.None? && s'.volumesMade == s.volumesMade)
      || (s'.volume == Some(s.volumesMade) && s'.volumesMade == s.volumesMade + 1)
  }

  /** Everything that was there is untouched; what is new is built from the configuration. */
  predicate Adds(s: Slot, s': Slot, cfg: ValheimConfig) {
    && VolumeKept(s, s')
    && (s'.secret == s.secret || (s.secret.None? && s'.secret == Some(cfg.core.serverPass)))
    && (s'.configMap == s.configMap || (s.configMap.None? && s'.configMap == Some(EnvOf(cfg))))
    && (s'.service == s.service || (s.service.None? && s'.service == Some(cfg.core.serverPort)))
    && (s'.deployment == s.deployment
        || (s.deployment.None? && s'.deployment == Some(Deployment(Some(HashCfg(cfg)), 1, false))
            && s'.volume.Some? && s'.secret.Some? && s'.configMap.Some? && s'.service.Some?))
  }

  lemma CreateServiceAdds(s: Slot, cfg: ValheimConfig, free: bool, io: Io)
    ensures var d := CreateServiceIfMissing(s, cfg.core.serverPort, free, io);
            && d.slot.(service := None) == s.(service := None)
            && (d.slot.service == s.service || (free && s.service.None? && d.slot.service == Some(cfg.core.serverPort)))
            && (d.ok ==> d.slot.service.Some?)
            && (Calm(io) ==> (d.ok <==> s.service.Some? || free))
  {
  }

  lemma CreateDataAdds(s: Slot, cfg: ValheimConfig, io: Io)
    ensures var d := CreateData(s, cfg, io);
            && Adds(s, d.slot, cfg) && d.slot.service == s.service && d.slot.deployment == s.deployment
            && (d.ok ==> d.slot.volume.Some? && d.slot.secret.Some? && d.slot.configMap.Some?)
            && (Calm(io) ==> d.ok)
  {
  }

  /** However CreateAll ends, it only ever adds, and the Deployment comes last. */
  lemma CreateAllAdds(s: Slot, cfg: ValheimConfig, free: bool, io: Io)
    ensures Adds(s, CreateAll(s, cfg, free, io).slot, cfg)
    ensures !free ==> CreateAll(s, cfg, free, io).slot.service == s.service
  {
    CreateDataAdds(s, cfg, io);
    CreateServiceAdds(CreateData(s, cfg, io).slot, cfg, free, io);
  }

  /** A nil return of CreateAll means all five objects exist. */
  lemma CreateAllFills(s: Slot, cfg: ValheimConfig, free: bool, io: Io)
    ensures var d := CreateAll(s, cfg, free, io);
            && (d.ok ==> && d.slot.volume.Some? && d.slot.secret.Some? && d.slot.configMap.Some?
                         && d.slot.service.Some? && d.slot.deployment.Some?)
            && (Calm(io) ==> (d.ok <==> s.service.Some? || free))
  {
    CreateDataAdds(s, cfg, io);
    CreateServiceAdds(CreateData(s, cfg, io).slot, cfg, free, io);
  }

  /** ApplyConfig leaves the volume and the Service alone, and of the Deployment all but the marker. */
  lemma ApplyKeepsRest(s: Slot, cfg: ValheimConfig, hash: Digest, io: Io)
    ensures var s' := ApplyConfig(s, cfg, hash, io).slot;
            && s'.volume == s.volume && s'.volumesMade == s.volumesMade && s'.service == s.service
            && (s'.deployment == s.deployment
                || (s.deployment.Some? && s'.deployment == Some(s.deployment.value.(marker := Some(hash)))))
  {
  }

  /** The poll loop stops, whatever the sleep, since every poll takes time; for a positive sleep after
      no more than deadline / sleep + 1 polls. */
  lemma PollStops(s: Slot, io: Io, sleep: int)
    ensures 1 <= Poll(s, io, sleep, 0, 0).polls <= RECREATE_DEADLINE / (Pause(sleep) + 1) + 1
    ensures sleep > 0 ==> Poll(s, io, sleep, 0, 0).polls <= RECREATE_DEADLINE / sleep + 1
  {
    PollStopsFrom(s, io, sleep, 0, 0);
    var k := Poll(s, io, sleep, 0, 0).polls - 1;
    QuotientBounds(k, Pause(sleep) + 1, RECREATE_DEADLINE);
    if sleep > 0 {
      assert k * (sleep + 1) == k * sleep + k;
      QuotientBounds(k, sleep, RECREATE_DEADLINE);
    }
  }

  lemma QuotientBounds(k: nat, d: nat, total: nat)
    requires d > 0 && k * d <= total
    ensures k <= total / d
  {
    var q := total / d;
    assert total == q * d + total % d;
    assert (q + 1) * d == q * d + d;
    if k > q {
      MulMonotone(q + 1, k, d);
    }
  }

  lemma MulMonotone(a: nat, b: nat, c: nat)
    requires a <= b
    ensures a * c <= b * c
  {
  }

  lemma {:induction false} PollStopsFrom(s: Slot, io: Io, sleep: int, elapsed: nat, k: nat)
    requires k * (Pause(sleep) + 1) <= elapsed && k * (Pause(sleep) + 1) <= RECREATE_DEADLINE
    ensures var n := Poll(s, io, sleep, elapsed, k).polls; n > k && (n - 1) * (Pause(sleep) + 1) <= RECREATE_DEADLINE
    decreases if elapsed < RECREATE_DEADLINE then RECREATE_DEADLINE - elapsed else 0
  {
    var now := elapsed + Pause(sleep);
    var s' := if io.linger <= k then Finalize(s) else s;
    if io.pollFault(k).Clean? && s'.deployment.Some? && now < RECREATE_DEADLINE {
      assert (k + 1) * (Pause(sleep) + 1) == k * (Pause(sleep) + 1) + Pause(sleep) + 1;
      PollStopsFrom(s', io, sleep, now + io.latency(k), k + 1);
    }
  }

  /** The loop only touches the Deployment, and reports it absent only when it is. */
  lemma {:induction false} PollObserves(s: Slot, io: Io, sleep: int, elapsed: nat, k: nat)
    ensures var p := Poll(s, io, sleep, elapsed, k);
            && p.slot.(deployment := None) == s.(deployment := None)
            && (p.absent ==> p.slot.deployment.None?)
            && (p.slot.deployment.None? || p.slot.deployment == s.deployment)
    decreases if elapsed < RECREATE_DEADLINE then RECREATE_DEADLINE - elapsed else 0
  {
    var now := elapsed + Pause(sleep);
    var s' := if io.linger <= k then Finalize(s) else s;
    if io.pollFault(k).Clean? && s'.deployment.Some? && now < RECREATE_DEADLINE {
      PollObserves(s', io, sleep, now + io.latency(k), k + 1);
    }
  }

  /** The time on the clock when the loop tests the deadline before poll k. */
  function Clock(io: Io, sleep: int, k: nat): nat {
    if k == 0 then Pause(sleep) else Clock(io, sleep, k - 1) + io.latency(k - 1) + Pause(sleep)
  }

  /** The old Deployment is gone before the deadline is up. */
  predicate InTime(io: Io, sleep: int) {
    io.linger == 0 || Clock(io, sleep, io.linger - 1) < RECREATE_DEADLINE
  }

  lemma {:induction false} ClockRuns(io: Io, sleep: int, j: nat, k: nat)
    requires j <= k
    ensures Clock(io, sleep, j) <= Clock(io, sleep, k)
    decreases k - j
  {
    if j < k {
      ClockRuns(io, sleep, j, k - 1);
    }
  }

  /** On a calm API the wait succeeds exactly when the Deployment is gone within the deadline. */
  lemma {:induction false} PollWaits(s: Slot, io: Io, sleep: int, elapsed: nat, k: nat)
    requires Calm(io) && elapsed + Pause(sleep) == Clock(io, sleep, k) && k <= io.linger
    requires s.deployment.Some? ==> s.deployment.value.terminating
    ensures Poll(s, io, sleep, elapsed, k).absent <==> s.deployment.None? || k == io.linger || InTime(io, sleep)
    decreases if elapsed < RECREATE_DEADLINE then RECREATE_DEADLINE - elapsed else 0
  {
    if s.deployment.Some? && k < io.linger {
      var now := elapsed + Pause(sleep);
      if now < RECREATE_DEADLINE {
        PollWaits(s, io, sleep, now + io.latency(k), k + 1);
      } else {
        ClockRuns(io, sleep, k, io.linger - 1);
      }
    }
  }

  /** In numbers: with replies that take up to 166 milliseconds each, a hard reset waits for a Deployment
      that is gone by its thirtieth poll and for no other, and it never polls more than 31 times. */
  lemma WaitsThirtyPolls(s: Slot, io: Io)
    ensures Poll(s, io, RECREATE_POLL_INTERVAL, 0, 0).polls <= 31
    ensures (forall k :: io.latency(k) <= 166_000_000) ==> (InTime(io, RECREATE_POLL_INTERVAL) <==> io.linger <= 29)
  {
    var sleep := 5_000_000_000;
    PollStops(s, io, sleep);
    if forall k :: io.latency(k) <= 166_000_000 {
      ClockBounds(io, 28);
      ClockBounds(io, 29);
      if io.linger > 29 {
        ClockRuns(io, sleep, 29, io.linger - 1);
      } else if io.linger > 0 {
        ClockRuns(io, sleep, io.linger - 1, 28);
      }
    }
  }

  lemma {:induction false} ClockBounds(io: Io, k: nat)
    requires forall j :: io.latency(j) <= 166_000_000
    ensures 5_000_000_000 * (k + 1) <= Clock(io, 5_000_000_000, k) <= 5_000_000_000 * (k + 1) + 166_000_000 * k
  {
    if k > 0 {
      ClockBounds(io, k - 1);
    }
  }

  lemma DeleteAccessClears(s: Slot, io: Io)
    ensures var d := DeleteAccess(s, io);
            && d.slot.(deployment := None, service := None) == s.(deployment := None, service := None)
            && (d.ok ==> d.slot.service.None? && (d.slot.deployment.Some? ==> d.slot.deployment.value.terminating))
            && (Calm(io) ==> d.ok)
            && (d.ok && (io.linger == 0 || s.deployment.None?) ==> d.slot.deployment.None?)
  {
  }

  lemma DeleteDataClears(s: Slot, purge: bool, io: Io)
    ensures var d := DeleteData(s, purge, io);
            && d.slot.deployment == s.deployment && d.slot.service == s.service && d.slot.volumesMade == s.volumesMade
            && (!purge ==> d.slot.volume == s.volume)
            && (d.ok ==> d.slot.configMap.None? && d.slot.secret.None? && (purge ==> d.slot.volume.None?))
            && (Calm(io) ==> d.ok)
  {
  }

  /** DeleteAll removes nothing but what it is asked to, keeps the volume unless told to purge, and
      when it returns nil nothing but a terminating Deployment is left. */
  lemma DeleteAllClears(s: Slot, purge: bool, io: Io)
    ensures var d := DeleteAll(s, purge, io);
            && (!purge ==> d.slot.volume == s.volume) && d.slot.volumesMade == s.volumesMade
            && (d.ok ==> d.slot.service.None? && d.slot.configMap.None? && d.slot.secret.None?
                         && (d.slot.deployment.Some? ==> d.slot.deployment.value.terminating)
                         && (purge ==> d.slot.volume.None?))
            && (Calm(io) ==> d.ok)
            && (d.ok && io.linger == 0 ==> d.slot.deployment.None?)
            && (d.ok && s.deployment.None? ==> d.slot.deployment.None?)
  {
    DeleteAccessClears(s, io);
    DeleteDataClears(DeleteAccess(s, io).slot, purge, io);
  }

  /** A deletion whose reply is lost has happened all the same: a purge reported as failed may have taken
      the volume, and the next try finds nothing to do. */
  lemma LostReplyStillPurges(s: Slot, lost: Io, calm: Io)
    requires forall c :: lost.fault(c) == if c == VolumeDelete then Lost else Clean
    requires Calm(calm) && calm.linger == 0
    ensures var d := DeleteAll(s, true, lost);
            !d.ok && d.slot.volume.None? && DeleteAll(d.slot, true, calm) == Did(d.slot.(deployment := None), true)
  {
    var d := DeleteAll(s, true, lost);
    assert d.slot.volume.None? && d.slot.service.None? && d.slot.configMap.None? && d.slot.secret.None?;
    DeleteAllClears(d.slot, true, calm);
  }

  /** CreateAll calls after an observed absence build everything anew; a nil return means every
      object is the one built from the configuration, whatever was there before. */
  lemma CreateFromNothing(s: Slot, cfg: ValheimConfig, free: bool, io: Io)
    requires s.deployment.None? && s.service.None? && s.configMap.None? && s.secret.None?
    ensures var d := CreateAll(s, cfg, free, io);
            && VolumeKept(s, d.slot)
            && (d.ok ==> Built(d.slot, cfg) && d.slot.volume.Some?)
            && (Calm(io) ==> d.ok == free)
            && (d.slot.configMap.Some? ==> d.slot.configMap == Some(EnvOf(cfg)))
            && (d.slot.secret.Some? ==> d.slot.secret == Some(cfg.core.serverPass))
            && (d.slot.deployment.Some? ==> Built(d.slot, cfg))
  {
    CreateAllAdds(s, cfg, free, io);
    CreateAllFills(s, cfg, free, io);
  }

  lemma CalmWait(s: Slot, io: Io, sleep: int)
    requires Calm(io)
    ensures var d := DeleteAll(s, false, io);
            d.ok && (Poll(d.slot, io, sleep, 0, 0).absent <==> s.deployment.None? || InTime(io, sleep))
  {
    DeleteAllClears(s, false, io);
    PollWaits(DeleteAll(s, false, io).slot, io, sleep, 0, 0);
  }

  /** Hard reset is self-stabilising: from any objects, however inconsistent, a nil return means the
      Deployment was seen absent and everything was built from the configuration, and the volume is
      the one that was there. On a calm API it returns nil exactly when the ports are free and the
      old Deployment goes within the deadline. */
  lemma RecreateStabilises(s: Slot, cfg: ValheimConfig, free: bool, io: Io, sleep: int)
    ensures var d := RecreateAll(s, cfg, free, io, sleep);
            && VolumeKept(s, d.slot)
            && (d.ok ==> Built(d.slot, cfg) && d.slot.volume.Some?)
            && (Calm(io) ==> (d.ok <==> free && (s.deployment.None? || InTime(io, sleep))))
  {
    DeleteAllClears(s, false, io);
    if Calm(io) {
      CalmWait(s, io, sleep);
    }
    var d := DeleteAll(s, false, io);
    if d.ok {
      PollObserves(d.slot, io, sleep, 0, 0);
      var p := Poll(d.slot, io, sleep, 0, 0);
      if p.absent {
        CreateFromNothing(p.slot, cfg, free, io);
      }
    }
  }

  // The configuration hash as a commit marker.

  predicate Publishes(s: Slot, cfg: ValheimConfig) {
    s.configMap == Some(EnvOf(cfg)) && s.secret == Some(cfg.core.serverPass)
  }

  /** The Deployment carries the marker of this configuration. */
  predicate Marked(s: Slot, cfg: ValheimConfig) {
    s.deployment.Some? && s.deployment.value.marker == Some(HashCfg(cfg))
  }

  /** The marker tells the truth: where the next soft pass would not rewrite the ConfigMap and the
      Secret, they hold this configuration as far as they exist. A soft pass does not rewrite them
      when the marker matches, or when there is no Deployment and it stamps a new one. */
  predicate Honest(s: Slot, cfg: ValheimConfig) {
    s.deployment.None? || Marked(s, cfg) ==>
      && (s.configMap.Some? ==> s.configMap == Some(EnvOf(cfg)))
      && (s.secret.Some? ==> s.secret == Some(cfg.core.serverPass))
  }

  /** The soft path of stateActions up to the scaling, for a row named like its configuration. */
  function SoftApply(s: Slot, cfg: ValheimConfig, free: bool, io: Io): Did {
    var d := CreateAll(s, cfg, free, io);
    if !d.ok then d
    else if Read(d.slot.deployment.Some?, io.fault(HashGet)).Refused? then Did(d.slot, false)
    else if Marked(d.slot, cfg) then d
    else ApplyConfig(d.slot, cfg, HashCfg(cfg), io)
  }

  /** However ApplyConfig ends, it has put the new hash on the Deployment only if the ConfigMap and
      the Secret already hold the new configuration; a nil return means all three agree. */
  lemma MarkerWrittenLast(s: Slot, cfg: ValheimConfig, io: Io)
    ensures var d := ApplyConfig(s, cfg, HashCfg(cfg), io);
            && (!Marked(s, cfg) && Marked(d.slot, cfg) ==> Publishes(d.slot, cfg))
            && (d.ok ==> Publishes(d.slot, cfg) && Marked(d.slot, cfg))
  {
  }

  /** However a soft pass ends, an honest marker stays honest, so an interrupted apply is redone by
      the next soft pass for the same configuration. */
  lemma SoftPassKeepsHonest(s: Slot, cfg: ValheimConfig, free: bool, io: Io)
    requires Honest(s, cfg)
    ensures Honest(SoftApply(s, cfg, free, io).slot, cfg)
  {
    CreateKeepsHonest(s, cfg, free, io);
    var d := CreateAll(s, cfg, free, io);
    if d.ok {
      CreateAllFills(s, cfg, free, io);
      ApplyKeepsHonest(d.slot, cfg, io);
    }
  }

  lemma CreateKeepsHonest(s: Slot, cfg: ValheimConfig, free: bool, io: Io)
    requires Honest(s, cfg)
    ensures Honest(CreateAll(s, cfg, free, io).slot, cfg)
  {
    CreateAllAdds(s, cfg, free, io);
  }

  lemma ApplyKeepsHonest(s: Slot, cfg: ValheimConfig, io: Io)
    requires s.deployment.Some? && Honest(s, cfg)
    ensures Honest(ApplyConfig(s, cfg, HashCfg(cfg), io).slot, cfg)
  {
  }

  /** On a calm API a soft pass makes ConfigMap, Secret and marker agree exactly when the marker was
      honest before. */
  lemma SoftPassAgreesIffHonest(s: Slot, cfg: ValheimConfig, free: bool, io: Io)
    requires Calm(io) && (s.service.Some? || free)
    ensures var d := SoftApply(s, cfg, free, io);
            d.ok && Marked(d.slot, cfg) && (Publishes(d.slot, cfg) <==> Honest(s, cfg))
  {
    CreateAllFills(s, cfg, free, io);
    CreateAllAdds(s, cfg, free, io);
    CalmApply(CreateAll(s, cfg, free, io).slot, cfg, io);
  }

  lemma CalmApply(s: Slot, cfg: ValheimConfig, io: Io)
    requires Calm(io) && s.configMap.Some? && s.secret.Some? && s.deployment.Some?
    ensures var d := ApplyConfig(s, cfg, HashCfg(cfg), io); d.ok && Publishes(d.slot, cfg) && Marked(d.slot, cfg)
  {
  }

  /** The marker is not always honest. A hard reset that is interrupted after the Deployment is gone
      leaves the old ConfigMap; the next soft pass stamps the new hash over it, succeeds, and no
      later soft pass notices. */
  lemma InterruptedResetFreezesOldConfig(s: Slot, old': ValheimConfig, cfg: ValheimConfig, broken: Io, calm: Io)
    requires s.service == Some(cfg.core.serverPort) && Publishes(s, old') && s.deployment.Some?
    requires EnvOf(old') != EnvOf(cfg)
    requires broken.fault(DeploymentDelete).Clean? && broken.linger == 0 && broken.fault(ServiceDelete).Dropped?
    requires Calm(calm)
    ensures var reset := RecreateAll(s, cfg, true, broken, RECREATE_POLL_INTERVAL);
            var next := SoftApply(reset.slot, cfg, true, calm);
            && !reset.ok && !Honest(reset.slot, cfg)
            && next.ok && Marked(next.slot, cfg) && next.slot.configMap == Some(EnvOf(old'))
            && SoftApply(next.slot, cfg, true, calm) == next
  {
    var reset := RecreateAll(s, cfg, true, broken, RECREATE_POLL_INTERVAL);
    SoftPassAgreesIffHonest(reset.slot, cfg, true, calm);
  }

  /** Nor is it after a change of mind: an apply of b that is cut off after the ConfigMap, then a put
      back as the configuration, leaves the marker of a over the ConfigMap of b. */
  lemma RevertedConfigIsDishonest(s: Slot, a: ValheimConfig, b: ValheimConfig, cut: Io, calm: Io)
    requires s.service.Some? && Publishes(s, a) && Marked(s, a) && EnvOf(a) != EnvOf(b)
    requires cut.fault(ConfigMapUpdate).Clean? && cut.fault(SecretUpdate).Dropped? && Calm(calm)
    ensures var half := ApplyConfig(s, b, HashCfg(b), cut);
            var next := SoftApply(half.slot, a, true, calm);
            && !half.ok && !Honest(half.slot, a)
            && next.ok && Marked(next.slot, a) && next.slot.configMap == Some(EnvOf(b))
            && SoftApply(next.slot, a, true, calm) == next
  {
    var half := ApplyConfig(s, b, HashCfg(b), cut);
    SoftPassAgreesIffHonest(half.slot, a, true, calm);
  }

  /** Nor is it after a creation for a that is cut off after the ConfigMap, and an update to b: the new
      Deployment is stamped with the marker of b over the ConfigMap of a. */
  lemma InterruptedCreationFreezesConfig(s: Slot, a: ValheimConfig, b: ValheimConfig, cut: Io, calm: Io)
    requires s.configMap.None? && s.service.None? && s.deployment.None? && EnvOf(a) != EnvOf(b)
    requires forall c :: cut.fault(c).Clean? <==> c != ServiceGet
    requires Calm(calm)
    ensures var half := SoftApply(s, a, true, cut);
            var next := SoftApply(half.slot, b, true, calm);
            && !half.ok && half.slot.configMap == Some(EnvOf(a)) && !Honest(half.slot, b)
            && next.ok && Marked(next.slot, b) && next.slot.configMap == Some(EnvOf(a))
            && SoftApply(next.slot, b, true, calm) == next
  {
    var half := SoftApply(s, a, true, cut);
    CutCreation(s, a, cut);
    FrozenConfig(half.slot, b, calm, EnvOf(a));
  }

  lemma CutCreation(s: Slot, a: ValheimConfig, cut: Io)
    requires s.configMap.None? && s.service.None? && s.deployment.None?
    requires forall c :: cut.fault(c).Clean? <==> c != ServiceGet
    ensures var half := SoftApply(s, a, true, cut);
            && !half.ok && half.slot.configMap == Some(EnvOf(a))
            && half.slot.service.None? && half.slot.deployment.None?
  {
  }

  /** A new Deployment over a ConfigMap that does not hold b is stamped with b all the same, for good. */
  lemma FrozenConfig(s: Slot, b: ValheimConfig, calm: Io, env: map<EnvVar, string>)
    requires s.configMap == Some(env) && s.deployment.None? && env != EnvOf(b) && Calm(calm)
    ensures var next := SoftApply(s, b, true, calm);
            && next.ok && Marked(next.slot, b) && next.slot.configMap == Some(env)
            && SoftApply(next.slot, b, true, calm) == next
  {
    SoftPassAgreesIffHonest(s, b, true, calm);
    var next := SoftApply(s, b, true, calm);
    CreateAllAdds(s, b, true, calm);
    CreateAllFills(next.slot, b, true, calm);
    CreateAllAdds(next.slot, b, true, calm);
  }
}
