/** Deterministic gate evaluation over the recorded state of a stage. */
module Gates {
  import opened Lifecycle
  import opened Exact
  import opened Rollouts

  /** A count as it is handed to 64-bit ratio arithmetic. */
  function AsU64(n: nat): u64 { Wrap(n) as u64 }

  function Max(a: nat, b: nat): nat { if a < b then b else a }

  function Budget(count: nat, fraction: Ratio, size: nat): nat {
    Max(count, fraction.ApplyFloor(AsU64(size)))
  }

  /** Not too old, and not further in the future than the permitted skew. */
  predicate Fresh(observedAt: int, now: int, maxAge: int, skew: int) {
    observedAt != 0 && (if now - observedAt < 0 then observedAt - now <= skew else now - observedAt <= maxAge)
  }

  datatype Snapshot = Snapshot(any: bool, allLive: bool, oldest: int)

  /** The health view of a population is only as fresh as its stalest member. */
  function SnapshotOf(ts: seq<Target>): Snapshot {
    if ts == [] then Snapshot(false, true, 0)
    else
      var before, t := SnapshotOf(ts[..|ts| - 1]), ts[|ts| - 1];
      if t.lastHealthyAt == 0 then before
      else Snapshot(true, before.allLive && t.originLive,
                    if !before.any || t.lastHealthyAt < before.oldest then t.lastHealthyAt else before.oldest)
  }

  predicate ObservedHealthy(t: Target, policy: HealthGatePolicy) {
    t.state.Succeeded? ==>
      t.healthy && t.consecutiveHealthy >= policy.minConsecutiveHealthy && t.originLive
  }

  predicate HealthGateOpen(stage: Stage, now: int, cfg: Config) {
    var policy := stage.policy.healthGate;
    var size := |stage.targets|;
    var view := SnapshotOf(stage.targets);
    var source := if cfg.hasHealth then cfg.healthSource else 0;
    var maxAge := if policy.maxAge == 0 then cfg.defaultMaxAge else policy.maxAge;
    !policy.enabled ||
    (&& view.any && view.allLive
     && Fresh(view.oldest, now, maxAge, cfg.maxFutureSkew)
     && (policy.requiredSource != 0 ==> source == policy.requiredSource)
     && policy.minHealthyFraction.SatisfiedBy(AsU64(Count(stage.targets, IsHealthy)), AsU64(size))
     && (forall i :: 0 <= i < size ==> ObservedHealthy(stage.targets[i], policy))
     && Count(stage.targets, IsFailed) <= Budget(policy.failureBudgetTargets, policy.failureBudgetFraction, size))
  }

  predicate SoakElapsed(stage: Stage, now: int) {
    stage.policy.evidenceGate.soak == 0 ||
    (stage.soakStartedAt != 0 && now - stage.soakStartedAt >= stage.policy.evidenceGate.soak)
  }

  predicate Verified(t: Target, policy: EvidenceGatePolicy, now: int, cfg: Config) {
    var maxAge := if policy.maxAge == 0 then cfg.defaultMaxAge else policy.maxAge;
    && t.state.Succeeded? && t.verifiedAt != 0
    && Fresh(t.verifiedAt, now, maxAge, cfg.maxFutureSkew)
    && t.verificationPassed
    && (policy.requiredVerifier != 0 ==> t.verifier == policy.requiredVerifier)
  }

  function VerifiedCount(ts: seq<Target>, policy: EvidenceGatePolicy, now: int, cfg: Config): (n: nat)
    ensures n <= |ts|
  {
    if ts == [] then 0
    else VerifiedCount(ts[..|ts| - 1], policy, now, cfg) + Bit(Verified(ts[|ts| - 1], policy, now, cfg))
  }

  predicate EnoughVerified(stage: Stage, now: int, cfg: Config) {
    var policy := stage.policy.evidenceGate;
    var size := |stage.targets|;
    var verified := VerifiedCount(stage.targets, policy, now, cfg);
    if policy.requireFullCoverage then verified == size
    else verified >= Max(policy.minPassingSamples, policy.minPassingFraction.ApplyCeil(AsU64(size)))
  }

  /** Soaked, settled and without a failure: all the evidence gate asks but verification. */
  predicate EvidenceSettled(stage: Stage, now: int) {
    && SoakElapsed(stage, now)
    && Count(stage.targets, IsTerminal) >= |stage.targets|
    && Count(stage.targets, IsFailed) == 0
  }

  predicate EvidenceGateOpen(stage: Stage, now: int, cfg: Config) {
    EvidenceSettled(stage, now) && (stage.requireVerification ==> EnoughVerified(stage, now, cfg))
  }

  predicate AdvanceGateOpen(stage: Stage) {
    var policy := stage.policy;
    var size := |stage.targets|;
    && Count(stage.targets, IsPending) == 0
    && Count(stage.targets, IsFailed) <= Budget(policy.failureBudgetTargets, policy.failureBudgetFraction, size)
    && policy.minHealthyFraction.SatisfiedBy(AsU64(Count(stage.targets, IsHealthy)), AsU64(size))
  }

  /** The advance gate is its rational specification: budget by floor, health by cross-multiplication. */
  lemma AdvanceGateIsRational(stage: Stage)
    requires stage.policy.minHealthyFraction.Valid() && stage.policy.failureBudgetFraction.Valid()
    requires 0 < |stage.targets| < B2
    ensures var size, policy := |stage.targets|, stage.policy;
            var failed, healthy := Count(stage.targets, IsFailed), Count(stage.targets, IsHealthy);
            AdvanceGateOpen(stage) <==>
            && (forall i :: 0 <= i < size ==> !stage.targets[i].state.Pending?)
            && (|| failed <= policy.failureBudgetTargets
                || failed * policy.failureBudgetFraction.denominator as int
                   <= size * policy.failureBudgetFraction.numerator as int)
            && healthy * policy.minHealthyFraction.denominator as int
               >= size * policy.minHealthyFraction.numerator as int
  {
    var size, policy := |stage.targets|, stage.policy;
    CountNone(stage.targets, IsPending);
    BudgetIsRational(policy.failureBudgetTargets, policy.failureBudgetFraction, size, Count(stage.targets, IsFailed));
    WrapSmall(size);
    WrapSmall(Count(stage.targets, IsHealthy));
    SatisfiedByIsRational(policy.minHealthyFraction, AsU64(Count(stage.targets, IsHealthy)), AsU64(size));
  }

  lemma BudgetIsRational(count: nat, fraction: Ratio, size: nat, failed: nat)
    requires fraction.Valid() && size < B2
    ensures failed <= Budget(count, fraction, size) <==>
            failed <= count || failed * fraction.denominator as int <= size * fraction.numerator as int
  {
    WrapSmall(size);
    ApplyFloorIsExact(fraction, AsU64(size));
    MulLess(0, size, fraction.numerator as int);
    FloorBound(failed, size * fraction.numerator as int, fraction.denominator as int);
  }

  lemma FloorBound(k: nat, x: nat, d: nat)
    requires d > 0
    ensures k <= x / d <==> k * d <= x
  {
    DivStep(x, d);
    MulStep(k - x / d, d);
    Distribute(k, -(x / d), d, 0);
  }

  lemma {:induction false} VerifiedAll(ts: seq<Target>, policy: EvidenceGatePolicy, now: int, cfg: Config)
    ensures VerifiedCount(ts, policy, now, cfg) == |ts| <==>
            forall i :: 0 <= i < |ts| ==> Verified(ts[i], policy, now, cfg)
  {
    if ts != [] {
      VerifiedAll(ts[..|ts| - 1], policy, now, cfg);
      assert forall i :: 0 <= i < |ts| - 1 ==> ts[..|ts| - 1][i] == ts[i];
    }
  }

  /** An open evidence gate leaves no target unsettled or failed; full coverage admits no unverified target. */
  lemma EvidenceGateMeans(stage: Stage, now: int, cfg: Config)
    requires EvidenceGateOpen(stage, now, cfg)
    ensures SoakElapsed(stage, now)
    ensures forall i :: 0 <= i < |stage.targets| ==>
              var t := stage.targets[i]; t.state.Succeeded? || t.state.Cancelled? || t.state.RolledBack?
    ensures stage.requireVerification && stage.policy.evidenceGate.requireFullCoverage ==>
              forall i :: 0 <= i < |stage.targets| ==>
                Verified(stage.targets[i], stage.policy.evidenceGate, now, cfg)
  {
    CountAll(stage.targets, IsTerminal);
    CountNone(stage.targets, IsFailed);
    VerifiedAll(stage.targets, stage.policy.evidenceGate, now, cfg);
  }

  predicate EndedWell(t: Target) { t.state.Succeeded? || t.state.Cancelled? || t.state.RolledBack? }

  /** The evidence gate is its rational specification: the fraction is rounded up, so it is met exactly. */
  lemma EvidenceGateIsRational(stage: Stage, now: int, cfg: Config)
    requires stage.policy.evidenceGate.minPassingFraction.Valid() && |stage.targets| < B2
    ensures var size, policy := |stage.targets|, stage.policy.evidenceGate;
            var verified := VerifiedCount(stage.targets, policy, now, cfg);
            EvidenceGateOpen(stage, now, cfg) <==>
            && SoakElapsed(stage, now)
            && (forall i :: 0 <= i < size ==> EndedWell(stage.targets[i]))
            && (stage.requireVerification ==>
                  if policy.requireFullCoverage then
                    forall i :: 0 <= i < size ==> Verified(stage.targets[i], policy, now, cfg)
                  else
                    && verified >= policy.minPassingSamples
                    && verified * policy.minPassingFraction.denominator as int
                       >= size * policy.minPassingFraction.numerator as int)
  {
    var size, policy := |stage.targets|, stage.policy.evidenceGate;
    var verified := VerifiedCount(stage.targets, policy, now, cfg);
    var n, d := policy.minPassingFraction.numerator as int, policy.minPassingFraction.denominator as int;
    CountAll(stage.targets, IsTerminal);
    CountNone(stage.targets, IsFailed);
    VerifiedAll(stage.targets, policy, now, cfg);
    hide Count, VerifiedCount, Verified, SoakElapsed;
    WrapSmall(size);
    ApplyCeilIsExact(policy.minPassingFraction, AsU64(size));
    MulLess(0, size, n);
    CeilBound(verified, size * n, d);
  }

  lemma CeilBound(k: nat, x: nat, d: nat)
    requires d > 0
    ensures k >= (x + d - 1) / d <==> k * d >= x
  {
    FloorBound(k + 1, x + d - 1, d);
    Distribute(k, 1, d, 0);
  }

  /** The oldest observation a live snapshot rests on belongs to one of its targets and bounds them all. */
  lemma {:induction false} SnapshotIsOldest(ts: seq<Target>)
    ensures var view := SnapshotOf(ts);
            && (view.any <==> exists i :: 0 <= i < |ts| && ts[i].lastHealthyAt != 0)
            && (view.any ==> exists i :: 0 <= i < |ts| && ts[i].lastHealthyAt == view.oldest != 0)
            && (forall i :: 0 <= i < |ts| && ts[i].lastHealthyAt != 0 ==> view.oldest <= ts[i].lastHealthyAt)
            && (view.allLive <==> forall i :: 0 <= i < |ts| && ts[i].lastHealthyAt != 0 ==> ts[i].originLive)
  {
    if ts != [] {
      var n := |ts| - 1;
      SnapshotIsOldest(ts[..n]);
      assert forall i :: 0 <= i < n ==> ts[..n][i] == ts[i];
      if ts[n].lastHealthyAt == 0 {
        assert forall i :: 0 <= i < |ts| && ts[i].lastHealthyAt != 0 ==> i < n;
      } else if SnapshotOf(ts[..n]).any && ts[n].lastHealthyAt >= SnapshotOf(ts[..n]).oldest {
        var k :| 0 <= k < n && ts[..n][k].lastHealthyAt == SnapshotOf(ts[..n]).oldest != 0;
        assert ts[k].lastHealthyAt == SnapshotOf(ts).oldest;
      }
    }
  }
}
