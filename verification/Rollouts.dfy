/** The rollout aggregate: stages, targets, attempts, policies, and the counts taken over them. */
module Rollouts {
  import opened Lifecycle
  import opened Exact

  datatype Option<+T> = None | Some(value: T)

  /** Where a target sits; zero is the empty rack, pod or site name. */
  datatype Placement = Placement(domain: nat, rack: nat, pod: nat, site: nat)

  /** Limits, adapters and inventory the orchestrator runs with. */
  datatype Config = Config(
    maxDispatchBatch: nat, maxConcurrentAttempts: nat, defaultMaxAge: int, maxFutureSkew: int,
    incarnation: nat, hasExecution: bool, hasHealth: bool, healthSource: nat,
    inventory: map<nat, Placement>)

  datatype Outcome = OutSucceeded | OutFailed | OutInconclusive

  datatype GateMode = Automatic | Manual

  datatype GateKind = EntryGate | EvidenceGate | HealthGate | AdvanceGate | RollbackGate

  datatype InFlightPolicy = LetFinish | StopInFlight

  datatype HealthGatePolicy = HealthGatePolicy(
    enabled: bool, maxAge: int, requiredSource: nat, minConsecutiveHealthy: nat,
    minHealthyFraction: Ratio, failureBudgetTargets: nat, failureBudgetFraction: Ratio)

  datatype EvidenceGatePolicy = EvidenceGatePolicy(
    mode: GateMode, soak: int, maxAge: int, requiredVerifier: nat,
    minPassingSamples: nat, minPassingFraction: Ratio, requireFullCoverage: bool)

  datatype BlastRadius = BlastRadius(
    global: nat, perStage: nat, perDomain: nat, perRack: nat, perPod: nat, perSite: nat, domains: nat)

  datatype Policy = Policy(
    maxConcurrency: nat, minHealthyFraction: Ratio, failureBudgetTargets: nat, failureBudgetFraction: Ratio,
    canarySize: nat, canaryRequiresHealthGate: bool,
    healthGate: HealthGatePolicy, evidenceGate: EvidenceGatePolicy,
    entryGate: GateMode, advanceGate: GateMode, radius: BlastRadius,
    attemptDeadline: int, maxAttempts: nat, evidenceMaxAge: int, pauseInFlight: InFlightPolicy,
    rollbackSupported: bool, compensation: seq<nat>, requirePredecessorsSucceeded: bool)

  datatype ActionKind = Primary | Verify | Rollback | Compensate

  datatype Action = Action(id: nat, kind: ActionKind)

  /** Identifiers are opaque numbers; zero is the nil identifier and the nil timestamp. */
  datatype Target = Target(
    id: nat, state: TargetState, epoch: nat, attemptsCreated: nat, currentAttempt: nat, lastAttempt: nat,
    dispatchedAt: int, lastChangeAt: int, completedAt: int,
    healthy: bool, consecutiveHealthy: nat, healthySince: int, lastHealthyAt: int, originLive: bool,
    healthSource: nat, verifiedAt: int, verificationPassed: bool, verifier: nat,
    outcome: Outcome, rollbackStep: nat)

  datatype Stage = Stage(
    id: nat, state: StageState, predecessors: seq<nat>, policy: Policy, requireVerification: bool,
    actions: seq<Action>, frozen: bool, targets: seq<Target>, soakStartedAt: int,
    dispatchedTotal: nat, succeededTotal: nat, failedTotal: nat, cancelledTotal: nat,
    rolledBackTotal: nat, rollbackFailedTotal: nat, attemptsTotal: nat,
    canaryCleared: bool, maxObservedChanging: nat, pendingGate: nat, pendingGateKind: GateKind)

  datatype Rollout = Rollout(
    id: nat, generation: nat, revision: nat, state: RolloutState, resumeState: RolloutState,
    stages: seq<Stage>, cursor: nat, outstanding: nat, maxObservedChanging: nat)

  datatype Attempt = Attempt(
    rollout: nat, generation: nat, stage: nat, target: nat, epoch: nat, incarnation: nat, deadline: int,
    state: TargetState, completed: bool, outcome: Outcome, cancelledEpoch: nat, highestSequence: nat)
  {
    predicate Finished() { state.Terminal() }
  }

  // Counts are taken with named predicates so that the same count is the same term everywhere.
  predicate IsChanging(t: Target) { t.state.Changing() }
  predicate IsFailed(t: Target) { t.state.TFailed? || t.state.Exhausted? || t.state.RollbackFailed? }
  predicate IsTerminal(t: Target) { t.state.Terminal() }
  predicate IsHealthy(t: Target) { t.healthy }
  predicate IsPending(t: Target) { t.state.Pending? }
  predicate IsAttempted(t: Target) { t.attemptsCreated > 0 }
  predicate IsRollingBack(t: Target) { t.state.TRollingBack? }
  predicate IsRolledBack(t: Target) { t.state.RolledBack? }
  predicate IsRollbackFailed(t: Target) { t.state.RollbackFailed? }

  function Bit(b: bool): nat { if b then 1 else 0 }

  function Count(ts: seq<Target>, p: Target -> bool): (n: nat)
    ensures n <= |ts|
  {
    if ts == [] then 0 else Count(ts[..|ts| - 1], p) + Bit(p(ts[|ts| - 1]))
  }

  function ChangingCount(stages: seq<Stage>): nat {
    if stages == [] then 0
    else ChangingCount(stages[..|stages| - 1]) + Count(stages[|stages| - 1].targets, IsChanging)
  }

  lemma {:induction false} CountUpdate(ts: seq<Target>, i: nat, x: Target, p: Target -> bool)
    requires i < |ts|
    ensures Count(ts[i := x], p) + Bit(p(ts[i])) == Count(ts, p) + Bit(p(x))
  {
    var n := |ts| - 1;
    if i == n {
      assert ts[i := x][..n] == ts[..n];
    } else {
      CountUpdate(ts[..n], i, x, p);
      assert ts[i := x][..n] == ts[..n][i := x];
    }
  }

  lemma {:induction false} CountNone(ts: seq<Target>, p: Target -> bool)
    ensures Count(ts, p) == 0 <==> forall i :: 0 <= i < |ts| ==> !p(ts[i])
  {
    if ts != [] {
      CountNone(ts[..|ts| - 1], p);
      assert forall i :: 0 <= i < |ts| - 1 ==> ts[..|ts| - 1][i] == ts[i];
    }
  }

  lemma {:induction false} CountAll(ts: seq<Target>, p: Target -> bool)
    ensures Count(ts, p) == |ts| <==> forall i :: 0 <= i < |ts| ==> p(ts[i])
  {
    if ts != [] {
      CountAll(ts[..|ts| - 1], p);
      assert forall i :: 0 <= i < |ts| - 1 ==> ts[..|ts| - 1][i] == ts[i];
    }
  }

  lemma {:induction false} CountMono(ts: seq<Target>, us: seq<Target>, p: Target -> bool)
    requires |ts| == |us|
    requires forall i :: 0 <= i < |ts| && p(ts[i]) ==> p(us[i])
    ensures Count(ts, p) <= Count(us, p)
  {
    if ts != [] {
      assert forall i :: 0 <= i < |ts| - 1 ==> ts[..|ts| - 1][i] == ts[i] && us[..|ts| - 1][i] == us[i];
      CountMono(ts[..|ts| - 1], us[..|us| - 1], p);
    }
  }

  lemma {:induction false} ChangingCountOnly(stages: seq<Stage>, s: nat)
    requires s < |stages|
    requires forall i :: 0 <= i < |stages| && i != s ==> Count(stages[i].targets, IsChanging) == 0
    ensures ChangingCount(stages) == Count(stages[s].targets, IsChanging)
  {
    var n := |stages| - 1;
    var front := stages[..n];
    assert forall i :: 0 <= i < n ==> front[i] == stages[i];
    if s == n {
      ChangingCountZero(front);
    } else {
      ChangingCountOnly(front, s);
    }
  }

  lemma {:induction false} ChangingCountZero(stages: seq<Stage>)
    requires forall i :: 0 <= i < |stages| ==> Count(stages[i].targets, IsChanging) == 0
    ensures ChangingCount(stages) == 0
  {
    if stages != [] {
      var front := stages[..|stages| - 1];
      assert forall i :: 0 <= i < |front| ==> front[i] == stages[i];
      ChangingCountZero(front);
    }
  }

  /** Index of the first stage with this identifier, or the number of stages. */
  function FindStage(stages: seq<Stage>, id: nat): (i: nat)
    ensures i <= |stages|
    ensures i < |stages| ==> stages[i].id == id
    ensures forall j :: 0 <= j < i ==> stages[j].id != id
  {
    if stages == [] then 0
    else if stages[0].id == id then 0
    else
      assert forall j :: 0 < j < |stages| ==> stages[j] == stages[1..][j - 1];
      1 + FindStage(stages[1..], id)
  }

  function FindTarget(ts: seq<Target>, id: nat): (i: nat)
    ensures i <= |ts|
    ensures i < |ts| ==> ts[i].id == id
    ensures forall j :: 0 <= j < i ==> ts[j].id != id
  {
    if ts == [] then 0
    else if ts[0].id == id then 0
    else
      assert forall j :: 0 < j < |ts| ==> ts[j] == ts[1..][j - 1];
      1 + FindTarget(ts[1..], id)
  }

  /** Targets are kept in canonical identifier order, without duplicates. */
  ghost predicate Canonical(ts: seq<Target>) {
    forall i, j :: 0 <= i < j < |ts| ==> ts[i].id < ts[j].id
  }

  /** The binary search agrees with scanning from the front, present or absent. */
  method SearchTarget(ts: seq<Target>, id: nat) returns (i: nat)
    requires Canonical(ts)
    ensures i == FindTarget(ts, id)
  {
    var low, high := 0, |ts|;
    while low < high
      invariant 0 <= low <= high <= |ts|
      invariant forall j :: 0 <= j < low ==> ts[j].id < id
      invariant forall j :: high <= j < |ts| ==> id <= ts[j].id
    {
      var middle := low + (high - low) / 2;
      if ts[middle].id < id {
        low := middle + 1;
      } else {
        high := middle;
      }
    }
    if low < |ts| && ts[low].id == id {
      i := low;
    } else {
      i := |ts|;
    }
  }

  /** The counting loop of every `..._count` member. */
  method CountTargets(ts: seq<Target>, p: Target -> bool) returns (count: nat)
    ensures count == Count(ts, p)
  {
    count := 0;
    for i := 0 to |ts|
      invariant count == Count(ts[..i], p)
    {
      assert ts[..i + 1][..i] == ts[..i];
      if p(ts[i]) {
        count := count + 1;
      }
    }
    assert ts[..|ts|] == ts;
  }

  method CountChanging(stages: seq<Stage>) returns (count: nat)
    ensures count == ChangingCount(stages)
  {
    count := 0;
    for i := 0 to |stages|
      invariant count == ChangingCount(stages[..i])
    {
      assert stages[..i + 1][..i] == stages[..i];
      var inStage := CountTargets(stages[i].targets, IsChanging);
      count := count + inStage;
    }
    assert stages[..|stages|] == stages;
  }
}
