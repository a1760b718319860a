/** Deterministic dispatch planning and blast-radius accounting. */
module Dispatch {
  import opened Lifecycle
  import opened Rollouts

  datatype Entry = Entry(target: nat, epoch: nat, attemptNumber: nat)

  function EntryFor(t: Target): Entry { Entry(t.id, t.epoch + 1, t.attemptsCreated + 1) }

  function PrimaryAction(stage: Stage): Option<Action> {
    var found := FindKind(stage.actions);
    if found.Some? then found
    else if stage.actions == [] then None
    else Some(stage.actions[0])
  }

  function FindKind(actions: seq<Action>): Option<Action> {
    if actions == [] then None
    else if actions[0].kind.Primary? then Some(actions[0])
    else FindKind(actions[1..])
  }

  function FindAction(actions: seq<Action>, id: nat): Option<Action> {
    if actions == [] then None
    else if actions[0].id == id then Some(actions[0])
    else FindAction(actions[1..], id)
  }

  function CompensationAction(stage: Stage, step: nat): Option<Action> {
    if step >= |stage.policy.compensation| then None
    else FindAction(stage.actions, stage.policy.compensation[step])
  }

  /** Changing targets around one candidate: how many share each dimension, and which domains they touch. */
  datatype Usage = Usage(perDomain: nat, perRack: nat, perPod: nat, perSite: nat, domains: set<nat>)

  function AddUsage(u: Usage, t: Target, inventory: map<nat, Placement>, c: Placement): Usage {
    if !t.state.Changing() || t.id !in inventory then u
    else
      var p := inventory[t.id];
      Usage(u.perDomain + Bit(p.domain == c.domain),
            u.perRack + Bit(c.rack != 0 && p.rack == c.rack),
            u.perPod + Bit(c.pod != 0 && p.pod == c.pod),
            u.perSite + Bit(c.site != 0 && p.site == c.site),
            u.domains + {p.domain})
  }

  function UsageOf(u: Usage, ts: seq<Target>, inventory: map<nat, Placement>, c: Placement): Usage
    decreases |ts|
  {
    if ts == [] then u else UsageOf(AddUsage(u, ts[0], inventory, c), ts[1..], inventory, c)
  }

  function UsageAround(u: Usage, stages: seq<Stage>, inventory: map<nat, Placement>, c: Placement): Usage
    decreases |stages|
  {
    if stages == [] then u
    else UsageAround(UsageOf(u, stages[0].targets, inventory, c), stages[1..], inventory, c)
  }

  const NO_USAGE := Usage(0, 0, 0, 0, {})

  /** Whether one more target may start changing, judged against the state before the batch. */
  predicate Admits(stages: seq<Stage>, stage: Stage, inventory: map<nat, Placement>, candidate: nat) {
    && candidate in inventory
    && var c, radius := inventory[candidate], stage.policy.radius;
       && ChangingCount(stages) < radius.global
       && Count(stage.targets, IsChanging) < radius.perStage
       && var u := UsageAround(NO_USAGE, stages, inventory, c);
          && u.perDomain < radius.perDomain
          && (u.perDomain > 0 || |u.domains| < radius.domains)
          && (c.rack != 0 ==> u.perRack < radius.perRack)
          && (c.pod != 0 ==> u.perPod < radius.perPod)
          && (c.site != 0 ==> u.perSite < radius.perSite)
  }

  function Min(a: nat, b: nat): nat { if a < b then a else b }

  /** Room left this tick under concurrency, batch size, stage radius and global radius. */
  function Capacity(stages: seq<Stage>, stage: Stage, cfg: Config): (n: nat)
    requires ChangingCount(stages) < stage.policy.radius.global
    requires Count(stage.targets, IsChanging) < stage.policy.radius.perStage
  {
    var changing := Count(stage.targets, IsChanging);
    var room := if changing >= stage.policy.maxConcurrency then 0 else stage.policy.maxConcurrency - changing;
    Min(Min(Min(room, cfg.maxDispatchBatch), stage.policy.radius.perStage - changing),
        stage.policy.radius.global - ChangingCount(stages))
  }

  predicate CanaryActive(stage: Stage) { !stage.canaryCleared && stage.policy.canarySize > 0 }

  /** The blast-radius decision per target identifier; it does not see the batch being built. */
  function Admission(stages: seq<Stage>, stage: Stage, inventory: map<nat, Placement>): nat -> bool {
    (candidate: nat) => Admits(stages, stage, inventory, candidate)
  }

  predicate Eligible(stage: Stage, admits: nat -> bool, t: Target, admitted: nat) {
    && t.state.Pending?
    && !(CanaryActive(stage) && admitted >= stage.policy.canarySize && t.attemptsCreated == 0)
    && admits(t.id)
  }

  /** The walk over the cohort in identifier order; `admitted` counts targets ever attempted, batch included. */
  function Walk(stage: Stage, admits: nat -> bool, capacity: nat, i: nat, batch: seq<Entry>,
                admitted: nat): seq<Entry>
    requires i <= |stage.targets|
    decreases |stage.targets| - i
  {
    if i == |stage.targets| then batch
    else
      var t := stage.targets[i];
      if |batch| >= capacity || !Eligible(stage, admits, t, admitted) then
        Walk(stage, admits, capacity, i + 1, batch, admitted)
      else
        Walk(stage, admits, capacity, i + 1, batch + [EntryFor(t)],
             admitted + Bit(t.attemptsCreated == 0))
  }

  function PlanDispatch(stages: seq<Stage>, stage: Stage, cfg: Config): seq<Entry> {
    if ChangingCount(stages) >= stage.policy.radius.global then []
    else if Count(stage.targets, IsChanging) >= stage.policy.radius.perStage then []
    else
      var capacity := Capacity(stages, stage, cfg);
      if capacity == 0 || PrimaryAction(stage).None? then []
      else Walk(stage, Admission(stages, stage, cfg.inventory), capacity, 0, [], Count(stage.targets, IsAttempted))
  }

  /** An entry stands for a pending target of the stage, under the epoch and number after its current ones. */
  ghost predicate Stands(ts: seq<Target>, e: Entry) {
    exists i :: 0 <= i < |ts| && ts[i].state.Pending? && e == EntryFor(ts[i])
  }

  /** How many entries attempt their target for the first time. */
  function Newcomers(batch: seq<Entry>): (n: nat)
    ensures n <= |batch|
  {
    if batch == [] then 0
    else Newcomers(batch[..|batch| - 1]) + Bit(batch[|batch| - 1].attemptNumber == 1)
  }

  ghost predicate Increasing(batch: seq<Entry>) {
    forall j, k :: 0 <= j < k < |batch| ==> batch[j].target < batch[k].target
  }

  lemma FindInCanonical(ts: seq<Target>, i: nat)
    requires Canonical(ts) && i < |ts|
    ensures FindTarget(ts, ts[i].id) == i
  {
    var j := FindTarget(ts, ts[i].id);
    assert j <= i;
  }

  lemma {:induction false} WalkIsBounded(stage: Stage, admits: nat -> bool, capacity: nat, i: nat,
                                         batch: seq<Entry>, admitted: nat)
    requires i <= |stage.targets| && |batch| <= capacity
    ensures |Walk(stage, admits, capacity, i, batch, admitted)| <= capacity
    decreases |stage.targets| - i
  {
    if i < |stage.targets| {
      var t := stage.targets[i];
      WalkIsBounded(stage, admits, capacity, i + 1, batch, admitted);
      if |batch| < capacity {
        WalkIsBounded(stage, admits, capacity, i + 1, batch + [EntryFor(t)],
                      admitted + Bit(t.attemptsCreated == 0));
      }
    }
  }

  /** Distinct pending targets of the first `i`, in identifier order. */
  ghost predicate Drawn(ts: seq<Target>, batch: seq<Entry>, i: nat) {
    && Increasing(batch)
    && (forall k :: 0 <= k < |batch| ==> Stands(ts, batch[k]))
    && (i < |ts| ==> forall k :: 0 <= k < |batch| ==> batch[k].target < ts[i].id)
  }

  lemma DrawNothing(ts: seq<Target>, batch: seq<Entry>, i: nat)
    requires Canonical(ts) && i < |ts| && Drawn(ts, batch, i)
    ensures Drawn(ts, batch, i + 1)
  {
    if i + 1 < |ts| {
      assert ts[i].id < ts[i + 1].id;
    }
  }

  lemma DrawOne(ts: seq<Target>, batch: seq<Entry>, i: nat)
    requires Canonical(ts) && i < |ts| && Drawn(ts, batch, i) && ts[i].state.Pending?
    ensures Drawn(ts, batch + [EntryFor(ts[i])], i + 1)
  {
    var e := EntryFor(ts[i]);
    assert Stands(ts, e);
    if i + 1 < |ts| {
      assert ts[i].id < ts[i + 1].id;
    }
  }

  lemma {:induction false} WalkDraws(stage: Stage, admits: nat -> bool, capacity: nat, i: nat,
                                     batch: seq<Entry>, admitted: nat)
    requires i <= |stage.targets| && Canonical(stage.targets) && Drawn(stage.targets, batch, i)
    ensures Drawn(stage.targets, Walk(stage, admits, capacity, i, batch, admitted), |stage.targets|)
    decreases |stage.targets| - i
  {
    if i < |stage.targets| {
      var t := stage.targets[i];
      if |batch| >= capacity || !Eligible(stage, admits, t, admitted) {
        DrawNothing(stage.targets, batch, i);
        WalkDraws(stage, admits, capacity, i + 1, batch, admitted);
      } else {
        DrawOne(stage.targets, batch, i);
        WalkDraws(stage, admits, capacity, i + 1, batch + [EntryFor(t)],
                  admitted + Bit(t.attemptsCreated == 0));
      }
    }
  }

  /** The running count is the number ever attempted plus the newcomers of the batch, capped by the canary. */
  ghost predicate Tallied(stage: Stage, batch: seq<Entry>, admitted: nat) {
    && admitted == Count(stage.targets, IsAttempted) + Newcomers(batch)
    && (CanaryActive(stage) && Count(stage.targets, IsAttempted) <= stage.policy.canarySize ==>
          admitted <= stage.policy.canarySize)
  }

  lemma TallyOne(stage: Stage, admits: nat -> bool, i: nat, batch: seq<Entry>, admitted: nat)
    requires i < |stage.targets| && Tallied(stage, batch, admitted)
    requires Eligible(stage, admits, stage.targets[i], admitted)
    ensures var t := stage.targets[i];
            Tallied(stage, batch + [EntryFor(t)], admitted + Bit(t.attemptsCreated == 0))
  {
    var t := stage.targets[i];
    assert (batch + [EntryFor(t)])[..|batch|] == batch;
  }

  lemma {:induction false} WalkTallies(stage: Stage, admits: nat -> bool, capacity: nat, i: nat,
                                       batch: seq<Entry>, admitted: nat) returns (total: nat)
    requires i <= |stage.targets| && Tallied(stage, batch, admitted)
    ensures Tallied(stage, Walk(stage, admits, capacity, i, batch, admitted), total)
    decreases |stage.targets| - i
  {
    total := admitted;
    if i < |stage.targets| {
      var t := stage.targets[i];
      if |batch| >= capacity || !Eligible(stage, admits, t, admitted) {
        total := WalkTallies(stage, admits, capacity, i + 1, batch, admitted);
      } else {
        TallyOne(stage, admits, i, batch, admitted);
        total := WalkTallies(stage, admits, capacity, i + 1, batch + [EntryFor(t)],
                             admitted + Bit(t.attemptsCreated == 0));
      }
    }
  }

  /**
   * What the planner promises: distinct pending targets, each under its next epoch; together with the
   * targets already changing they stay within concurrency, stage radius and global radius; and while the
   * canary is active at most `canarySize` targets will ever have been attempted.
   */
  lemma PlanIsWithinLimits(stages: seq<Stage>, stage: Stage, cfg: Config)
    requires Canonical(stage.targets)
    ensures var batch := PlanDispatch(stages, stage, cfg);
            var policy, changing := stage.policy, Count(stage.targets, IsChanging);
            && Increasing(batch)
            && (forall k :: 0 <= k < |batch| ==> Stands(stage.targets, batch[k]))
            && (batch != [] ==>
                  && |batch| <= cfg.maxDispatchBatch
                  && PrimaryAction(stage).Some?
                  && changing + |batch| <= policy.maxConcurrency
                  && changing + |batch| <= policy.radius.perStage
                  && ChangingCount(stages) + |batch| <= policy.radius.global)
            && (CanaryActive(stage) && Count(stage.targets, IsAttempted) <= policy.canarySize ==>
                  Count(stage.targets, IsAttempted) + Newcomers(batch) <= policy.canarySize)
  {
    var policy := stage.policy;
    if ChangingCount(stages) < policy.radius.global && Count(stage.targets, IsChanging) < policy.radius.perStage {
      var capacity := Capacity(stages, stage, cfg);
      if capacity != 0 && PrimaryAction(stage).Some? {
        var admits, attempted := Admission(stages, stage, cfg.inventory), Count(stage.targets, IsAttempted);
        WalkIsBounded(stage, admits, capacity, 0, [], attempted);
        WalkDraws(stage, admits, capacity, 0, [], attempted);
        var total := WalkTallies(stage, admits, capacity, 0, [], attempted);
      }
    }
  }

  /** The planner as the loop the state machine runs. */
  method BuildPlan(stages: seq<Stage>, stage: Stage, cfg: Config) returns (batch: seq<Entry>)
    ensures batch == PlanDispatch(stages, stage, cfg)
  {
    batch := [];
    var globalChanging := CountChanging(stages);
    var stageChanging := CountTargets(stage.targets, IsChanging);
    if globalChanging >= stage.policy.radius.global || stageChanging >= stage.policy.radius.perStage {
      return;
    }
    var capacity := Capacity(stages, stage, cfg);
    var admitted := CountTargets(stage.targets, IsAttempted);
    if capacity == 0 || PrimaryAction(stage).None? {
      return;
    }
    var admits := Admission(stages, stage, cfg.inventory);
    for i := 0 to |stage.targets|
      invariant Walk(stage, admits, capacity, i, batch, admitted) == PlanDispatch(stages, stage, cfg)
    {
      var t := stage.targets[i];
      if |batch| >= capacity {
        continue;
      }
      if Eligible(stage, admits, t, admitted) {
        batch := batch + [EntryFor(t)];
        if t.attemptsCreated == 0 {
          admitted := admitted + 1;
        }
      }
    }
  }
}
