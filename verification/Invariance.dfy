/** Every step keeps every invariant, so every run of steps does. */
module Invariance {
  import opened Lifecycle
  import opened Rollouts
  import opened Dispatch
  import opened Machine
  import opened Books
  import opened Steps
  import opened Shape
  import Accounting

  ghost predicate Shaped(env: Env, ro: Rollout) {
    && Phased(ro) && Sane(ro) && Limited(ro) && (env.releases || Capped(ro))
  }

  ghost predicate HonestInbox(env: Env, w: World) {
    forall k :: 0 <= k < |w.inbox| ==> Honest(env, w, w.inbox[k])
  }

  /** A paused rollout remembers a state it could be paused in. */
  predicate Resumable(ro: Rollout) { ro.state.Paused? ==> ro.resumeState.CanPause() }

  ghost predicate Inv(env: Env, w: World) {
    Balanced(w) && Shaped(env, w.ro) && Resumable(w.ro) && HonestInbox(env, w)
  }

  // ----- steps the shape does not see -----

  lemma LooksShaped(env: Env, ro: Rollout, ro': Rollout)
    requires Shaped(env, ro) && Looks(ro, ro')
    ensures Shaped(env, ro')
  {
    LooksPhased(ro, ro');
    LooksSane(ro, ro');
    LooksLimited(ro, ro');
    if Capped(ro) { LooksCapped(ro, ro'); }
  }

  lemma SameShaped(env: Env, w: World, act: Act)
    requires Shaped(env, w.ro) && Enabled(env, w, act)
    requires act.See? || act.Request? || act.Others? || act.Deliver?
    ensures Shaped(env, Do(env, w, act).ro)
  {
  }

  lemma ObserveShaped(env: Env, w: World, stages: seq<Stage>)
    requires Shaped(env, w.ro) && CanObserve(w, stages)
    ensures Shaped(env, DoObserve(w, stages).ro)
  {
    forall i | 0 <= i < |stages| ensures LooksStage(w.ro.stages[i], stages[i]) {
      assert ObservedOnly(w.ro.stages[i], stages[i]);
    }
    LooksShaped(env, w.ro, DoObserve(w, stages).ro);
  }

  lemma TuneShaped(env: Env, w: World, to: World)
    requires Shaped(env, w.ro) && Tuned(w, to)
    ensures Shaped(env, to.ro)
  {
    forall i | 0 <= i < |to.ro.stages| ensures LooksStage(w.ro.stages[i], to.ro.stages[i]) {
      assert TunedStage(w.ro.stages[i], to.ro.stages[i]);
    }
    LooksShaped(env, w.ro, to.ro);
  }

  lemma RefuseShaped(env: Env, w: World, s: nat, t: nat, now: int)
    requires Shaped(env, w.ro) && w.HasTarget(s, t)
    ensures Shaped(env, DoRefuse(w, s, t, now).ro)
  {
    LooksShaped(env, w.ro, DoRefuse(w, s, t, now).ro);
  }

  // ----- steps on one target -----

  /** What one step may make of one target. */
  ghost predicate FitTarget(env: Env, ro: Rollout, s: nat, t: nat, x': Target)
    requires s < |ro.stages| && t < |ro.stages[s].targets|
  {
    var st, x := ro.stages[s], ro.stages[s].targets[t];
    && (x'.state.TRollingBack? ==> x.state.TRollingBack?) && !x'.state.TFailed?
    && (env.releases || CapTarget(st.policy, x) ==> env.releases || CapTarget(st.policy, x'))
    && (|| (IsChanging(x) && x'.attemptsCreated == x.attemptsCreated)
        || HasRoom(ro.stages, st, x)
        || !BeforeRollback(ro.state))
  }

  lemma OneShaped(env: Env, ro: Rollout, ro': Rollout, s: nat, t: nat)
    requires Shaped(env, ro) && OneTarget(ro, ro', s, t) && AtWork(ro, s, t)
    requires FitTarget(env, ro, s, t, ro'.stages[s].targets[t])
    ensures Shaped(env, ro')
  {
    assert SaneTarget(ro.state, ro.stages[s], ro.stages[s].targets[t]);
    OnePhased(ro, ro', s, t);
    OneSane(ro, ro', s, t);
    OneLimited(ro, ro', s, t);
    if Capped(ro) && !env.releases {
      assert CapTarget(ro.stages[s].policy, ro.stages[s].targets[t]);
      OneCapped(ro, ro', s, t);
    }
  }

  lemma LoseShaped(env: Env, w: World, s: nat, t: nat, id: nat)
    requires Balanced(w) && Shaped(env, w.ro) && LiveOn(w, id, s, t)
    ensures Shaped(env, DoLose(w, s, t, id).ro)
  {
    Accounting.LiveOnIsCurrent(w, id, s, t);
    OneShaped(env, w.ro, DoLose(w, s, t, id).ro, s, t);
  }

  lemma VerdictFits(env: Env, ro: Rollout, s: nat, t: nat, a: Attempt, cause: Cause)
    requires s < |ro.stages| && t < |ro.stages[s].targets|
    requires IsChanging(ro.stages[s].targets[t])
    requires cause.ByRelease? ==> env.releases
    requires cause.ByReport? ==> !ro.stages[s].targets[t].state.TRollingBack?
    requires cause.ByDeadline? ==> ro.stages[s].targets[t].state.Dispatched?
    ensures FitTarget(env, ro, s, t, VerdictFor(ro.stages[s], ro.stages[s].targets[t], a, cause).x)
  {
  }

  /** A verdict moves counters of the stage, nothing that its place in the order depends on. */
  ghost predicate SamePlace(st: Stage, st': Stage) {
    && st'.id == st.id && st'.predecessors == st.predecessors && st'.policy == st.policy
    && st'.canaryCleared == st.canaryCleared
    && st'.state == st.state && st'.pendingGate == st.pendingGate && st'.pendingGateKind == st.pendingGateKind
  }

  lemma VerdictKeepsPlace(st: Stage, x: Target, a: Attempt, cause: Cause)
    ensures SamePlace(st, VerdictFor(st, x, a, cause).st)
  {
  }

  lemma ConcludeIsOne(w: World, s: nat, t: nat, id: nat, v: Verdict)
    requires w.HasTarget(s, t) && SamePlace(w.ro.stages[s], v.st)
    ensures OneTarget(w.ro, Conclude(w, s, t, id, v).ro, s, t)
    ensures Conclude(w, s, t, id, v).ro.stages[s].targets[t] == v.x
  {
  }

  lemma FinishShaped(env: Env, w: World, s: nat, t: nat, id: nat, cause: Cause)
    requires Balanced(w) && Shaped(env, w.ro) && CanFinish(env, w, s, t, id, cause)
    ensures Shaped(env, DoFinish(w, s, t, id, cause).ro)
  {
    Accounting.LiveOnIsCurrent(w, id, s, t);
    var st, x := w.ro.stages[s], w.ro.stages[s].targets[t];
    var v := VerdictFor(st, x, w.at[id], cause);
    VerdictFits(env, w.ro, s, t, w.at[id], cause);
    VerdictKeepsPlace(st, x, w.at[id], cause);
    FinishedShaped(env, w, s, t, id, v);
  }

  lemma FinishedShaped(env: Env, w: World, s: nat, t: nat, id: nat, v: Verdict)
    requires Shaped(env, w.ro) && w.HasTarget(s, t) && IsChanging(w.ro.stages[s].targets[t])
    requires SamePlace(w.ro.stages[s], v.st) && FitTarget(env, w.ro, s, t, v.x)
    ensures Shaped(env, Conclude(w, s, t, id, v).ro)
  {
    ConcludeIsOne(w, s, t, id, v);
    OneShaped(env, w.ro, Conclude(w, s, t, id, v).ro, s, t);
  }

  lemma SendShaped(env: Env, w: World, s: nat, t: nat, step: nat, now: int)
    requires Shaped(env, w.ro) && CanSend(w, s, t, step)
    ensures Shaped(env, DoSend(w, s, t, step, now).ro)
  {
    OneShaped(env, w.ro, DoSend(w, s, t, step, now).ro, s, t);
  }

  lemma GiveUpShaped(env: Env, w: World, s: nat, t: nat)
    requires Shaped(env, w.ro) && CanGiveUp(w, s, t)
    ensures Shaped(env, DoGiveUp(w, s, t).ro)
  {
    OneShaped(env, w.ro, DoGiveUp(w, s, t).ro, s, t);
  }

  // ----- steps that leave targets alone -----

  /** Targets, policies and order are as before; stage states, gates, cursor and rollout state may differ. */
  ghost predicate SameCohorts(ro: Rollout, ro': Rollout) {
    && |ro'.stages| == |ro.stages|
    && (forall i :: 0 <= i < |ro.stages| ==>
          var st, st' := ro.stages[i], ro'.stages[i];
          && st'.id == st.id && st'.predecessors == st.predecessors && st'.policy == st.policy
          && st'.targets == st.targets && st'.canaryCleared == st.canaryCleared)
  }

  lemma CohortsCapped(ro: Rollout, ro': Rollout)
    requires Capped(ro) && SameCohorts(ro, ro')
    ensures Capped(ro')
  {
    forall i, j | 0 <= i < |ro'.stages| && 0 <= j < |ro'.stages[i].targets|
      ensures CapTarget(ro'.stages[i].policy, ro'.stages[i].targets[j])
    {
      assert CapTarget(ro.stages[i].policy, ro.stages[i].targets[j]);
    }
  }

  lemma CohortsSane(ro: Rollout, ro': Rollout)
    requires Sane(ro) && SameCohorts(ro, ro')
    requires NoneRollingBack(ro) ||
             (ro'.state == ro.state &&
              forall i :: 0 <= i < |ro.stages| ==>
                ro'.stages[i].state == ro.stages[i].state || ro'.stages[i].state.StRolledBack?)
    ensures Sane(ro')
  {
    forall i, j | 0 <= i < |ro'.stages| && 0 <= j < |ro'.stages[i].targets|
      ensures SaneTarget(ro'.state, ro'.stages[i], ro'.stages[i].targets[j])
    {
      assert SaneTarget(ro.state, ro.stages[i], ro.stages[i].targets[j]);
    }
  }

  lemma NoneBefore(ro: Rollout)
    requires Sane(ro) && !ro.state.RollingBack?
    ensures NoneRollingBack(ro)
  {
    forall i, j | 0 <= i < |ro.stages| && 0 <= j < |ro.stages[i].targets|
      ensures !ro.stages[i].targets[j].state.TRollingBack?
    {
      assert SaneTarget(ro.state, ro.stages[i], ro.stages[i].targets[j]);
    }
  }

  lemma CohortsLimited(ro: Rollout, ro': Rollout)
    requires Limited(ro) && SameCohorts(ro, ro')
    requires BeforeRollback(ro'.state) ==> BeforeRollback(ro.state) && ro'.cursor == ro.cursor
    ensures Limited(ro')
  {
  }

  /** Everything but the phase follows from the cohorts being the same. */
  lemma CohortsShaped(env: Env, ro: Rollout, ro': Rollout)
    requires Shaped(env, ro) && SameCohorts(ro, ro') && Phased(ro')
    requires BeforeRollback(ro'.state) ==> BeforeRollback(ro.state) && ro'.cursor == ro.cursor
    requires NoneRollingBack(ro) ||
             (ro'.state == ro.state &&
              forall i :: 0 <= i < |ro.stages| ==>
                ro'.stages[i].state == ro.stages[i].state || ro'.stages[i].state.StRolledBack?)
    ensures Shaped(env, ro')
  {
    CohortsSane(ro, ro');
    CohortsLimited(ro, ro');
    if Capped(ro) { CohortsCapped(ro, ro'); }
  }

  lemma MoveRolloutShaped(env: Env, w: World, to: RolloutState)
    requires Shaped(env, w.ro) && CanMoveRollout(w, to)
    ensures Shaped(env, PutState(w, to).ro)
  {
    var ro, ro' := w.ro, PutState(w, to).ro;
    if !ro.state.RollingBack? { NoneBefore(ro); }
    MoveRolloutPhased(w, to);
    CohortsShaped(env, ro, ro');
  }

  lemma MoveRolloutPhased(w: World, to: RolloutState)
    requires Phased(w.ro) && CanMoveRollout(w, to)
    ensures Phased(PutState(w, to).ro)
  {
    var ro, ro' := w.ro, PutState(w, to).ro;
    if BeforeRollback(ro.state) {
      if BeforeRollback(to) {
        KeepForward(ro, ro');
      } else {
        EndForward(ro, ro');
      }
    }
  }

  lemma KeepForward(ro: Rollout, ro': Rollout)
    requires InOrder(ro) && BeforeRollback(ro.state) && BeforeRollback(ro'.state) && LegalRollout(ro.state, ro'.state)
    requires ro'.stages == ro.stages && ro'.cursor == ro.cursor
    ensures InOrder(ro')
  {
    forall i | ro.cursor < i < |ro.stages| ensures Ahead(ro', ro'.stages[i]) {
      assert Ahead(ro, ro.stages[i]);
    }
  }

  lemma EndForward(ro: Rollout, ro': Rollout)
    requires InOrder(ro) && (CursorEnded(ro) || ro.cursor >= |ro.stages|)
    requires ro'.stages == ro.stages && ro'.cursor == ro.cursor
    requires ro'.state.Completed? ==> ro.cursor >= |ro.stages|
    ensures Over(ro')
  {
    forall i | 0 <= i < |ro.stages| && ro.stages[i].pendingGate != 0 ensures ro.stages[i].state.Terminal() {
      if i < ro.cursor { assert Behind(ro.stages[i]); }
      assert i > ro.cursor ==> Ahead(ro, ro.stages[i]);
    }
  }

  /** One stage changes its state or gate, before any rollback. */
  lemma StageForwardShaped(env: Env, ro: Rollout, ro': Rollout, s: nat)
    requires Shaped(env, ro) && BeforeRollback(ro.state) && s < |ro.stages|
    requires SameCohorts(ro, ro') && ro'.stages == ro.stages[s := ro'.stages[s]]
    requires ro'.state == ro.state && ro'.cursor == ro.cursor
    requires GateIsKnown(ro'.stages[s])
    requires s < ro.cursor ==> ro'.stages[s].state == ro.stages[s].state
    requires s == ro.cursor ==> AtCursor(ro'.state, ro'.stages[s]) &&
                                (CursorEnded(ro) ==> CursorEnded(ro'))
    requires s > ro.cursor ==> Ahead(ro', ro'.stages[s])
    ensures Shaped(env, ro')
  {
    NoneBefore(ro);
    TopologicalKept(ro.stages, ro'.stages);
    assert GatesKnown(ro');
    forall i | 0 <= i < ro.cursor ensures Behind(ro'.stages[i]) {
      assert Behind(ro.stages[i]);
    }
    forall i | ro.cursor < i < |ro.stages| ensures Ahead(ro', ro'.stages[i]) {
      assert Ahead(ro, ro.stages[i]);
    }
    CohortsShaped(env, ro, ro');
  }

  lemma MoveStageForward(env: Env, w: World, s: nat, to: StageState)
    requires Shaped(env, w.ro) && CanMoveStage(w, s, to) && BeforeRollback(w.ro.state)
    ensures Shaped(env, DoMoveStage(w, s, to).ro)
  {
    var ro := w.ro;
    assert s > ro.cursor ==> Ahead(ro, ro.stages[s]);
    assert s == ro.cursor ==> AtCursor(ro.state, ro.stages[s]);
    assert GateIsKnown(ro.stages[s]);
    StageForwardShaped(env, w.ro, DoMoveStage(w, s, to).ro, s);
  }

  lemma SettleShaped(env: Env, w: World, s: nat)
    requires Shaped(env, w.ro) && CanMoveStage(w, s, StRolledBack)
    ensures Shaped(env, DoMoveStage(w, s, StRolledBack).ro)
  {
    var ro, ro' := w.ro, DoMoveStage(w, s, StRolledBack).ro;
    TopologicalKept(ro.stages, ro'.stages);
    assert NoneRollingBack(ro');
    assert Unwinding(ro');
    CohortsShaped(env, ro, ro');
  }

  lemma SetGateShaped(env: Env, w: World, s: nat, kind: GateKind)
    requires Shaped(env, w.ro) && CanSetGate(w, s, kind)
    ensures Shaped(env, DoSetGate(w, s, kind).ro)
  {
    StageForwardShaped(env, w.ro, DoSetGate(w, s, kind).ro, s);
  }

  lemma ClearGateShaped(env: Env, w: World, s: nat)
    requires Shaped(env, w.ro) && w.HasStage(s)
    ensures Shaped(env, DoClearGate(w, s).ro)
  {
    var ro, ro' := w.ro, DoClearGate(w, s).ro;
    if BeforeRollback(ro.state) {
      assert s > ro.cursor ==> Ahead(ro, ro.stages[s]);
      StageForwardShaped(env, ro, ro', s);
    } else {
      TopologicalKept(ro.stages, ro'.stages);
      ClearGatePhased(ro, ro', s);
      if !ro.state.RollingBack? { NoneBefore(ro); }
      CohortsShaped(env, ro, ro');
    }
  }

  lemma ClearGatePhased(ro: Rollout, ro': Rollout, s: nat)
    requires Phased(ro) && !BeforeRollback(ro.state) && s < |ro.stages| && Topological(ro'.stages)
    requires ro' == ro.(stages := ro.stages[s := ro.stages[s].(pendingGate := 0)])
    ensures Phased(ro')
  {
    assert forall i :: 0 <= i < |ro.stages| ==> ro'.stages[i].state == ro.stages[i].state;
    assert NoneRollingBack(ro) ==> NoneRollingBack(ro');
    forall i | 0 <= i < |ro'.stages|
      ensures Behind(ro.stages[i]) ==> Behind(ro'.stages[i])
      ensures NotBegun(ro.stages[i]) ==> NotBegun(ro'.stages[i])
    {
    }
  }

  lemma CompleteShaped(env: Env, w: World, s: nat)
    requires Shaped(env, w.ro) && CanComplete(w, s)
    ensures Shaped(env, DoComplete(w, s).ro)
  {
    var ro, ro' := w.ro, DoComplete(w, s).ro;
    TopologicalKept(ro.stages, ro'.stages);
    CompleteInOrder(w, s);
    NoneBefore(ro);
    CohortsSane(ro, ro');
    if Capped(ro) { CohortsCapped(ro, ro'); }
    if s + 1 < |ro.stages| {
      assert Ahead(ro, ro.stages[s + 1]);
      FreshWithin(ro'.stages[s + 1]);
    }
  }

  lemma CompleteInOrder(w: World, s: nat)
    requires InOrder(w.ro) && CanComplete(w, s)
    ensures InOrder(DoComplete(w, s).ro)
  {
    var ro, ro' := w.ro, DoComplete(w, s).ro;
    assert forall i :: s < i < |ro.stages| ==> Ahead(ro, ro.stages[i]) && ro'.stages[i] == ro.stages[i];
    forall i | 0 <= i < s ensures Behind(ro'.stages[i]) {
      assert Behind(ro.stages[i]);
    }
    assert Settled(ro'.stages[s]);
  }

  lemma FreshWithin(st: Stage)
    requires Untouched(st)
    ensures WithinLimits(st)
  {
    assert forall j :: 0 <= j < |st.targets| ==> UntouchedTarget(st.targets[j]);
    CountNone(st.targets, IsChanging);
    CountNone(st.targets, IsAttempted);
  }

  // ----- rolling back and starting over -----

  lemma BeginShaped(env: Env, w: World)
    requires Shaped(env, w.ro) && CanBegin(w)
    ensures Shaped(env, DoBegin(w).ro)
  {
    var ro, ro' := w.ro, DoBegin(w).ro;
    TopologicalKept(ro.stages, ro'.stages);
    BeginUnwinding(w);
    forall i, j | 0 <= i < |ro'.stages| && 0 <= j < |ro'.stages[i].targets|
      ensures SaneTarget(ro'.state, ro'.stages[i], ro'.stages[i].targets[j])
      ensures Capped(ro) ==> CapTarget(ro'.stages[i].policy, ro'.stages[i].targets[j])
    {
      assert SaneTarget(ro.state, ro.stages[i], ro.stages[i].targets[j]);
      assert Capped(ro) ==> CapTarget(ro.stages[i].policy, ro.stages[i].targets[j]);
    }
  }

  lemma BeginUnwinding(w: World)
    requires InOrder(w.ro) && CanBegin(w)
    ensures Unwinding(DoBegin(w).ro)
  {
    var ro, ro' := w.ro, DoBegin(w).ro;
    forall i | 0 <= i < |ro.stages|
      ensures ro'.stages[i].state == ro.stages[i].state && ro'.stages[i].pendingGate == ro.stages[i].pendingGate
      ensures i < ro.cursor ==> ro.stages[i].state.StSucceeded?
      ensures i > ro.cursor ==> (ro.stages[i].state.StPending? || ro.stages[i].state.StSkipped?) &&
                                ro.stages[i].pendingGate == 0
    {
      assert i < ro.cursor ==> Behind(ro.stages[i]);
      assert i > ro.cursor ==> Ahead(ro, ro.stages[i]);
    }
  }

  lemma PlannedShaped(env: Env, ro: Rollout)
    requires Planned(ro.stages) && ro.cursor == 0 && (ro.state.Forward() || ro.state.Terminal())
    ensures Shaped(env, ro)
  {
    forall i | 0 <= i < |ro.stages| ensures Untouched(ro.stages[i]) && Ahead(ro, ro.stages[i]) {
    }
    forall i, j | 0 <= i < |ro.stages| && 0 <= j < |ro.stages[i].targets|
      ensures SaneTarget(ro.state, ro.stages[i], ro.stages[i].targets[j])
      ensures CapTarget(ro.stages[i].policy, ro.stages[i].targets[j])
    {
      assert UntouchedTarget(ro.stages[i].targets[j]);
    }
    if 0 < |ro.stages| { FreshWithin(ro.stages[0]); }
  }

  lemma StepKeepsResumable(env: Env, w: World, act: Act)
    requires Resumable(w.ro) && Enabled(env, w, act)
    ensures Resumable(Do(env, w, act).ro)
  {
  }

  lemma StepKeepsShape(env: Env, w: World, act: Act)
    requires Balanced(w) && Shaped(env, w.ro) && Enabled(env, w, act)
    ensures Shaped(env, Do(env, w, act).ro)
  {
    hide Balanced, Shaped;
    match act
    case Lose(s, t, id) => LoseShaped(env, w, s, t, id);
    case Observe(stages) => ObserveShaped(env, w, stages);
    case Finish(s, t, id, cause) => FinishShaped(env, w, s, t, id, cause);
    case Send(s, t, step, now) => SendShaped(env, w, s, t, step, now);
    case Refuse(s, t, now) => RefuseShaped(env, w, s, t, now);
    case GiveUp(s, t) => GiveUpShaped(env, w, s, t);
    case Tune(to) => TuneShaped(env, w, to);
    case MoveRollout(state) => MoveRolloutShaped(env, w, state);
    case MoveStage(s, into) =>
      if into.StRolledBack? { SettleShaped(env, w, s); } else { MoveStageForward(env, w, s, into); }
    case SetGate(s, kind) => SetGateShaped(env, w, s, kind);
    case ClearGate(s) => ClearGateShaped(env, w, s);
    case Complete(s) => CompleteShaped(env, w, s);
    case Begin => BeginShaped(env, w);
    case Renew(stages, whole) => PlannedShaped(env, DoRenew(w, stages, whole).ro);
    case _ => SameShaped(env, w, act);
  }
}
