/** What every reachable rollout looks like: the order of its stages, its limits and its attempt budget. */
module Shape {
  import opened Lifecycle
  import opened Rollouts
  import opened Dispatch
  import opened Machine
  import opened Books
  import opened Steps

  // ----- the invariants -----

  /** No target rests in failed, and compensation happens only in a rollout that is rolling back. */
  ghost predicate SaneTarget(state: RolloutState, st: Stage, x: Target) {
    && !x.state.TFailed?
    && (x.state.TRollingBack? ==>
          state.RollingBack? && !st.state.StPending? && !st.state.StSkipped? && st.policy.rollbackSupported)
  }

  ghost predicate Sane(ro: Rollout) {
    forall i, j :: 0 <= i < |ro.stages| && 0 <= j < |ro.stages[i].targets| ==>
      SaneTarget(ro.state, ro.stages[i], ro.stages[i].targets[j])
  }

  ghost predicate Behind(st: Stage) { st.state.StSucceeded? && Settled(st) }

  ghost predicate Ahead(ro: Rollout, st: Stage) {
    && Untouched(st) && st.pendingGate == 0
    && (st.state.StPending? || (st.state.StSkipped? && ro.state.Aborting? && CursorEnded(ro)))
  }

  ghost predicate AtCursor(state: RolloutState, st: Stage) {
    && (match st.state
        case StPending | StArmed | StRunning | StGated | StSoaking | StFailed => true
        case StAborted | StSkipped => state.Aborting?
        case StBlocked | StAdvancing | StSucceeded | StRolledBack => false)
    && (st.state.StPending? ==> Untouched(st) && st.pendingGate == 0)
    && (st.state.StSoaking? ==> Settled(st))
    && (st.pendingGate != 0 ==>
          GateIsKnown(st) && (st.pendingGateKind.EntryGate? || Settled(st)))
  }

  /** Before any rollback: done stages, then the stage at the cursor, then untouched ones. */
  ghost predicate InOrder(ro: Rollout) {
    && ro.cursor <= |ro.stages|
    && (forall i :: 0 <= i < ro.cursor ==> Behind(ro.stages[i]))
    && (ro.cursor < |ro.stages| ==> AtCursor(ro.state, ro.stages[ro.cursor]))
    && (forall i :: ro.cursor < i < |ro.stages| ==> Ahead(ro, ro.stages[i]))
  }

  ghost predicate Unwinding(ro: Rollout) {
    && (forall i :: 0 <= i < |ro.stages| ==>
          var state := ro.stages[i].state;
          if i < ro.cursor then state.StSucceeded? || state.StRolledBack?
          else if i == ro.cursor then state.Terminal() && !state.StSucceeded?
          else (state.StPending? || state.StSkipped?) && ro.stages[i].pendingGate == 0)
    && ((exists i :: 0 <= i < |ro.stages| && ro.stages[i].state.StRolledBack?) ==> NoneRollingBack(ro))
  }

  ghost predicate NotBegun(st: Stage) { st.state.StPending? && Untouched(st) && st.pendingGate == 0 }

  ghost predicate AllBehind(ro: Rollout) {
    ro.cursor == |ro.stages| && forall i :: 0 <= i < |ro.stages| ==> Behind(ro.stages[i])
  }

  /** What a new generation that was given up half-way leaves. */
  ghost predicate NoneBegun(ro: Rollout) {
    ro.cursor == 0 && forall i :: 0 <= i < |ro.stages| ==> NotBegun(ro.stages[i])
  }

  ghost predicate Over(ro: Rollout) {
    && (forall i :: 0 <= i < |ro.stages| && ro.stages[i].pendingGate != 0 ==> ro.stages[i].state.Terminal())
    && (ro.state.Completed? ==> AllBehind(ro) || NoneBegun(ro))
  }

  predicate GateIsKnown(st: Stage) {
    st.pendingGate != 0 ==>
      st.pendingGateKind.EntryGate? || st.pendingGateKind.EvidenceGate? || st.pendingGateKind.AdvanceGate?
  }

  ghost predicate GatesKnown(ro: Rollout) {
    forall i :: 0 <= i < |ro.stages| ==> GateIsKnown(ro.stages[i])
  }

  ghost predicate Phased(ro: Rollout) {
    && ro.cursor <= |ro.stages| && Topological(ro.stages) && GatesKnown(ro)
    && (if BeforeRollback(ro.state) then InOrder(ro)
        else if ro.state.RollingBack? then Unwinding(ro)
        else Over(ro))
  }

  /** Changing targets stay within every limit of the stage; the canary bounds the targets ever attempted. */
  ghost predicate WithinLimits(st: Stage) {
    && Count(st.targets, IsChanging) <= st.policy.maxConcurrency
    && Count(st.targets, IsChanging) <= st.policy.radius.perStage
    && Count(st.targets, IsChanging) <= st.policy.radius.global
    && (CanaryActive(st) ==> Count(st.targets, IsAttempted) <= st.policy.canarySize)
  }

  ghost predicate Limited(ro: Rollout) {
    BeforeRollback(ro.state) && ro.cursor < |ro.stages| ==> WithinLimits(ro.stages[ro.cursor])
  }

  predicate Compensating(x: Target) {
    x.state.TRollingBack? || x.state.RolledBack? || x.state.RollbackFailed?
  }

  predicate CapTarget(policy: Policy, x: Target) {
    Compensating(x) ||
    (x.attemptsCreated <= policy.maxAttempts && (x.state.Pending? ==> x.attemptsCreated < policy.maxAttempts))
  }

  ghost predicate Capped(ro: Rollout) {
    forall i, j :: 0 <= i < |ro.stages| && 0 <= j < |ro.stages[i].targets| ==>
      CapTarget(ro.stages[i].policy, ro.stages[i].targets[j])
  }

  // ----- steps that change nothing the invariants look at -----

  predicate LooksTarget(x: Target, x': Target) {
    && x'.state == x.state && x'.attemptsCreated == x.attemptsCreated
    && (x'.currentAttempt == x.currentAttempt || x'.currentAttempt == 0)
    && x'.epoch == x.epoch
  }

  ghost predicate LooksFrame(st: Stage, st': Stage) {
    && st'.id == st.id && st'.predecessors == st.predecessors && st'.policy == st.policy
    && |st'.targets| == |st.targets|
    && (st.canaryCleared ==> st'.canaryCleared)
  }

  ghost predicate LooksStage(st: Stage, st': Stage) {
    && LooksFrame(st, st')
    && st'.state == st.state && st'.pendingGate == st.pendingGate && st'.pendingGateKind == st.pendingGateKind
    && (forall j :: 0 <= j < |st.targets| ==> LooksTarget(st.targets[j], st'.targets[j]))
  }

  ghost predicate Looks(ro: Rollout, ro': Rollout) {
    && ro'.state == ro.state && ro'.cursor == ro.cursor && |ro'.stages| == |ro.stages|
    && (forall i :: 0 <= i < |ro.stages| ==> LooksStage(ro.stages[i], ro'.stages[i]))
  }

  lemma TopologicalKept(stages: seq<Stage>, stages': seq<Stage>)
    requires Topological(stages) && |stages'| == |stages|
    requires forall i :: 0 <= i < |stages| ==>
               stages'[i].id == stages[i].id && stages'[i].predecessors == stages[i].predecessors
    ensures Topological(stages')
  {
    forall i, k | 0 <= i < |stages'| && 0 <= k < |stages'[i].predecessors|
      ensures Earlier(stages', i, stages'[i].predecessors[k])
    {
      assert Earlier(stages, i, stages[i].predecessors[k]);
      var j :| 0 <= j < i && stages[j].id == stages[i].predecessors[k];
      assert stages'[j].id == stages'[i].predecessors[k];
    }
  }

  lemma LooksPhased(ro: Rollout, ro': Rollout)
    requires Phased(ro) && Looks(ro, ro')
    ensures Phased(ro')
  {
    TopologicalKept(ro.stages, ro'.stages);
    assert GatesKnown(ro');
    if BeforeRollback(ro.state) {
      LooksInOrder(ro, ro');
    } else if ro.state.RollingBack? {
      LooksUnwinding(ro, ro');
    } else {
      forall i | 0 <= i < |ro'.stages|
        ensures Behind(ro.stages[i]) ==> Behind(ro'.stages[i])
        ensures NotBegun(ro.stages[i]) ==> NotBegun(ro'.stages[i])
      {
        LooksSettled(ro.stages[i], ro'.stages[i]);
      }
    }
  }

  lemma LooksSettled(st: Stage, st': Stage)
    requires |st'.targets| == |st.targets|
    requires forall j :: 0 <= j < |st.targets| ==> LooksTarget(st.targets[j], st'.targets[j])
    ensures Settled(st) ==> Settled(st')
    ensures Untouched(st) ==> Untouched(st')
  {
    forall j | 0 <= j < |st.targets|
      ensures st.targets[j].state.Terminal() ==> st'.targets[j].state.Terminal()
      ensures UntouchedTarget(st.targets[j]) ==> UntouchedTarget(st'.targets[j])
    {
      assert LooksTarget(st.targets[j], st'.targets[j]);
    }
  }

  lemma LooksInOrder(ro: Rollout, ro': Rollout)
    requires InOrder(ro) && Looks(ro, ro')
    ensures InOrder(ro')
  {
    forall i | 0 <= i < |ro.stages|
      ensures Settled(ro.stages[i]) ==> Settled(ro'.stages[i])
      ensures Untouched(ro.stages[i]) ==> Untouched(ro'.stages[i])
      ensures LooksStage(ro.stages[i], ro'.stages[i])
    {
      LooksSettled(ro.stages[i], ro'.stages[i]);
    }
    forall i | ro.cursor < i < |ro.stages| ensures Ahead(ro', ro'.stages[i]) {
      assert Ahead(ro, ro.stages[i]);
    }
    forall i | 0 <= i < ro.cursor ensures Behind(ro'.stages[i]) {
      assert Behind(ro.stages[i]);
    }
  }

  lemma LooksUnwinding(ro: Rollout, ro': Rollout)
    requires Unwinding(ro) && Looks(ro, ro')
    ensures Unwinding(ro')
  {
    if i :| 0 <= i < |ro'.stages| && ro'.stages[i].state.StRolledBack? {
      assert ro.stages[i].state.StRolledBack?;
      forall a, b | 0 <= a < |ro'.stages| && 0 <= b < |ro'.stages[a].targets|
        ensures !ro'.stages[a].targets[b].state.TRollingBack?
      {
        assert LooksTarget(ro.stages[a].targets[b], ro'.stages[a].targets[b]);
      }
    }
  }

  lemma LooksSane(ro: Rollout, ro': Rollout)
    requires Sane(ro) && Looks(ro, ro')
    ensures Sane(ro')
  {
    forall i, j | 0 <= i < |ro'.stages| && 0 <= j < |ro'.stages[i].targets|
      ensures SaneTarget(ro'.state, ro'.stages[i], ro'.stages[i].targets[j])
    {
      assert LooksTarget(ro.stages[i].targets[j], ro'.stages[i].targets[j]);
      assert SaneTarget(ro.state, ro.stages[i], ro.stages[i].targets[j]);
    }
  }

  lemma LooksCapped(ro: Rollout, ro': Rollout)
    requires Capped(ro) && Looks(ro, ro')
    ensures Capped(ro')
  {
    forall i, j | 0 <= i < |ro'.stages| && 0 <= j < |ro'.stages[i].targets|
      ensures CapTarget(ro'.stages[i].policy, ro'.stages[i].targets[j])
    {
      assert LooksTarget(ro.stages[i].targets[j], ro'.stages[i].targets[j]);
      assert CapTarget(ro.stages[i].policy, ro.stages[i].targets[j]);
    }
  }

  lemma LooksLimited(ro: Rollout, ro': Rollout)
    requires Limited(ro) && Looks(ro, ro')
    ensures Limited(ro')
  {
    if BeforeRollback(ro.state) && ro.cursor < |ro.stages| {
      LooksWithin(ro.stages[ro.cursor], ro'.stages[ro.cursor]);
    }
  }

  lemma LooksWithin(st: Stage, st': Stage)
    requires WithinLimits(st) && LooksStage(st, st')
    ensures WithinLimits(st')
  {
    forall j | 0 <= j < |st.targets| ensures LooksTarget(st.targets[j], st'.targets[j]) {
    }
    CountMono(st'.targets, st.targets, IsChanging);
    CountMono(st'.targets, st.targets, IsAttempted);
  }

  // ----- steps that change one target -----

  /** Target `t` of stage `s` changes; stages keep their states, gates and policies. */
  ghost predicate OneTarget(ro: Rollout, ro': Rollout, s: nat, t: nat) {
    && s < |ro.stages| && t < |ro.stages[s].targets|
    && ro'.state == ro.state && ro'.cursor == ro.cursor
    && |ro'.stages| == |ro.stages|
    && ro'.stages == ro.stages[s := ro'.stages[s]]
    && var st, st' := ro.stages[s], ro'.stages[s];
       && LooksFrame(st, st') && st'.canaryCleared == st.canaryCleared
       && st'.state == st.state && st'.pendingGate == st.pendingGate && st'.pendingGateKind == st.pendingGateKind
       && st'.targets == st.targets[t := st'.targets[t]]
  }

  /** The target was at work, or is pending in the running stage at the cursor. */
  ghost predicate AtWork(ro: Rollout, s: nat, t: nat)
    requires s < |ro.stages| && t < |ro.stages[s].targets|
  {
    var x := ro.stages[s].targets[t];
    && !x.state.Terminal()
    && (x.state.Pending? ==> BeforeRollback(ro.state) && s == ro.cursor && ro.stages[s].state.StRunning?)
  }

  lemma WorkIsAtCursor(ro: Rollout, s: nat, t: nat)
    requires Phased(ro) && s < |ro.stages| && t < |ro.stages[s].targets| && AtWork(ro, s, t)
    ensures BeforeRollback(ro.state) ==> s == ro.cursor && !Settled(ro.stages[s]) && !ro.stages[s].state.StPending?
    ensures !ro.state.Completed?
  {
    var st := ro.stages[s];
    assert BeforeRollback(ro.state) && s < ro.cursor ==> Behind(st);
    assert BeforeRollback(ro.state) && s > ro.cursor ==> Ahead(ro, st);
    assert BeforeRollback(ro.state) && s == ro.cursor ==> AtCursor(ro.state, st);
    assert Untouched(st) ==> UntouchedTarget(st.targets[t]);
    assert ro.state.Completed? ==> Behind(st) || NotBegun(st);
  }

  lemma OnePhased(ro: Rollout, ro': Rollout, s: nat, t: nat)
    requires Phased(ro) && OneTarget(ro, ro', s, t) && AtWork(ro, s, t)
    requires ro'.stages[s].targets[t].state.TRollingBack? ==> ro.stages[s].targets[t].state.TRollingBack?
    ensures Phased(ro')
  {
    TopologicalKept(ro.stages, ro'.stages);
    assert GatesKnown(ro');
    WorkIsAtCursor(ro, s, t);
    if BeforeRollback(ro.state) {
      OneInOrder(ro, ro', s, t);
    } else if ro.state.RollingBack? {
      OneUnwinding(ro, ro', s, t);
    }
  }

  lemma OneInOrder(ro: Rollout, ro': Rollout, s: nat, t: nat)
    requires InOrder(ro) && OneTarget(ro, ro', s, t)
    requires s == ro.cursor && !Settled(ro.stages[s]) && !ro.stages[s].state.StPending?
    ensures InOrder(ro')
  {
    forall i | ro.cursor < i < |ro.stages| ensures Ahead(ro', ro'.stages[i]) {
      assert Ahead(ro, ro.stages[i]) && ro'.stages[i] == ro.stages[i];
    }
    forall i | 0 <= i < ro.cursor ensures Behind(ro'.stages[i]) {
      assert Behind(ro.stages[i]) && ro'.stages[i] == ro.stages[i];
    }
  }

  lemma OneUnwinding(ro: Rollout, ro': Rollout, s: nat, t: nat)
    requires Unwinding(ro) && OneTarget(ro, ro', s, t)
    requires ro'.stages[s].targets[t].state.TRollingBack? ==> ro.stages[s].targets[t].state.TRollingBack?
    ensures Unwinding(ro')
  {
    assert forall i :: 0 <= i < |ro.stages| ==> ro'.stages[i].state == ro.stages[i].state;
    assert forall i :: 0 <= i < |ro.stages| ==> ro'.stages[i].pendingGate == ro.stages[i].pendingGate;
    if i :| 0 <= i < |ro'.stages| && ro'.stages[i].state.StRolledBack? {
      assert ro.stages[i].state.StRolledBack?;
      assert NoneRollingBack(ro);
    }
  }

  lemma OneSane(ro: Rollout, ro': Rollout, s: nat, t: nat)
    requires Sane(ro) && OneTarget(ro, ro', s, t)
    requires SaneTarget(ro'.state, ro'.stages[s], ro'.stages[s].targets[t])
    ensures Sane(ro')
  {
    forall i, j | 0 <= i < |ro'.stages| && 0 <= j < |ro'.stages[i].targets|
      ensures SaneTarget(ro'.state, ro'.stages[i], ro'.stages[i].targets[j])
    {
      assert SaneTarget(ro.state, ro.stages[i], ro.stages[i].targets[j]);
    }
  }

  lemma OneCapped(ro: Rollout, ro': Rollout, s: nat, t: nat)
    requires Capped(ro) && OneTarget(ro, ro', s, t)
    requires CapTarget(ro.stages[s].policy, ro'.stages[s].targets[t])
    ensures Capped(ro')
  {
    forall i, j | 0 <= i < |ro'.stages| && 0 <= j < |ro'.stages[i].targets|
      ensures CapTarget(ro'.stages[i].policy, ro'.stages[i].targets[j])
    {
      assert CapTarget(ro.stages[i].policy, ro.stages[i].targets[j]);
    }
  }

  /** No new changing target and no newly attempted one, or there was room for it. */
  lemma OneLimited(ro: Rollout, ro': Rollout, s: nat, t: nat)
    requires Phased(ro) && Limited(ro) && OneTarget(ro, ro', s, t)
    requires var x, x' := ro.stages[s].targets[t], ro'.stages[s].targets[t];
             || (IsChanging(x) && x'.attemptsCreated == x.attemptsCreated)
             || HasRoom(ro.stages, ro.stages[s], x)
             || !BeforeRollback(ro.state)
    ensures Limited(ro')
  {
    if BeforeRollback(ro.state) && s == ro.cursor {
      var x' := ro'.stages[s].targets[t];
      CountUpdate(ro.stages[s].targets, t, x', IsChanging);
      CountUpdate(ro.stages[s].targets, t, x', IsAttempted);
      ChangingIsMore(ro.stages, s);
    }
  }

  lemma {:induction false} ChangingIsMore(stages: seq<Stage>, s: nat)
    requires s < |stages|
    ensures Count(stages[s].targets, IsChanging) <= ChangingCount(stages)
  {
    if s < |stages| - 1 {
      ChangingIsMore(stages[..|stages| - 1], s);
    }
  }
}
