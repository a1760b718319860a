/** Every operation, tick and command of the orchestrator is a run of steps. */
module Operations {
  import opened Lifecycle
  import opened Rollouts
  import opened Gates
  import opened Dispatch
  import opened Machine
  import opened Books
  import opened Steps
  import opened Shape
  import opened Invariance
  import opened History
  import opened Evidence
  import Accounting

  // ----- a batch of dispatches -----

  /** A batch that may still be sent in full: fresh pending targets, with room for all of them. */
  ghost predicate BatchFits(ro: Rollout, s: nat, batch: seq<Entry>) {
    && s < |ro.stages| && s == ro.cursor && ro.state.AdmitsDispatch() && ro.stages[s].state.StRunning?
    && var st := ro.stages[s];
       && Canonical(st.targets) && Increasing(batch)
       && (forall k :: 0 <= k < |batch| ==> Stands(st.targets, batch[k]))
       && (batch != [] ==> PrimaryAction(st).Some?
                           && Count(st.targets, IsChanging) + |batch| <= st.policy.maxConcurrency
                           && Count(st.targets, IsChanging) + |batch| <= st.policy.radius.perStage
                           && ChangingCount(ro.stages) + |batch| <= st.policy.radius.global)
       && (CanaryActive(st) ==> Count(st.targets, IsAttempted) + Newcomers(batch) <= st.policy.canarySize)
  }

  lemma {:induction false} NewcomersFromFront(batch: seq<Entry>)
    requires batch != []
    ensures Newcomers(batch) == Bit(batch[0].attemptNumber == 1) + Newcomers(batch[1..])
  {
    var n := |batch| - 1;
    if n > 0 {
      NewcomersFromFront(batch[..n]);
      assert batch[1..][..n - 1] == batch[..n][1..];
    }
  }

  lemma {:induction false} ChangingUpdate(stages: seq<Stage>, s: nat, st: Stage)
    requires s < |stages|
    ensures ChangingCount(stages[s := st]) + Count(stages[s].targets, IsChanging) ==
            ChangingCount(stages) + Count(st.targets, IsChanging)
  {
    var n := |stages| - 1;
    if s == n {
      assert stages[s := st][..n] == stages[..n];
    } else {
      ChangingUpdate(stages[..n], s, st);
      assert stages[s := st][..n] == stages[..n][s := st];
    }
  }

  /** The target an entry stands for is found under its identifier, untouched since the plan. */
  lemma EntryFound(ts: seq<Target>, e: Entry)
    requires Canonical(ts) && Stands(ts, e)
    ensures var t := FindTarget(ts, e.target);
            t < |ts| && ts[t].state.Pending? && e == EntryFor(ts[t])
  {
    var i :| 0 <= i < |ts| && ts[i].state.Pending? && e == EntryFor(ts[i]);
    FindInCanonical(ts, i);
  }

  lemma EntryCanBeSent(w: World, s: nat, batch: seq<Entry>)
    requires BatchFits(w.ro, s, batch) && batch != []
    ensures var t := FindTarget(w.ro.stages[s].targets, batch[0].target);
            CanSend(w, s, t, 0) && batch[0].epoch == w.ro.stages[s].targets[t].epoch + 1
  {
    EntryFound(w.ro.stages[s].targets, batch[0]);
    NewcomersFromFront(batch);
  }

  /** Whatever became of the first entry's target, the rest of the batch still fits. */
  lemma RestFits(ro: Rollout, ro': Rollout, s: nat, batch: seq<Entry>, t: nat)
    requires BatchFits(ro, s, batch) && batch != [] && t == FindTarget(ro.stages[s].targets, batch[0].target)
    requires OneOfSame(ro, ro', s, t)
    ensures BatchFits(ro', s, batch[1..])
  {
    var ts, ts' := ro.stages[s].targets, ro'.stages[s].targets;
    EntryFound(ts, batch[0]);
    NewcomersFromFront(batch);
    CountUpdate(ts, t, ts'[t], IsChanging);
    CountUpdate(ts, t, ts'[t], IsAttempted);
    ChangingUpdate(ro.stages, s, ro'.stages[s]);
    RestStands(ts, ts', batch, t);
  }

  lemma RestStands(ts: seq<Target>, ts': seq<Target>, batch: seq<Entry>, t: nat)
    requires Canonical(ts) && Increasing(batch) && batch != [] && t < |ts| && ts[t].id == batch[0].target
    requires forall k :: 0 <= k < |batch| ==> Stands(ts, batch[k])
    requires |ts'| == |ts| && ts' == ts[t := ts'[t]] && ts'[t].id == ts[t].id
    ensures Canonical(ts') && Increasing(batch[1..])
    ensures forall k :: 0 <= k < |batch[1..]| ==> Stands(ts', batch[1..][k])
  {
    forall k | 0 <= k < |batch[1..]| ensures Stands(ts', batch[1..][k]) {
      var e := batch[k + 1];
      var i :| 0 <= i < |ts| && ts[i].state.Pending? && e == EntryFor(ts[i]);
      assert ts'[i] == ts[i];
    }
  }

  /** What a dispatch attempt may do to the rollout: nothing, a refusal or a dispatch. */
  lemma DispatchedRollout(w: World, s: nat, t: nat, step: nat, now: int, accept: nat -> bool)
    requires w.HasTarget(s, t)
    ensures CreateAndDispatch(w, s, t, step, w.ro.stages[s].targets[t].epoch + 1, now, accept).ro ==
            if !w.cfg.hasExecution then w.ro
            else if accept(w.nextId) then DoSend(w, s, t, step, now).ro
            else DoRefuse(w, s, t, now).ro
  {
  }

  ghost predicate OneOfSame(ro: Rollout, ro': Rollout, s: nat, t: nat) {
    && OneTarget(ro, ro', s, t) && ro'.stages[s].actions == ro.stages[s].actions
    && ro'.stages[s].targets[t].id == ro.stages[s].targets[t].id
  }

  lemma DispatchIsOne(w: World, s: nat, t: nat, now: int)
    requires w.HasTarget(s, t)
    ensures OneOfSame(w.ro, DoSend(w, s, t, 0, now).ro, s, t)
    ensures OneOfSame(w.ro, DoRefuse(w, s, t, now).ro, s, t)
    ensures OneOfSame(w.ro, w.ro, s, t)
  {
    assert w.ro.stages[s].targets[t := w.ro.stages[s].targets[t]] == w.ro.stages[s].targets;
    assert w.ro.stages[s := w.ro.stages[s]] == w.ro.stages;
  }

  lemma {:induction false} DispatchBatchGoes(env: Env, w: World, s: nat, batch: seq<Entry>, now: int,
                                             accept: nat -> bool)
    requires Inv(env, w) && w.HasStage(s) && BatchFits(w.ro, s, batch)
    ensures Goes(env, w, DispatchBatch(w, s, batch, now, accept))
    decreases |batch|
  {
    hide Inv;
    if batch == [] {
      GoNowhere(env, w);
    } else {
      var t := FindTarget(w.ro.stages[s].targets, batch[0].target);
      EntryCanBeSent(w, s, batch);
      var w1 := DispatchEntry(w, s, batch[0], now, accept);
      assert w1 == CreateAndDispatch(w, s, t, 0, batch[0].epoch, now, accept);
      CreateAndDispatchGoes(env, w, s, t, 0, now, accept);
      DispatchedRollout(w, s, t, 0, now, accept);
      DispatchIsOne(w, s, t, now);
      RestFits(w.ro, w1.ro, s, batch, t);
      DispatchBatchGoes(env, w1, s, batch[1..], now, accept);
      GoThen(env, w, w1, DispatchBatch(w1, s, batch[1..], now, accept));
    }
  }

  lemma PlanFits(w: World, s: nat)
    requires Balanced(w) && Limited(w.ro) && w.HasStage(s) && s == w.ro.cursor
    requires w.ro.state.AdmitsDispatch() && w.ro.stages[s].state.StRunning?
    ensures BatchFits(w.ro, s, PlanDispatch(w.ro.stages, w.ro.stages[s], w.cfg))
  {
    assert StageOk(w.ro.stages[s]);
    PlanIsWithinLimits(w.ro.stages, w.ro.stages[s], w.cfg);
  }

  lemma MarksAreTuned(w: World, s: nat, changing: nat)
    requires w.HasStage(s)
    ensures var st := w.ro.stages[s];
            var marked := PutStage(w, s, st.(maxObservedChanging := Max(st.maxObservedChanging, changing)));
            Tuned(w, marked.(ro := marked.ro.(maxObservedChanging := Max(w.ro.maxObservedChanging, changing))))
  {
  }

  lemma GoTune(env: Env, w: World, to: World)
    requires Inv(env, w) && Tuned(w, to)
    ensures Goes(env, w, to)
  {
    GoOne(env, w, Tune(to));
    assert Do(env, w, Tune(to)) == to;
  }

  lemma DispatchStageGoes(env: Env, w: World, s: nat, now: int, accept: nat -> bool)
    requires Inv(env, w) && w.HasStage(s) && s == w.ro.cursor
    requires w.ro.state.AdmitsDispatch() && w.ro.stages[s].state.StRunning?
    ensures Goes(env, w, DispatchStage(w, s, now, accept))
  {
    var batch := PlanDispatch(w.ro.stages, w.ro.stages[s], w.cfg);
    var sent := DispatchBatch(w, s, batch, now, accept);
    PlanFits(w, s);
    DispatchBatchGoes(env, w, s, batch, now, accept);
    MarksAreTuned(sent, s, ChangingCount(sent.ro.stages));
    GoTune(env, sent, DispatchStage(w, s, now, accept));
    GoThen(env, w, sent, DispatchStage(w, s, now, accept));
  }

  // ----- cancellation -----

  lemma {:induction false} CancelGoes(env: Env, w: World, s: nat, i: nat, stops: nat -> bool)
    requires Inv(env, w) && w.HasStage(s) && i <= |w.ro.stages[s].targets|
    ensures Goes(env, w, CancelInFlight(w, s, i, stops).w)
    decreases |w.ro.stages[s].targets| - i
  {
    if i == |w.ro.stages[s].targets| {
      GoNowhere(env, w);
    } else {
      var id := w.ro.stages[s].targets[i].currentAttempt;
      if id == 0 || id !in w.at || w.at[id].Finished() {
        CancelGoes(env, w, s, i + 1, stops);
      } else {
        var w1 := DoRequest(w, id);
        Accounting.BusyIsLive(w, s, i);
        GoOne(env, w, Request(id));
        assert Do(env, w, Request(id)) == w1;
        CancelGoes(env, w1, s, i + 1, stops);
        GoThen(env, w, w1, CancelInFlight(w1, s, i + 1, stops).w);
      }
    }
  }

  // ----- single transitions -----

  lemma TransitionGoes(env: Env, w: World, to: RolloutState)
    requires Inv(env, w)
    requires LegalRollout(w.ro.state, to) ==> CanMoveRollout(w, to)
    ensures Goes(env, w, Transition(w, to).w)
  {
    if w.ro.state == to || !LegalRollout(w.ro.state, to) {
      GoNowhere(env, w);
    } else {
      GoOne(env, w, MoveRollout(to));
      assert Do(env, w, MoveRollout(to)) == PutState(w, to);
    }
  }

  lemma StageTransitionGoes(env: Env, w: World, s: nat, to: StageState)
    requires Inv(env, w) && w.HasStage(s)
    requires LegalStage(w.ro.stages[s].state, to) ==> CanMoveStage(w, s, to)
    ensures Goes(env, w, StageTransition(w, s, to).w)
  {
    if w.ro.stages[s].state == to || !LegalStage(w.ro.stages[s].state, to) {
      GoNowhere(env, w);
    } else {
      GoOne(env, w, MoveStage(s, to));
      assert Do(env, w, MoveStage(s, to)) == DoMoveStage(w, s, to);
    }
  }

  // ----- failure and rollback -----

  /** A rollout may fail once its stage at the cursor ended, or once no target is being compensated. */
  ghost predicate MayFail(ro: Rollout) {
    || ro.state.Terminal()
    || (BeforeRollback(ro.state) && CursorEnded(ro))
    || (ro.state.RollingBack? && NoneRollingBack(ro))
  }

  lemma FailRolloutGoes(env: Env, w: World)
    requires Inv(env, w) && MayFail(w.ro)
    ensures Goes(env, w, FailRollout(w).w)
  {
    if w.ro.state.Terminal() {
      GoNowhere(env, w);
    } else if w.ro.state.Paused? {
      var w1 := Transition(w, Running).w;
      TransitionGoes(env, w, Running);
      TransitionGoes(env, w1, Failed);
      GoThen(env, w, w1, Transition(w1, Failed).w);
    } else {
      TransitionGoes(env, w, Failed);
    }
  }

  lemma BeginRollbackGoes(env: Env, w: World)
    requires Inv(env, w) && BeforeRollback(w.ro.state) && CursorEnded(w.ro)
    ensures Goes(env, w, BeginRollback(w).w)
  {
    if LegalRollout(w.ro.state, RollingBack) {
      GoOne(env, w, Begin);
      assert Do(env, w, Begin) == DoBegin(w);
    } else {
      GoNowhere(env, w);
    }
  }

  lemma FailStageGoes(env: Env, w: World, s: nat)
    requires Inv(env, w) && w.HasStage(s) && s == w.ro.cursor && BeforeRollback(w.ro.state)
    ensures Goes(env, w, FailStage(w, s).w)
  {
    var r := StageTransition(w, s, StFailed);
    StageTransitionGoes(env, w, s, StFailed);
    if r.ok {
      if HasCompensation(r.w.ro.stages) {
        BeginRollbackGoes(env, r.w);
      } else {
        FailRolloutGoes(env, r.w);
      }
      GoThen(env, w, r.w, FailStage(w, s).w);
    }
  }

  lemma GiveUpGoes(env: Env, w: World, s: nat, t: nat)
    requires Inv(env, w) && CanGiveUp(w, s, t)
    ensures Goes(env, w, DoGiveUp(w, s, t))
  {
    GoOne(env, w, GiveUp(s, t));
    assert Do(env, w, GiveUp(s, t)) == DoGiveUp(w, s, t);
  }

  lemma RunRollbackCases(w: World, s: nat, t: nat, now: int, accept: nat -> bool)
    requires w.HasTarget(s, t) && 0 !in w.at
    ensures var st, x := w.ro.stages[s], w.ro.stages[s].targets[t];
            RunRollback(w, s, t, now, accept) ==
            if Busy(w.at, x) then w
            else if CompensationAction(st, x.rollbackStep).None? then DoGiveUp(w, s, t)
            else CreateAndDispatch(w, s, t, x.rollbackStep + 1, x.epoch + 1, now, accept)
  {
  }

  lemma RunRollbackGoes(env: Env, w: World, s: nat, t: nat, now: int, accept: nat -> bool)
    requires Inv(env, w) && w.HasTarget(s, t) && w.ro.state.RollingBack?
    requires w.ro.stages[s].targets[t].state.TRollingBack?
    ensures Goes(env, w, RunRollback(w, s, t, now, accept))
  {
    var st, x := w.ro.stages[s], w.ro.stages[s].targets[t];
    NilIsNoAttempt(w);
    RunRollbackCases(w, s, t, now, accept);
    if Busy(w.at, x) {
      GoNowhere(env, w);
    } else if CompensationAction(st, x.rollbackStep).None? {
      GiveUpGoes(env, w, s, t);
    } else {
      CreateAndDispatchGoes(env, w, s, t, x.rollbackStep + 1, now, accept);
    }
  }

  lemma NilIsNoAttempt(w: World)
    requires Balanced(w)
    ensures 0 !in w.at
  {
  }

  lemma RollBackTargetGoes(env: Env, w: World, s: nat, t: nat, now: int, accept: nat -> bool)
    requires Inv(env, w) && w.HasTarget(s, t) && w.ro.state.RollingBack?
    ensures Goes(env, w, RollBackTarget(w, s, t, now, accept))
  {
    if w.ro.stages[s].targets[t].state.TRollingBack? {
      RunRollbackGoes(env, w, s, t, now, accept);
    } else {
      GoNowhere(env, w);
    }
  }

  lemma RollBackTargetKeeps(w: World, s: nat, t: nat, now: int, accept: nat -> bool)
    requires w.HasTarget(s, t)
    ensures var w' := RollBackTarget(w, s, t, now, accept);
            && w'.ro.state == w.ro.state && |w'.ro.stages| == |w.ro.stages|
            && |w'.ro.stages[s].targets| == |w.ro.stages[s].targets|
  {
    var step := w.ro.stages[s].targets[t].rollbackStep + 1;
    DispatchedRollout(w, s, t, step, now, accept);
  }

  lemma {:induction false} RollBackTargetsGoes(env: Env, w: World, s: nat, t: nat, now: int, accept: nat -> bool)
    requires Inv(env, w) && w.HasStage(s) && t <= |w.ro.stages[s].targets| && w.ro.state.RollingBack?
    ensures Goes(env, w, RollBackTargets(w, s, t, now, accept))
    ensures RollBackTargets(w, s, t, now, accept).ro.state.RollingBack?
    decreases |w.ro.stages[s].targets| - t
  {
    if t == |w.ro.stages[s].targets| {
      GoNowhere(env, w);
    } else {
      var w1 := RollBackTarget(w, s, t, now, accept);
      RollBackTargetGoes(env, w, s, t, now, accept);
      RollBackTargetKeeps(w, s, t, now, accept);
      RollBackTargetsGoes(env, w1, s, t + 1, now, accept);
      GoThen(env, w, w1, RollBackTargets(w1, s, t + 1, now, accept));
    }
  }

  lemma {:induction false} RollBackStagesGoes(env: Env, w: World, s: nat, now: int, accept: nat -> bool)
    requires Inv(env, w) && s <= |w.ro.stages| && w.ro.state.RollingBack?
    ensures Goes(env, w, RollBackStages(w, s, now, accept))
    ensures RollBackStages(w, s, now, accept).ro.state.RollingBack?
    decreases |w.ro.stages| - s
  {
    if s == |w.ro.stages| {
      GoNowhere(env, w);
    } else {
      var w1 := RollBackTargets(w, s, 0, now, accept);
      RollBackTargetsGoes(env, w, s, 0, now, accept);
      RollBackStagesGoes(env, w1, s + 1, now, accept);
      GoThen(env, w, w1, RollBackStages(w1, s + 1, now, accept));
    }
  }

  lemma {:induction false} SettleStagesGoes(env: Env, w: World, s: nat)
    requires Inv(env, w) && s <= |w.ro.stages| && w.ro.state.RollingBack? && NoneRollingBack(w.ro)
    ensures Goes(env, w, SettleStages(w, s).w)
    ensures var ro' := SettleStages(w, s).w.ro; ro'.state.RollingBack? && NoneRollingBack(ro')
    decreases |w.ro.stages| - s
  {
    hide Inv;
    if s == |w.ro.stages| {
      GoNowhere(env, w);
    } else {
      var r := StageTransition(w, s, StRolledBack);
      StageTransitionGoes(env, w, s, StRolledBack);
      assert NoneRollingBack(r.w.ro);
      if r.ok {
        SettleStagesGoes(env, r.w, s + 1);
        GoThen(env, w, r.w, SettleStages(r.w, s + 1).w);
      }
    }
  }

  /** In a rollout that is rolling back, looking past pending and skipped stages misses no target. */
  lemma NoneStillRolling(ro: Rollout)
    requires Sane(ro) && (forall s :: 0 <= s < |ro.stages| ==> !StillRollingBack(ro.stages[s]))
    ensures NoneRollingBack(ro)
  {
    forall i, j | 0 <= i < |ro.stages| && 0 <= j < |ro.stages[i].targets|
      ensures !ro.stages[i].targets[j].state.TRollingBack?
    {
      assert SaneTarget(ro.state, ro.stages[i], ro.stages[i].targets[j]);
      assert !StillRollingBack(ro.stages[i]);
    }
  }

  lemma FinishRollbackGoes(env: Env, w: World)
    requires Inv(env, w) && w.ro.state.RollingBack?
    ensures Goes(env, w, FinishRollback(w).w)
  {
    if exists s :: 0 <= s < |w.ro.stages| && StillRollingBack(w.ro.stages[s]) {
      GoNowhere(env, w);
    } else {
      NoneStillRolling(w.ro);
      var r := SettleStages(w, 0);
      SettleStagesGoes(env, w, 0);
      if r.ok {
        FailRolloutGoes(env, r.w);
        GoThen(env, w, r.w, FailRollout(r.w).w);
      }
    }
  }

  // ----- stage progress -----

  lemma OpenGateGoes(env: Env, w: World, s: nat, kind: GateKind)
    requires Inv(env, w) && CanSetGate(w, s, kind)
    ensures Goes(env, w, OpenGate(w, s, kind))
  {
    hide Inv;
    var w1 := DoSetGate(w, s, kind);
    GoOne(env, w, SetGate(s, kind));
    assert Do(env, w, SetGate(s, kind)) == w1;
    var r := StageTransition(w1, s, StGated);
    StageTransitionGoes(env, w1, s, StGated);
    GoThen(env, w, w1, r.w);
    if !r.ok {
      GoTune(env, w1, w1.(halted := true));
      GoThen(env, w, w1, w1.(halted := true));
    } else if LegalRollout(r.w.ro.state, Gated) {
      TransitionGoes(env, r.w, Gated);
      GoThen(env, w, r.w, Transition(r.w, Gated).w);
    }
  }

  /** What the predecessor check reports, in terms of the predecessors. */
  lemma {:induction false} CheckMeans(stages: seq<Stage>, st: Stage, predecessors: seq<nat>)
    ensures CheckPredecessors(stages, st, predecessors).Refused? ==>
              exists k :: 0 <= k < |predecessors| &&
                var p := FindStage(stages, predecessors[k]);
                p < |stages| && stages[p].state.Terminal() && !stages[p].state.StSucceeded?
    ensures (forall k :: 0 <= k < |predecessors| ==>
               var p := FindStage(stages, predecessors[k]); p < |stages| && stages[p].state.StSucceeded?) ==>
            CheckPredecessors(stages, st, predecessors).Ready?
  {
    if predecessors != [] {
      CheckMeans(stages, st, predecessors[1..]);
      assert forall k :: 0 < k < |predecessors| ==> predecessors[k] == predecessors[1..][k - 1];
    }
  }

  lemma PredecessorIsEarlier(stages: seq<Stage>, i: nat, k: nat)
    requires Topological(stages) && i < |stages| && k < |stages[i].predecessors|
    ensures FindStage(stages, stages[i].predecessors[k]) < i
  {
    assert Earlier(stages, i, stages[i].predecessors[k]);
    var j :| 0 <= j < i && stages[j].id == stages[i].predecessors[k];
    assert FindStage(stages, stages[i].predecessors[k]) <= j;
  }

  lemma ReadyWhenBehind(ro: Rollout, s: nat)
    requires Phased(ro) && BeforeRollback(ro.state) && s < |ro.stages| && s <= ro.cursor
    ensures CheckPredecessors(ro.stages, ro.stages[s], ro.stages[s].predecessors).Ready?
  {
    var preds := ro.stages[s].predecessors;
    forall k | 0 <= k < |preds|
      ensures var p := FindStage(ro.stages, preds[k]); p < |ro.stages| && ro.stages[p].state.StSucceeded?
    {
      PredecessorIsEarlier(ro.stages, s, k);
      assert Behind(ro.stages[FindStage(ro.stages, preds[k])]);
    }
    CheckMeans(ro.stages, ro.stages[s], preds);
  }

  /** Entering the running state from armed or from an approved entry gate. */
  lemma EnterGoes(env: Env, w: World, s: nat)
    requires Inv(env, w) && w.HasStage(s) && s == w.ro.cursor && BeforeRollback(w.ro.state)
    ensures var run := StageTransition(w, s, StRunning);
            Goes(env, w, (if !run.ok || run.w.ro.state.Running? then run else Transition(run.w, Running)).w)
  {
    var run := StageTransition(w, s, StRunning);
    StageTransitionGoes(env, w, s, StRunning);
    if run.ok && !run.w.ro.state.Running? {
      TransitionGoes(env, run.w, Running);
      GoThen(env, w, run.w, Transition(run.w, Running).w);
    }
  }

  lemma BeginStageGoes(env: Env, w: World, s: nat)
    requires Inv(env, w) && w.HasStage(s) && s == w.ro.cursor && BeforeRollback(w.ro.state)
    ensures Goes(env, w, BeginStage(w, s).w)
  {
    var st := w.ro.stages[s];
    ReadyWhenBehind(w.ro, s);
    if st.state.StPending? {
      var r := StageTransition(w, s, StArmed);
      StageTransitionGoes(env, w, s, StArmed);
      if st.policy.entryGate.Manual? && st.pendingGate == 0 {
        OpenGateGoes(env, r.w, s, EntryGate);
      } else {
        EnterGoes(env, r.w, s);
      }
      GoThen(env, w, r.w, BeginStage(w, s).w);
    } else {
      EnterGoes(env, w, s);
    }
  }

  lemma CompleteIs(w: World, s: nat)
    requires w.HasStage(s)
    requires var state := w.ro.stages[s].state; state.StRunning? || state.StGated? || state.StSoaking?
    ensures var moved := DoComplete(w, s);
            PassGates(w, s) ==
            Transition(moved, if moved.ro.cursor >= |moved.ro.stages| then Completed else Advancing)
  {
    var w1 := DoMoveStage(w, s, StAdvancing);
    assert StageTransition(w, s, StAdvancing) == Result(w1, true);
    assert StageTransition(w1, s, StSucceeded) == Result(DoMoveStage(w1, s, StSucceeded), true);
  }

  lemma CompleteGoes(env: Env, w: World, s: nat)
    requires Inv(env, w) && CanComplete(w, s)
    ensures Goes(env, w, PassGates(w, s).w)
  {
    var moved := DoComplete(w, s);
    GoOne(env, w, Complete(s));
    assert Do(env, w, Complete(s)) == moved;
    AdvancedGoes(env, moved);
    CompleteIs(w, s);
    var to := if moved.ro.cursor >= |moved.ro.stages| then Completed else Advancing;
    GoThen(env, w, moved, Transition(moved, to).w);
  }

  lemma AdvancedGoes(env: Env, w: World)
    requires Inv(env, w) && BeforeRollback(w.ro.state)
    ensures Goes(env, w, Transition(w, if w.ro.cursor >= |w.ro.stages| then Completed else Advancing).w)
  {
    TransitionGoes(env, w, if w.ro.cursor >= |w.ro.stages| then Completed else Advancing);
  }

  /** Past its gates a stage completes from running, gated or soaking, and is refused from anything else. */
  lemma CompleteCases(env: Env, w: World, s: nat)
    requires Inv(env, w) && w.HasStage(s)
    requires w.ro.stages[s].state.Terminal() ||
             (s == w.ro.cursor && BeforeRollback(w.ro.state) && Settled(w.ro.stages[s]))
    ensures Goes(env, w, PassGates(w, s).w)
  {
    var state := w.ro.stages[s].state;
    assert s == w.ro.cursor && BeforeRollback(w.ro.state) ==> AtCursor(w.ro.state, w.ro.stages[s]);
    if state.StRunning? || state.StGated? || state.StSoaking? {
      CompleteGoes(env, w, s);
    } else {
      GoNowhere(env, w);
    }
  }

  lemma CompleteStageGoes(env: Env, w: World, s: nat, now: int)
    requires Inv(env, w) && w.HasStage(s) && s == w.ro.cursor && BeforeRollback(w.ro.state)
    requires Settled(w.ro.stages[s]) && !w.ro.stages[s].state.StPending?
    ensures Goes(env, w, CompleteStage(w, s, now, false).w)
  {
    var st := w.ro.stages[s];
    if !EvidenceGateOpen(st, now, w.cfg) {
      if st.policy.evidenceGate.mode.Manual? {
        OpenGateGoes(env, w, s, EvidenceGate);
      } else {
        FailStageGoes(env, w, s);
      }
    } else if !AdvanceGateOpen(st) {
      if st.policy.advanceGate.Manual? {
        OpenGateGoes(env, w, s, AdvanceGate);
      } else {
        GoNowhere(env, w);
      }
    } else {
      CompleteCases(env, w, s);
    }
  }

  lemma StartSoakGoes(env: Env, w: World, s: nat, now: int)
    requires Inv(env, w) && w.HasStage(s) && s == w.ro.cursor && BeforeRollback(w.ro.state) && Settled(w.ro.stages[s])
    ensures Goes(env, w, StartSoak(w, s, now).w)
  {
    var w1 := PutStage(w, s, w.ro.stages[s].(soakStartedAt := now));
    GoTune(env, w, w1);
    var r := StageTransition(w1, s, StSoaking);
    StageTransitionGoes(env, w1, s, StSoaking);
    GoThen(env, w, w1, r.w);
    if r.ok && LegalRollout(r.w.ro.state, Soaking) {
      TransitionGoes(env, r.w, Soaking);
      GoThen(env, w, r.w, Transition(r.w, Soaking).w);
    }
  }

  /** The stage at the cursor of a rollout that admits dispatch is running, or soaking with all targets settled. */
  ghost predicate AtWorkStage(w: World, s: nat) {
    && w.HasStage(s) && s == w.ro.cursor && w.ro.state.AdmitsDispatch()
    && (w.ro.stages[s].state.StRunning? || (w.ro.stages[s].state.StSoaking? && Settled(w.ro.stages[s])))
  }

  lemma ProceedGoes(env: Env, w: World, s: nat, now: int, accept: nat -> bool)
    requires Inv(env, w) && AtWorkStage(w, s)
    ensures Goes(env, w, Proceed(w, s, now, accept).w)
  {
    var st := w.ro.stages[s];
    var soak := st.policy.evidenceGate.soak;
    CountAll(st.targets, IsTerminal);
    if Count(st.targets, IsTerminal) == |st.targets| {
      if soak != 0 && st.soakStartedAt == 0 {
        StartSoakGoes(env, w, s, now);
      } else if soak != 0 && now - st.soakStartedAt < soak {
        GoNowhere(env, w);
      } else {
        CompleteStageGoes(env, w, s, now);
      }
    } else if st.succeededTotal > 0 && !HealthGateOpen(st, now, w.cfg) {
      GoNowhere(env, w);
    } else {
      DispatchStageGoes(env, w, s, now, accept);
    }
  }

  lemma {:induction false} ExpireKeepsPlace(w: World, s: nat, t: nat, now: int)
    requires w.HasStage(s) && t <= |w.ro.stages[s].targets|
    ensures var w' := ExpireAttempts(w, s, t, now);
            && w'.ro.state == w.ro.state && w'.ro.cursor == w.ro.cursor
            && |w'.ro.stages| == |w.ro.stages| && w'.ro.stages[s].state == w.ro.stages[s].state
    decreases |w.ro.stages[s].targets| - t
  {
    if t < |w.ro.stages[s].targets| {
      ExpireKeepsPlace(ExpireTarget(w, s, t, now), s, t + 1, now);
    }
  }

  lemma RunStageGoes(env: Env, w: World, s: nat, now: int, accept: nat -> bool)
    requires Inv(env, w) && AtWorkStage(w, s)
    ensures Goes(env, w, RunStage(w, s, now, accept).w)
  {
    var w1 := ExpireAttempts(w, s, 0, now);
    ExpireAttemptsGoes(env, w, s, 0, now);
    ExpireKeepsPlace(w, s, 0, now);
    assert AtCursor(w1.ro.state, w1.ro.stages[s]);
    AfterDeadlinesGoes(env, w1, s, now, accept);
    GoThen(env, w, w1, RunStage(w, s, now, accept).w);
  }

  lemma AfterDeadlinesGoes(env: Env, w: World, s: nat, now: int, accept: nat -> bool)
    requires Inv(env, w) && AtWorkStage(w, s)
    ensures Goes(env, w, AfterDeadlines(w, s, now, accept).w)
  {
    hide Inv;
    var st := w.ro.stages[s];
    if Count(st.targets, IsFailed) > StageBudget(st) {
      FailStageGoes(env, w, s);
    } else if CanaryDue(st) && CanaryBatchGood(st, now, w.cfg) {
      var w1 := PutStage(w, s, st.(canaryCleared := true));
      GoTune(env, w, w1);
      ProceedGoes(env, w1, s, now, accept);
      GoThen(env, w, w1, Proceed(w1, s, now, accept).w);
    } else if CanaryDue(st) && CanaryExhausted(st) {
      FailStageGoes(env, w, s);
    } else {
      ProceedGoes(env, w, s, now, accept);
    }
  }

  // ----- ticks -----

  lemma AdvanceForwardGoes(env: Env, w: World, now: int, accept: nat -> bool)
    requires Inv(env, w) && w.ro.state.AdmitsDispatch()
    ensures Goes(env, w, AdvanceForward(w, now, accept).w)
  {
    var s := w.ro.cursor;
    if !w.HasStage(s) {
      TransitionGoes(env, w, Completed);
    } else {
      assert AtCursor(w.ro.state, w.ro.stages[s]);
      match w.ro.stages[s].state
      case StPending => BeginStageGoes(env, w, s);
      case StArmed => StageTransitionGoes(env, w, s, StRunning);
      case StRunning | StSoaking => RunStageGoes(env, w, s, now, accept);
      case StFailed =>
        if HasCompensation(w.ro.stages) { BeginRollbackGoes(env, w); } else { FailRolloutGoes(env, w); }
      case StGated => GoNowhere(env, w);
      case _ =>
    }
  }

  lemma HaltGoes(env: Env, w: World, r: Result)
    requires Goes(env, w, r.w)
    ensures Goes(env, w, Halt(r))
  {
    if !r.ok {
      GoTune(env, r.w, r.w.(halted := true));
      GoThen(env, w, r.w, Halt(r));
    }
  }

  lemma AdvanceGoes(env: Env, w: World, now: int, accept: nat -> bool)
    requires Inv(env, w)
    ensures Goes(env, w, Advance(w, now, accept))
  {
    if w.ro.state.RollingBack? {
      var w1 := RollBackStages(w, 0, now, accept);
      RollBackStagesGoes(env, w, 0, now, accept);
      FinishRollbackGoes(env, w1);
      GoThen(env, w, w1, FinishRollback(w1).w);
      HaltGoes(env, w, FinishRollback(w1));
    } else if w.ro.state.AdmitsDispatch() {
      AdvanceForwardGoes(env, w, now, accept);
      HaltGoes(env, w, AdvanceForward(w, now, accept));
    } else {
      GoNowhere(env, w);
    }
  }

  lemma TickGoes(env: Env, w: World, now: int, accept: nat -> bool)
    requires Inv(env, w)
    ensures Goes(env, w, Tick(w, now, accept))
  {
    if w.halted {
      GoNowhere(env, w);
    } else {
      var w1 := w.(inbox := []);
      GoTune(env, w, w1);
      forall k | 0 <= k < |w.inbox| ensures Honest(env, w1, w.inbox[k]) {
        GoHonest(env, w, w1, w.inbox[k]);
      }
      var w2 := Drain(w1, w.inbox, now);
      DrainGoes(env, w1, w.inbox, now);
      GoThen(env, w, w1, w2);
      AdvanceGoes(env, w2, now, accept);
      GoThen(env, w, w2, Advance(w2, now, accept));
    }
  }
}
