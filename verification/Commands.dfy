/** Operator commands are runs of steps, and so is every event of a rollout. */
module Commands {
  import opened Lifecycle
  import opened Rollouts
  import opened Dispatch
  import opened Machine
  import opened Books
  import opened Steps
  import opened Shape
  import opened Invariance
  import opened History
  import opened Evidence
  import opened Operations

  lemma {:induction false} FreezeGoes(env: Env, w: World, s: nat)
    requires Inv(env, w) && s <= |w.ro.stages|
    ensures Goes(env, w, FreezeCohorts(w, s).w)
    decreases |w.ro.stages| - s
  {
    if s == |w.ro.stages| || w.ro.stages[s].frozen || w.ro.stages[s].targets == [] {
      GoNowhere(env, w);
    } else {
      var w1 := PutStage(w, s, w.ro.stages[s].(frozen := true));
      GoTune(env, w, w1);
      FreezeGoes(env, w1, s + 1);
      GoThen(env, w, w1, FreezeCohorts(w1, s + 1).w);
    }
  }

  lemma ArmGoes(env: Env, w: World, f: Fence)
    requires Inv(env, w)
    ensures Goes(env, w, Arm(w, f).w)
  {
    if !Fenced(w.ro, f) || (!w.ro.state.Validated? && !w.ro.state.Created?) {
      GoNowhere(env, w);
    } else {
      var r := FreezeCohorts(w, 0);
      FreezeGoes(env, w, 0);
      if r.ok {
        TransitionGoes(env, r.w, Armed);
        GoThen(env, w, r.w, Transition(r.w, Armed).w);
      }
    }
  }

  lemma StartGoes(env: Env, w: World, f: Fence)
    requires Inv(env, w)
    ensures Goes(env, w, Start(w, f).w)
  {
    GoNowhere(env, w);
    TransitionGoes(env, w, Running);
  }

  lemma PauseMoves(env: Env, w: World)
    requires Inv(env, w) && w.ro.state.CanPause()
    ensures Goes(env, w, Transition(w.(ro := w.ro.(resumeState := w.ro.state)), Paused).w)
  {
    var w1 := w.(ro := w.ro.(resumeState := w.ro.state));
    GoTune(env, w, w1);
    TransitionGoes(env, w1, Paused);
    GoThen(env, w, w1, Transition(w1, Paused).w);
  }

  lemma PauseGoes(env: Env, w: World, f: Fence, stops: nat -> bool)
    requires Inv(env, w)
    ensures Goes(env, w, Pause(w, f, stops).w)
  {
    if !Fenced(w.ro, f) || !w.ro.state.CanPause() {
      GoNowhere(env, w);
    } else {
      var r := Transition(w.(ro := w.ro.(resumeState := w.ro.state)), Paused);
      var s := w.ro.cursor;
      PauseMoves(env, w);
      if r.ok && w.HasStage(s) && !w.ro.stages[s].policy.pauseInFlight.LetFinish? {
        FindNamesStage(w, s);
        CancelGoes(env, r.w, s, 0, stops);
        GoThen(env, w, r.w, CancelInFlight(r.w, s, 0, stops).w);
      }
    }
  }

  lemma FindNamesStage(w: World, s: nat)
    requires WellFormed(w) && w.HasStage(s)
    ensures FindStage(w.ro.stages, w.ro.stages[s].id) == s
  {
    assert FindStage(w.ro.stages, w.ro.stages[s].id) <= s;
  }

  lemma ResumeGoes(env: Env, w: World, f: Fence)
    requires Inv(env, w)
    ensures Goes(env, w, Resume(w, f).w)
  {
    GoNowhere(env, w);
    if w.ro.state.Paused? {
      TransitionGoes(env, w, w.ro.resumeState);
    }
  }

  // ----- abort -----

  /** Where the walk over the stages of an abort stands. */
  ghost predicate Aborted(w: World, s: nat) {
    s <= |w.ro.stages| && w.ro.state.Aborting? && (s > w.ro.cursor ==> CursorEnded(w.ro))
  }

  lemma StageDuringAbort(w: World, s: nat)
    requires Phased(w.ro) && w.HasStage(s) && w.ro.state.Aborting?
    ensures !w.ro.stages[s].state.StBlocked?
    ensures s < w.ro.cursor ==> w.ro.stages[s].state.StSucceeded?
    ensures s > w.ro.cursor ==> w.ro.stages[s].state.StPending? || w.ro.stages[s].state.Terminal()
  {
    assert s < w.ro.cursor ==> Behind(w.ro.stages[s]);
    assert s > w.ro.cursor ==> Ahead(w.ro, w.ro.stages[s]);
    assert s == w.ro.cursor ==> AtCursor(w.ro.state, w.ro.stages[s]);
  }

  lemma CancelStageGoes(env: Env, w: World, s: nat, stops: nat -> bool)
    requires Inv(env, w) && w.HasStage(s) && w.ro.state.Aborting? && s == w.ro.cursor
    requires !w.ro.stages[s].state.Terminal() && !w.ro.stages[s].state.StPending?
    ensures var r := AbortStage(w, s, stops);
            Goes(env, w, r.w) && (r.ok ==> Aborted(r.w, s + 1))
  {
    var c := CancelInFlight(w, s, 0, stops);
    CancelKeepsStages(w, s, 0, stops);
    CancelGoes(env, w, s, 0, stops);
    if c.ok {
      var r := StageTransition(c.w, s, StAborted);
      StageTransitionGoes(env, c.w, s, StAborted);
      GoThen(env, w, c.w, r.w);
    }
  }

  lemma AbortStageGoes(env: Env, w: World, s: nat, stops: nat -> bool)
    requires Inv(env, w) && Aborted(w, s) && s < |w.ro.stages|
    ensures var r := AbortStage(w, s, stops);
            Goes(env, w, r.w) && (r.ok ==> Aborted(r.w, s + 1))
  {
    StageDuringAbort(w, s);
    var state := w.ro.stages[s].state;
    if state.StPending? {
      StageTransitionGoes(env, w, s, StSkipped);
    } else if state.Terminal() {
      GoNowhere(env, w);
    } else {
      CancelStageGoes(env, w, s, stops);
    }
  }

  lemma {:induction false} AbortStagesGoes(env: Env, w: World, s: nat, stops: nat -> bool)
    requires Inv(env, w) && Aborted(w, s)
    ensures var r := AbortStages(w, s, stops);
            && Goes(env, w, r.w)
            && (r.ok ==> r.w.ro.state.Aborting? && CursorEnded(r.w.ro))
    decreases |w.ro.stages| - s
  {
    if s == |w.ro.stages| {
      GoNowhere(env, w);
    } else {
      var r := AbortStage(w, s, stops);
      AbortStageGoes(env, w, s, stops);
      if r.ok {
        AbortStagesGoes(env, r.w, s + 1, stops);
        GoThen(env, w, r.w, AbortStages(r.w, s + 1, stops).w);
      }
    }
  }

  lemma AbortGoes(env: Env, w: World, f: Fence, stops: nat -> bool)
    requires Inv(env, w)
    ensures Goes(env, w, Abort(w, f, stops).w)
  {
    hide Inv;
    GoNowhere(env, w);
    var r := Transition(w, Aborting);
    TransitionGoes(env, w, Aborting);
    if r.ok && !w.ro.state.Aborting? {
      var a := AbortStages(r.w, 0, stops);
      AbortStagesGoes(env, r.w, 0, stops);
      GoThen(env, w, r.w, a.w);
      if a.ok {
        EndAbortGoes(env, a.w);
        GoThen(env, w, a.w, BeginRollback(a.w).w);
        GoThen(env, w, a.w, FailRollout(a.w).w);
      }
    }
  }

  lemma EndAbortGoes(env: Env, w: World)
    requires Inv(env, w) && w.ro.state.Aborting? && CursorEnded(w.ro)
    ensures Goes(env, w, BeginRollback(w).w)
    ensures Goes(env, w, FailRollout(w).w)
  {
    BeginRollbackGoes(env, w);
    FailRolloutGoes(env, w);
  }

  // ----- gates -----

  /** Approving a stale gate of an ended stage changes no stage; at most it confirms a rollout's failure. */
  lemma BeginEndedStageGoes(env: Env, w: World, s: nat)
    requires Inv(env, w) && w.HasStage(s) && w.ro.stages[s].state.Terminal() && s <= w.ro.cursor
    ensures Goes(env, w, BeginStage(w, s).w)
  {
    hide Balanced, Phased, Sane, Limited, Capped, HonestInbox;
    var st := w.ro.stages[s];
    GoNowhere(env, w);
    if BeforeRollback(w.ro.state) {
      ReadyWhenBehind(w.ro, s);
    } else if CheckPredecessors(w.ro.stages, st, st.predecessors).Refused? {
      if w.ro.state.RollingBack? {
        RefusedAfterSettling(w.ro, s);
      }
      FailRolloutGoes(env, w);
    }
  }

  lemma RefusedAfterSettling(ro: Rollout, s: nat)
    requires Phased(ro) && ro.state.RollingBack? && s < |ro.stages| && s <= ro.cursor
    requires CheckPredecessors(ro.stages, ro.stages[s], ro.stages[s].predecessors).Refused?
    ensures NoneRollingBack(ro)
  {
    var preds := ro.stages[s].predecessors;
    CheckMeans(ro.stages, ro.stages[s], preds);
    var k :| 0 <= k < |preds| &&
      var p := FindStage(ro.stages, preds[k]);
      p < |ro.stages| && ro.stages[p].state.Terminal() && !ro.stages[p].state.StSucceeded?;
    PredecessorIsEarlier(ro.stages, s, k);
    assert ro.stages[FindStage(ro.stages, preds[k])].state.StRolledBack?;
  }

  /** A pending gate is at the cursor or on an ended stage. */
  lemma WhereGatesAre(ro: Rollout, s: nat)
    requires Phased(ro) && s < |ro.stages| && ro.stages[s].pendingGate != 0
    ensures s <= ro.cursor || !(BeforeRollback(ro.state) || ro.state.RollingBack?)
    ensures ro.stages[s].state.Terminal() || (s == ro.cursor && BeforeRollback(ro.state))
    ensures GateIsKnown(ro.stages[s])
    ensures s == ro.cursor && BeforeRollback(ro.state) && !ro.stages[s].pendingGateKind.EntryGate? ==>
              Settled(ro.stages[s])
  {
    assert BeforeRollback(ro.state) && s < ro.cursor ==> Behind(ro.stages[s]);
    assert BeforeRollback(ro.state) && s > ro.cursor ==> Ahead(ro, ro.stages[s]);
    assert BeforeRollback(ro.state) && s == ro.cursor ==> AtCursor(ro.state, ro.stages[s]);
  }

  lemma EndedRolloutGoes(env: Env, w: World, s: nat)
    requires Inv(env, w) && w.HasStage(s) && w.ro.stages[s].state.Terminal() && w.ro.state.Terminal()
    ensures Goes(env, w, BeginStage(w, s).w)
  {
    hide Inv;
    GoNowhere(env, w);
  }

  lemma ClearedGoes(env: Env, w: World, s: nat)
    requires Inv(env, w) && w.HasStage(s)
    ensures Goes(env, w, DoClearGate(w, s))
  {
    GoOne(env, w, ClearGate(s));
    assert Do(env, w, ClearGate(s)) == DoClearGate(w, s);
  }

  lemma ApprovedEntryGoes(env: Env, w: World, s: nat)
    requires Inv(env, w) && w.HasStage(s)
    requires w.ro.stages[s].state.Terminal() || (s == w.ro.cursor && BeforeRollback(w.ro.state))
    requires s <= w.ro.cursor || w.ro.state.Terminal()
    ensures Goes(env, w, BeginStage(w, s).w)
  {
    if s == w.ro.cursor && BeforeRollback(w.ro.state) {
      BeginStageGoes(env, w, s);
    } else if w.ro.state.Terminal() {
      EndedRolloutGoes(env, w, s);
    } else {
      BeginEndedStageGoes(env, w, s);
    }
  }

  lemma ApproveGateGoes(env: Env, w: World, gate: nat, f: Fence, now: int)
    requires Inv(env, w)
    ensures Goes(env, w, ApproveGate(w, gate, f, now).w)
  {
    var s := FindGate(w.ro.stages, gate);
    if !Fenced(w.ro, f) || !w.HasStage(s) {
      GoNowhere(env, w);
    } else {
      var open := DoClearGate(w, s);
      WhereGatesAre(w.ro, s);
      ClearedGoes(env, w, s);
      if w.ro.stages[s].pendingGateKind.EntryGate? {
        ApprovedEntryGoes(env, open, s);
        GoThen(env, w, open, BeginStage(open, s).w);
      } else {
        CompleteCases(env, open, s);
        GoThen(env, w, open, CompleteStage(open, s, now, true).w);
      }
    }
  }

  // ----- retire and regenerate -----

  lemma RetireGoes(env: Env, w: World, f: Fence)
    requires Inv(env, w)
    ensures Goes(env, w, Retire(w, f).w)
  {
    GoNowhere(env, w);
    if w.ro.state.Failed? || w.ro.state.Completed? {
      TransitionGoes(env, w, Retired);
    }
  }

  lemma RegenerateGoes(env: Env, w: World, f: Fence, renewed: seq<Stage>, fits: nat -> bool)
    requires Inv(env, w) && Planned(Materialised(renewed, fits))
    ensures Goes(env, w, Regenerate(w, f, renewed, fits).w)
  {
    hide Inv;
    GoNowhere(env, w);
    if w.ro.state.Failed? || w.ro.state.Completed? {
      var stages := Materialised(renewed, fits);
      GoOne(env, w, Renew(stages, |stages| == |renewed|));
      assert Do(env, w, Renew(stages, |stages| == |renewed|)) == DoRenew(w, stages, |stages| == |renewed|);
    }
  }
}
