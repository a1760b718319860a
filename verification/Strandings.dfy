/** Commands that strand a rollout: no command, report, tick or restart ever gets it any further. */
module Strandings {
  import opened Lifecycle
  import opened Rollouts
  import opened Dispatch
  import opened Machine
  import opened Books
  import opened Steps
  import opened Shape
  import opened Invariance
  import opened History
  import opened Evidence
  import opened Operations
  import opened Commands
  import opened Reachable
  import opened Recovery
  import opened Restart
  import opened Endurance
  import opened Guarantees
  import opened Turns
  import Accounting

  // ----- an abort that is not answered -----

  /** The stage at work has an attempt in flight whose cancel request the executor does not answer. */
  ghost predicate Unanswered(w: World, stops: nat -> bool) {
    && w.cfg.hasExecution && w.HasStage(w.ro.cursor)
    && var st := w.ro.stages[w.ro.cursor];
       && !st.state.StPending? && !st.state.Terminal()
       && exists t :: 0 <= t < |st.targets| && Deaf(w, st.targets[t], stops)
  }

  predicate Deaf(w: World, x: Target, stops: nat -> bool) {
    x.currentAttempt != 0 && Busy(w.at, x) && !stops(x.currentAttempt)
  }

  lemma {:induction false} CancelOkIff(w: World, s: nat, i: nat, stops: nat -> bool)
    requires w.HasStage(s) && i <= |w.ro.stages[s].targets|
    ensures CancelInFlight(w, s, i, stops).ok <==>
            !w.cfg.hasExecution ||
            forall t :: i <= t < |w.ro.stages[s].targets| ==> !Deaf(w, w.ro.stages[s].targets[t], stops)
    decreases |w.ro.stages[s].targets| - i
  {
    if i < |w.ro.stages[s].targets| {
      var id := w.ro.stages[s].targets[i].currentAttempt;
      if id == 0 || id !in w.at || w.at[id].Finished() {
        CancelOkIff(w, s, i + 1, stops);
      } else {
        var w1 := w.(at := w.at[id := w.at[id].(cancelledEpoch := w.at[id].epoch)]);
        assert forall x :: Deaf(w1, x, stops) <==> Deaf(w, x, stops);
        assert Deaf(w, w.ro.stages[s].targets[i], stops) <==> !stops(id);
        CancelOkIff(w1, s, i + 1, stops);
      }
    }
  }

  /** Where every stage stands when an abort begins. */
  ghost predicate Abortable(ro: Rollout) {
    forall i :: 0 <= i < |ro.stages| ==>
      var state := ro.stages[i].state;
      if i < ro.cursor then state.StSucceeded?
      else if i > ro.cursor then state.StPending?
      else state.StPending? || state.Terminal() || (LegalStage(state, StAborted) && !state.StBlocked?)
  }

  lemma {:induction false} LaterStagesSkip(w: World, s: nat, stops: nat -> bool)
    requires s <= |w.ro.stages| && forall i :: s <= i < |w.ro.stages| ==> w.ro.stages[i].state.StPending?
    ensures AbortStages(w, s, stops).ok && AbortStages(w, s, stops).w.ro.state == w.ro.state
    decreases |w.ro.stages| - s
  {
    if s < |w.ro.stages| {
      var skipped := StageTransition(w, s, StSkipped).w;
      assert AbortStage(w, s, stops) == Result(skipped, true);
      hide AbortStage;
      LaterStagesSkip(skipped, s + 1, stops);
    }
  }

  /** The walk over the stages stops exactly at an unanswered request, with every stage as it was. */
  lemma {:induction false} AbortWalk(w: World, s: nat, stops: nat -> bool)
    requires s <= |w.ro.stages| && s <= w.ro.cursor && Abortable(w.ro)
    ensures var r := AbortStages(w, s, stops);
            && (r.ok <==> !Unanswered(w, stops)) && r.w.ro.state == w.ro.state
            && (!r.ok ==> r.w.ro == w.ro)
    decreases |w.ro.stages| - s
  {
    if s < |w.ro.stages| {
      if s < w.ro.cursor {
        assert AbortStage(w, s, stops) == Result(w, true);
        AbortWalk(w, s + 1, stops);
      } else {
        CursorIsAborted(w, stops);
        hide AbortStage;
        var r := AbortStage(w, s, stops);
        if r.ok { LaterStagesSkip(r.w, s + 1, stops); }
      }
    }
  }

  lemma CursorIsAborted(w: World, stops: nat -> bool)
    requires w.HasStage(w.ro.cursor) && Abortable(w.ro)
    ensures var r := AbortStage(w, w.ro.cursor, stops);
            && (r.ok <==> !Unanswered(w, stops)) && r.w.ro.state == w.ro.state
            && (if r.ok then forall i :: w.ro.cursor < i < |w.ro.stages| ==> r.w.ro.stages[i] == w.ro.stages[i]
                else r.w.ro == w.ro)
  {
    CancelOkIff(w, w.ro.cursor, 0, stops);
    CancelKeepsStages(w, w.ro.cursor, 0, stops);
    hide CancelInFlight;
  }

  /** Aborting with the stage at the cursor still open, and no gate there but that of its entry. */
  ghost predicate Deserted(ro: Rollout) {
    && ro.state.Aborting? && ro.cursor < |ro.stages|
    && var st := ro.stages[ro.cursor];
       && !st.state.StPending? && !st.state.Terminal() && (st.pendingGate == 0 || st.pendingGateKind.EntryGate?)
  }

  lemma ForwardIsAbortable(ro: Rollout)
    requires Phased(ro) && ro.state.Forward()
    ensures Abortable(ro)
  {
    forall i | 0 <= i < |ro.stages|
      ensures i < ro.cursor ==> ro.stages[i].state.StSucceeded?
      ensures i > ro.cursor ==> ro.stages[i].state.StPending?
      ensures i == ro.cursor ==> AtCursor(ro.state, ro.stages[i])
    {
      assert i < ro.cursor ==> Behind(ro.stages[i]);
      assert i > ro.cursor ==> Ahead(ro, ro.stages[i]);
    }
  }

  lemma AbortingEnds(w: World)
    requires w.ro.state.Aborting?
    ensures BeginRollback(w).ok && BeginRollback(w).w.ro.state.RollingBack?
    ensures FailRollout(w).ok && FailRollout(w).w.ro.state.Failed?
  {
    hide MarkStage;
  }

  lemma AbortIs(w: World, f: Fence, stops: nat -> bool)
    requires Fenced(w.ro, f) && LegalRollout(w.ro.state, Aborting)
    ensures var a := AbortStages(PutState(w, Aborting), 0, stops);
            Abort(w, f, stops) ==
            if !a.ok then a else if HasCompensation(w.ro.stages) then BeginRollback(a.w) else FailRollout(a.w)
  {
    hide AbortStages, HasCompensation, BeginRollback, FailRollout;
  }

  lemma AbortEnds(w: World, f: Fence, stops: nat -> bool)
    requires Fenced(w.ro, f) && LegalRollout(w.ro.state, Aborting) && Abortable(w.ro)
    ensures var r := Abort(w, f, stops);
            && (r.ok <==> !Unanswered(w, stops)) && (r.w.ro.state.Aborting? <==> Unanswered(w, stops))
            && (Unanswered(w, stops) ==> r.w.ro == PutState(w, Aborting).ro)
  {
    var w1 := PutState(w, Aborting);
    assert Abortable(w1.ro);
    AbortWalk(w1, 0, stops);
    assert Unanswered(w1, stops) <==> Unanswered(w, stops);
    AbortingEnds(AbortStages(w1, 0, stops).w);
    AbortIs(w, f, stops);
    hide Abort, Abortable, AbortStages, HasCompensation, BeginRollback, FailRollout, Unanswered;
  }

  /**
   * An abort that the rollout's state allows leaves it aborting if and only if a cancel request for an attempt in
   * flight is not answered; then the stage at work stays as it was.
   */
  lemma AbortStrandsIff(env: Env, w: World, f: Fence, stops: nat -> bool)
    requires Enduring(env, w) && Fenced(w.ro, f) && LegalRollout(w.ro.state, Aborting)
    ensures var r := Abort(w, f, stops);
            && (r.ok <==> !Unanswered(w, stops))
            && (r.w.ro.state.Aborting? <==> Unanswered(w, stops))
            && (Unanswered(w, stops) ==> Deserted(r.w.ro) && r.w.ro.generation == w.ro.generation)
  {
    hide Enduring;
    EnduringIsSolid(env, w);
    ForwardIsAbortable(w.ro);
    AbortEnds(w, f, stops);
    hide Abortable, Abort;
    if Unanswered(w, stops) { OpenStageIsNotSettled(env, w, stops); }
    hide Solid;
  }

  lemma OpenStageIsNotSettled(env: Env, w: World, stops: nat -> bool)
    requires Inv(env, w) && w.ro.state.Forward() && Unanswered(w, stops)
    ensures w.ro.stages[w.ro.cursor].pendingGate == 0 || w.ro.stages[w.ro.cursor].pendingGateKind.EntryGate?
  {
    var st := w.ro.stages[w.ro.cursor];
    assert AtCursor(w.ro.state, st);
    var t :| 0 <= t < |st.targets| && Deaf(w, st.targets[t], stops);
    Accounting.BusyIsChanging(w, w.ro.cursor, t);
  }

  lemma StaysDeserted(ro: Rollout, ro': Rollout)
    requires Deserted(ro) && Stays(ro, ro')
    ensures Deserted(ro')
  {
    assert StaysStage(ro.stages[ro.cursor], ro'.stages[ro.cursor]);
  }

  lemma ClearedDeserted(ro: Rollout, s: nat)
    requires Deserted(ro) && s < |ro.stages|
    ensures Deserted(ro.(stages := ro.stages[s := ro.stages[s].(pendingGate := 0)]))
  {
  }

  /** Its entry gate may still be approved, but the rollout cannot run again. */
  lemma EntryDeserted(w: World, s: nat)
    requires Deserted(w.ro) && w.HasStage(s) && (s == w.ro.cursor || w.ro.stages[s].state.StSucceeded?)
    requires w.ro.stages[s].pendingGate == 0
    requires CheckPredecessors(w.ro.stages, w.ro.stages[s], w.ro.stages[s].predecessors).Ready?
    ensures Deserted(BeginStage(w, s).w.ro) && BeginStage(w, s).w.ro.generation == w.ro.generation
  {
  }

  lemma GatesDeserted(w: World, s: nat)
    requires Deserted(w.ro) && w.HasStage(s) && w.ro.stages[s].state.StSucceeded?
    ensures PassGates(w, s).w == w
  {
  }

  lemma ApproveDeserted(env: Env, w: World, gate: nat, f: Fence, now: int)
    requires Enduring(env, w) && Deserted(w.ro)
    ensures var ro' := ApproveGate(w, gate, f, now).w.ro; Deserted(ro') && ro'.generation == w.ro.generation
  {
    hide Enduring;
    EnduringIsSolid(env, w);
    var s := FindGate(w.ro.stages, gate);
    if Fenced(w.ro, f) && s < |w.ro.stages| {
      WhereGatesAre(w.ro, s);
      BehindOrCursor(w.ro, s);
      hide Solid;
      var open := PutStage(w, s, w.ro.stages[s].(pendingGate := 0));
      ClearedDeserted(w.ro, s);
      ClearedReady(w.ro, s);
      if w.ro.stages[s].pendingGateKind.EntryGate? {
        EntryDeserted(open, s);
        hide BeginStage;
      } else {
        GatesDeserted(open, s);
        hide PassGates;
      }
    }
    hide Deserted, FindGate;
  }

  lemma BehindOrCursor(ro: Rollout, s: nat)
    requires Phased(ro) && BeforeRollback(ro.state) && s < |ro.stages| && s <= ro.cursor
    ensures s == ro.cursor || ro.stages[s].state.StSucceeded?
  {
    assert s < ro.cursor ==> Behind(ro.stages[s]);
  }

  lemma ClearedReady(ro: Rollout, s: nat)
    requires Phased(ro) && BeforeRollback(ro.state) && s < |ro.stages| && s <= ro.cursor
    ensures var stages := ro.stages[s := ro.stages[s].(pendingGate := 0)];
            CheckPredecessors(stages, stages[s], stages[s].predecessors).Ready?
  {
    ReadyWhenBehind(ro, s);
    SameCheck(ro.stages, s, ro.stages[s].predecessors);
  }

  lemma {:induction false} SameFind(stages: seq<Stage>, stages': seq<Stage>, id: nat)
    requires |stages'| == |stages| && forall i :: 0 <= i < |stages| ==> stages'[i].id == stages[i].id
    ensures FindStage(stages', id) == FindStage(stages, id)
  {
    if stages != [] {
      assert forall i :: 0 <= i < |stages| - 1 ==> stages'[1..][i].id == stages[1..][i].id;
      SameFind(stages[1..], stages'[1..], id);
    }
  }

  lemma {:induction false} SameCheck(stages: seq<Stage>, s: nat, predecessors: seq<nat>)
    requires s < |stages|
    ensures var stages' := stages[s := stages[s].(pendingGate := 0)];
            CheckPredecessors(stages', stages'[s], predecessors) == CheckPredecessors(stages, stages[s], predecessors)
  {
    if predecessors != [] {
      SameFind(stages, stages[s := stages[s].(pendingGate := 0)], predecessors[0]);
      SameCheck(stages, s, predecessors[1..]);
    }
  }

  /** Once deserted, whatever happens, restarts included, the rollout stays aborting in its generation. */
  lemma {:induction false} DesertedForever(env: Env, w: World, turns: seq<Turn>, w': World)
    requires Enduring(env, w) && Deserted(w.ro) && Passes(env, w, turns, w')
    ensures Deserted(w'.ro) && w'.ro.generation == w.ro.generation
    decreases |turns|
  {
    if turns != [] {
      TurnEndures(env, w, turns[0]);
      DesertedTurn(env, w, turns[0]);
      hide Enduring, Deserted, Turned, Permitted;
      DesertedForever(env, Turned(w, turns[0]), turns[1..], w');
    }
  }

  lemma DesertedTurn(env: Env, w: World, turn: Turn)
    requires Enduring(env, w) && Deserted(w.ro) && Permitted(env, w, turn)
    ensures Deserted(Turned(w, turn).ro) && Turned(w, turn).ro.generation == w.ro.generation
  {
    hide Enduring, Step, Restored, Blank, Allowed, ApproveGate;
    match turn
    case Occurs(ev) =>
      if ev.OnApprove? {
        ApproveDeserted(env, w, ev.gate, ev.f, ev.now);
        ApprovalIs(w, ev);
      } else {
        RefusedStays(env, w, ev);
        StaysDeserted(w.ro, Step(w, ev).ro);
      }
    case Restarts(b, previous) =>
      RestartStays(env, w, b, previous);
      StaysDeserted(w.ro, Restored(b, w, previous).ro);
  }

  lemma ApprovalIs(w: World, ev: Event)
    requires ev.OnApprove?
    ensures Step(w, ev) == ApproveGate(w, ev.gate, ev.f, ev.now).w
  {
    hide ApproveGate;
  }

  // ----- an arm that is refused for its cohorts -----

  /** Some cohort can never be frozen again, or never at all. */
  predicate Unarmable(ro: Rollout) {
    exists i :: 0 <= i < |ro.stages| && !Freezable(ro.stages[i])
  }

  /** Validated, with no stage begun, as a rollout is created and regenerated. */
  ghost predicate Unbegun(ro: Rollout) { ro.state.Validated? && NoneBegun(ro) }

  lemma PlannedIsUnbegun(ro: Rollout)
    requires Planned(ro.stages) && ro.cursor == 0 && ro.state.Validated?
    ensures Unbegun(ro)
  {
  }

  predicate Freezable(st: Stage) { !st.frozen && st.targets != [] }

  lemma {:induction false} FreezeOkIff(w: World, s: nat)
    requires s <= |w.ro.stages|
    ensures var r := FreezeCohorts(w, s);
            && (r.ok <==> forall i :: s <= i < |w.ro.stages| ==> Freezable(w.ro.stages[i]))
            && |r.w.ro.stages| == |w.ro.stages| && r.w.ro == w.ro.(stages := r.w.ro.stages)
            && forall i :: 0 <= i < |w.ro.stages| ==>
                 r.w.ro.stages[i] == w.ro.stages[i].(frozen := r.w.ro.stages[i].frozen)
                 && (w.ro.stages[i].frozen ==> r.w.ro.stages[i].frozen)
    decreases |w.ro.stages| - s
  {
    if s < |w.ro.stages| && Freezable(w.ro.stages[s]) {
      var w1 := PutStage(w, s, w.ro.stages[s].(frozen := true));
      FreezeOkIff(w1, s + 1);
      assert forall i :: s < i < |w.ro.stages| ==> w1.ro.stages[i] == w.ro.stages[i];
    }
  }

  lemma ArmUnbegun(w: World, f: Fence)
    requires Unbegun(w.ro)
    ensures var r := Arm(w, f);
            && (r.ok <==> Fenced(w.ro, f) && !Unarmable(w.ro))
            && (!r.ok ==> Unbegun(r.w.ro) && r.w.ro.generation == w.ro.generation)
            && (Unarmable(w.ro) ==> Unarmable(r.w.ro))
  {
    FreezeOkIff(w, 0);
    var w' := FreezeCohorts(w, 0).w;
    hide FreezeCohorts;
    forall i | 0 <= i < |w.ro.stages| ensures NotBegun(w'.ro.stages[i]) {
      assert NotBegun(w.ro.stages[i]);
    }
  }

  lemma LooksUnbegun(ro: Rollout, ro': Rollout)
    requires Unbegun(ro) && Looks(ro, ro')
    ensures Unbegun(ro')
  {
    forall i | 0 <= i < |ro.stages| ensures NotBegun(ro'.stages[i]) {
      assert LooksStage(ro.stages[i], ro'.stages[i]) && NotBegun(ro.stages[i]);
      LooksSettled(ro.stages[i], ro'.stages[i]);
    }
  }

  lemma NothingInFlight(env: Env, w: World, id: nat)
    requires Inv(env, w) && Unbegun(w.ro)
    ensures id !in LiveSet(w)
  {
    if id in LiveSet(w) {
      var s, t := LiveIsHoused(w, id);
      Accounting.LiveOnIsCurrent(w, id, s, t);
    }
  }

  lemma IngestUnbegun(env: Env, w: World, rec: Record, now: int)
    requires Inv(env, w) && Unbegun(w.ro) && Honest(env, w, rec)
    ensures Unbegun(Ingest(w, rec, now).ro)
  {
    if ClassOf(rec.kind).Telemetry? {
      TelemetryUnbegun(w, rec, now);
      hide ApplyTelemetry;
    } else if Admit(w, rec, now).Accepted? {
      var s := FindStage(w.ro.stages, rec.stage);
      AdmittedIsLive(env, w, rec, now, s, FindTarget(w.ro.stages[s].targets, rec.target));
      NothingInFlight(env, w, rec.attempt);
    }
  }

  lemma TelemetryUnbegun(w: World, rec: Record, now: int)
    requires Unbegun(w.ro)
    ensures Unbegun(ApplyTelemetry(w, rec, now).ro)
  {
    forall i | 0 <= i < |w.ro.stages| ensures NotBegun(HealthIn(w.ro.stages[i], rec)) {
      HealthNotBegun(w.ro.stages[i], rec);
    }
    hide HealthIn;
  }

  lemma HealthNotBegun(st: Stage, rec: Record)
    requires NotBegun(st)
    ensures NotBegun(HealthIn(st, rec))
  {
  }

  lemma {:induction false} DrainUnbegun(env: Env, w: World, batch: seq<Record>, now: int)
    requires Inv(env, w) && Unbegun(w.ro) && forall k :: 0 <= k < |batch| ==> Honest(env, w, batch[k])
    ensures Unbegun(Drain(w, batch, now).ro)
    decreases |batch|
  {
    hide Inv, Honest, Unbegun, Ingest;
    if batch != [] {
      var w1 := Ingest(w, batch[0], now);
      IngestUnbegun(env, w, batch[0], now);
      IngestGoes(env, w, batch[0], now);
      forall k | 0 <= k < |batch[1..]| ensures Honest(env, w1, batch[1..][k]) {
        GoHonest(env, w, w1, batch[k + 1]);
      }
      LeadsKeepsInv(env, w, w1);
      DrainUnbegun(env, w1, batch[1..], now);
    }
  }

  lemma TickUnbegun(env: Env, w: World, now: int, accept: nat -> bool)
    requires Inv(env, w) && Unbegun(w.ro)
    ensures Unbegun(Tick(w, now, accept).ro)
  {
    var empty := w.(inbox := []);
    if !w.halted {
      GoTune(env, w, empty);
      forall k | 0 <= k < |w.inbox| ensures Honest(env, empty, w.inbox[k]) {
        GoHonest(env, w, empty, w.inbox[k]);
      }
      hide Inv, Honest;
      DrainUnbegun(env, empty, w.inbox, now);
      hide Drain;
    }
  }

  lemma StaysUnarmable(ro: Rollout, ro': Rollout)
    requires Unarmable(ro) && Stays(ro, ro')
    ensures Unarmable(ro')
  {
    var i :| 0 <= i < |ro.stages| && !Freezable(ro.stages[i]);
    assert StaysStage(ro.stages[i], ro'.stages[i]);
  }

  lemma NothingToReconcile(env: Env, w: World, answers: seq<Answer>, now: int)
    requires Inv(env, w) && Unbegun(w.ro) && AnswersOk(env, w, answers, now)
    ensures Reconcile(w, answers, now) == w
  {
    hide Unbegun, Inv;
    if answers != [] {
      assert AnswerOk(env, w, answers[0], now);
      NothingInFlight(env, w, answers[0].attempt);
    }
  }

  /** Arming aside, no command does anything to a rollout that has not begun. */
  lemma OthersUnbegun(env: Env, w: World, ev: Event)
    requires Inv(env, w) && Unbegun(w.ro) && Allowed(env, w, ev) && !ev.OnArm? && !ev.OnTick?
    ensures Step(w, ev).ro == w.ro
  {
    match ev
    case OnReconcile(answers, now) => NothingToReconcile(env, w, answers, now);
    case OnApprove(gate, f, now) => assert forall i :: 0 <= i < |w.ro.stages| ==> NotBegun(w.ro.stages[i]);
    case _ =>
  }

  lemma EventUnbegun(env: Env, w: World, ev: Event)
    requires Inv(env, w) && Unbegun(w.ro) && Unarmable(w.ro) && Allowed(env, w, ev)
    ensures var ro' := Step(w, ev).ro; Unbegun(ro') && Unarmable(ro') && ro'.generation == w.ro.generation
  {
    hide Inv, Allowed, Unarmable;
    match ev
    case OnTick(now, accept) =>
      TickUnbegun(env, w, now, accept);
      IdleTickStays(w, now, accept);
      hide Tick;
      StaysUnarmable(w.ro, Tick(w, now, accept).ro);
      hide Stays;
    case OnArm(f) => ArmUnbegun(w, f); hide Arm;
    case _ => OthersUnbegun(env, w, ev); hide Step;
  }

  lemma UnbegunTurn(env: Env, w: World, turn: Turn)
    requires Enduring(env, w) && Unbegun(w.ro) && Unarmable(w.ro) && Permitted(env, w, turn)
    ensures var ro' := Turned(w, turn).ro; Unbegun(ro') && Unarmable(ro') && ro'.generation == w.ro.generation
  {
    EnduringIsSolid(env, w);
    hide Enduring, Balanced, Shaped, HonestInbox, Sole, Actionable, Step, Restored, Blank, Allowed, Unbegun, Unarmable;
    match turn
    case Occurs(ev) => EventUnbegun(env, w, ev);
    case Restarts(b, previous) =>
      RestoredLooks(w, b, previous);
      LooksUnbegun(w.ro, Restored(b, w, previous).ro);
      RestartStays(env, w, b, previous);
      StaysUnarmable(w.ro, Restored(b, w, previous).ro);
  }

  lemma {:induction false} UnbegunForever(env: Env, w: World, turns: seq<Turn>, w': World)
    requires Enduring(env, w) && Unbegun(w.ro) && Unarmable(w.ro) && Passes(env, w, turns, w')
    ensures Unbegun(w'.ro) && w'.ro.generation == w.ro.generation
    decreases |turns|
  {
    hide Enduring, Unbegun, Unarmable, Turned, Permitted;
    if turns != [] {
      TurnEndures(env, w, turns[0]);
      UnbegunTurn(env, w, turns[0]);
      UnbegunForever(env, Turned(w, turns[0]), turns[1..], w');
    }
  }

  /**
   * A rollout that has not begun can be armed if and only if no cohort of it is empty or frozen already, as an arm
   * refused for a later empty cohort leaves the earlier ones; otherwise no turn of events ever gets it anywhere.
   */
  lemma ArmedIff(env: Env, w: World, f: Fence)
    requires Enduring(env, w) && Unbegun(w.ro) && Fenced(w.ro, f)
    ensures Arm(w, f).ok <==> !Unarmable(w.ro)
    ensures !Arm(w, f).ok ==>
              forall turns, w' :: Passes(env, Arm(w, f).w, turns, w') ==>
                w'.ro.state.Validated? && w'.ro.generation == w.ro.generation
  {
    ArmUnbegun(w, f);
    var w1 := Arm(w, f).w;
    ArmIsTurn(env, w, f);
    hide Enduring, Arm, Unarmable, Passes;
    forall turns, w' | Unarmable(w.ro) && Passes(env, w1, turns, w')
      ensures w'.ro.state.Validated? && w'.ro.generation == w.ro.generation
    {
      UnbegunForever(env, w1, turns, w');
    }
  }

  lemma ArmIsTurn(env: Env, w: World, f: Fence)
    requires Enduring(env, w)
    ensures Enduring(env, Arm(w, f).w)
  {
    hide Enduring, Arm;
    TurnEndures(env, w, Occurs(OnArm(f)));
  }
}
