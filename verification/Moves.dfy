/** What one step makes of each target, and what runs of steps therefore conserve. */
module Moves {
  import opened Lifecycle
  import opened Rollouts
  import opened Dispatch
  import opened Machine
  import opened Books
  import opened Steps
  import opened Shape
  import opened Invariance
  import opened History
  import Accounting

  predicate Lawful(x: Target, x': Target) { x'.state == x.state || LegalTarget(x.state, x'.state) }

  /** One step on one target: legal, one epoch per accepted attempt, and pending work waits for the rollout. */
  ghost predicate Moved(env: Env, state: RolloutState, begins: bool, x: Target, x': Target) {
    && (env.confined ==> Lawful(x, x'))
    && (env.confined && !begins ==> (Compensating(x') <==> Compensating(x)))
    && (x.state.Pending? && !state.AdmitsDispatch() ==>
          x'.state.Pending? && x'.attemptsCreated == x.attemptsCreated)
    && x'.attemptsCreated >= x.attemptsCreated
    && x'.epoch - x.epoch == x'.attemptsCreated - x.attemptsCreated
  }

  ghost predicate AllMoved(env: Env, w: World, w': World, begins: bool) {
    && SameIds(w.ro, w'.ro)
    && (forall i, j :: 0 <= i < |w.ro.stages| && 0 <= j < |w.ro.stages[i].targets| ==>
          Moved(env, w.ro.state, begins, w.ro.stages[i].targets[j], w'.ro.stages[i].targets[j]))
  }

  lemma OneMoved(env: Env, w: World, w': World, s: nat, t: nat)
    requires Touches(w, w', s, t)
    requires Moved(env, w.ro.state, false, w.ro.stages[s].targets[t], w'.ro.stages[s].targets[t])
    ensures AllMoved(env, w, w', false)
  {
  }

  lemma VerdictMoves(env: Env, state: RolloutState, st: Stage, x: Target, a: Attempt, cause: Cause)
    requires IsChanging(x)
    requires cause.ByReport? ==> !x.state.TRollingBack?
    requires cause.ByDeadline? ==> x.state.Dispatched?
    requires cause.ByCompensation? && env.confined ==> x.state.TRollingBack?
    ensures Moved(env, state, false, x, VerdictFor(st, x, a, cause).x)
  {
  }

  lemma FinishMoves(env: Env, w: World, s: nat, t: nat, id: nat, cause: Cause)
    requires Balanced(w) && CanFinish(env, w, s, t, id, cause)
    ensures AllMoved(env, w, DoFinish(w, s, t, id, cause), false)
  {
    var st, x := w.ro.stages[s], w.ro.stages[s].targets[t];
    var v := VerdictFor(st, x, w.at[id], cause);
    Accounting.LiveOnIsCurrent(w, id, s, t);
    Accounting.VerdictIsSound(st, x, id, w.at[id], cause);
    VerdictMoves(env, w.ro.state, st, x, w.at[id], cause);
    var w' := DoFinish(w, s, t, id, cause);
    Accounting.PutTouches(w, w', s, t, w'.ro.stages[s], v.x);
    OneMoved(env, w, w', s, t);
  }

  lemma LoseMoves(env: Env, w: World, s: nat, t: nat, id: nat)
    requires Balanced(w) && LiveOn(w, id, s, t)
    ensures AllMoved(env, w, DoLose(w, s, t, id), false)
  {
    var w' := DoLose(w, s, t, id);
    Accounting.LiveOnIsCurrent(w, id, s, t);
    Accounting.PutTouches(w, w', s, t, w'.ro.stages[s], w'.ro.stages[s].targets[t]);
    OneMoved(env, w, w', s, t);
  }

  lemma SendMoves(env: Env, w: World, s: nat, t: nat, step: nat, now: int)
    requires CanSend(w, s, t, step)
    ensures AllMoved(env, w, DoSend(w, s, t, step, now), false)
  {
    var w' := DoSend(w, s, t, step, now);
    Accounting.PutTouches(w, w', s, t, w'.ro.stages[s], w'.ro.stages[s].targets[t]);
    OneMoved(env, w, w', s, t);
  }

  lemma RefuseMoves(env: Env, w: World, s: nat, t: nat, now: int)
    requires w.HasTarget(s, t)
    ensures AllMoved(env, w, DoRefuse(w, s, t, now), false)
  {
    var w' := DoRefuse(w, s, t, now);
    Accounting.PutTouches(w, w', s, t, w'.ro.stages[s], w'.ro.stages[s].targets[t]);
    OneMoved(env, w, w', s, t);
  }

  lemma GiveUpMoves(env: Env, w: World, s: nat, t: nat)
    requires CanGiveUp(w, s, t)
    ensures AllMoved(env, w, DoGiveUp(w, s, t), false)
  {
    var w' := DoGiveUp(w, s, t);
    Accounting.PutTouches(w, w', s, t, w'.ro.stages[s], w'.ro.stages[s].targets[t]);
    OneMoved(env, w, w', s, t);
  }

  lemma BeginMoves(env: Env, w: World)
    requires Sane(w.ro)
    ensures AllMoved(env, w, DoBegin(w), true)
  {
    var w' := DoBegin(w);
    forall i, j | 0 <= i < |w.ro.stages| && 0 <= j < |w.ro.stages[i].targets|
      ensures |w'.ro.stages[i].targets| == |w.ro.stages[i].targets|
      ensures w'.ro.stages[i].targets[j].id == w.ro.stages[i].targets[j].id
      ensures Moved(env, w.ro.state, true, w.ro.stages[i].targets[j], w'.ro.stages[i].targets[j])
    {
      assert w'.ro.stages[i] == MarkStage(w.ro.stages[i]);
    }
  }

  lemma SameTargetsMove(env: Env, w: World, w': World)
    requires Accounting.SameTargets(w, w')
    ensures AllMoved(env, w, w', false)
  {
  }

  lemma QuietMoves(env: Env, w: World, act: Act)
    requires Enabled(env, w, act) && (act.See? || act.Request? || act.Others? || Accounting.IsScalar(act))
    ensures AllMoved(env, w, Do(env, w, act), false)
  {
    hide AllMoved;
    if Accounting.IsScalar(act) {
      Accounting.ScalarIsSameTargets(env, w, act);
    }
    SameTargetsMove(env, w, Do(env, w, act));
  }

  lemma ObserveMoves(env: Env, w: World, stages: seq<Stage>)
    requires CanObserve(w, stages)
    ensures AllMoved(env, w, DoObserve(w, stages), false)
  {
  }

  /** Every net change of a target by a step is in the legal table, although failed to pending is written directly. */
  lemma StepMoves(env: Env, w: World, act: Act)
    requires Inv(env, w) && Enabled(env, w, act) && !act.Renew?
    ensures AllMoved(env, w, Do(env, w, act), act.Begin?)
  {
    hide Balanced, AllMoved;
    match act
    case Finish(s, t, id, cause) => FinishMoves(env, w, s, t, id, cause);
    case Lose(s, t, id) => LoseMoves(env, w, s, t, id);
    case Send(s, t, step, now) => SendMoves(env, w, s, t, step, now);
    case Refuse(s, t, now) => RefuseMoves(env, w, s, t, now);
    case GiveUp(s, t) => GiveUpMoves(env, w, s, t);
    case Begin => BeginMoves(env, w);
    case Observe(stages) => ObserveMoves(env, w, stages);
    case _ => QuietMoves(env, w, act);
  }

  // ----- generations -----

  lemma GenerationOf(env: Env, w: World, act: Act)
    requires Enabled(env, w, act) && w.ro.generation < w.nextId
    ensures act.Renew? ==> Do(env, w, act).ro.generation == w.nextId
    ensures !act.Renew? ==> Do(env, w, act).ro.generation == w.ro.generation
  {
  }

  /** A generation that was left never comes back. */
  lemma {:induction false} GenerationGrows(env: Env, w: World, acts: seq<Act>, w': World)
    requires Inv(env, w) && Runs(env, w, acts, w')
    ensures w'.ro.generation >= w.ro.generation
    ensures acts != [] && w'.ro.generation == w.ro.generation ==>
              !acts[0].Renew? && Do(env, w, acts[0]).ro.generation == w.ro.generation
    decreases |acts|
  {
    if acts != [] {
      StepKeepsInv(env, w, acts[0]);
      GenerationOf(env, w, acts[0]);
      GenerationGrows(env, Do(env, w, acts[0]), acts[1..], w');
    }
  }

  // ----- once the forward part of the lifecycle is over -----

  lemma PhaseOnlyEnds(env: Env, w: World, act: Act)
    requires Inv(env, w) && Enabled(env, w, act) && !act.Renew?
    ensures !w.ro.state.Forward() ==> !Do(env, w, act).ro.state.Forward()
    ensures !BeforeRollback(w.ro.state) ==> !BeforeRollback(Do(env, w, act).ro.state) && !act.Begin?
  {
  }

  ghost predicate Waiting(ro: Rollout, s: nat, t: nat) {
    s < |ro.stages| && t < |ro.stages[s].targets| && ro.stages[s].targets[t].state.Pending?
  }

  /**
   * After an abort, a stage failure or the end of the rollout, whatever happens next in this generation,
   * a pending target stays pending and no attempt is ever made for it.
   */
  lemma {:induction false} NothingNewAfterwards(env: Env, w: World, acts: seq<Act>, w': World, s: nat, t: nat)
    requires Inv(env, w) && Runs(env, w, acts, w') && w'.ro.generation == w.ro.generation
    requires !w.ro.state.Forward() && Waiting(w.ro, s, t)
    ensures !w'.ro.state.Forward() && Waiting(w'.ro, s, t)
    ensures w'.ro.stages[s].targets[t].attemptsCreated == w.ro.stages[s].targets[t].attemptsCreated
    decreases |acts|
  {
    if acts != [] {
      var w1 := Do(env, w, acts[0]);
      GenerationGrows(env, w, acts, w');
      StepKeepsInv(env, w, acts[0]);
      PhaseOnlyEnds(env, w, acts[0]);
      StepMoves(env, w, acts[0]);
      assert Moved(env, w.ro.state, acts[0].Begin?, w.ro.stages[s].targets[t], w1.ro.stages[s].targets[t]);
      NothingNewAfterwards(env, w1, acts[1..], w', s, t);
    }
  }

  // ----- compensation is conserved -----

  lemma CountSame(ts: seq<Target>, us: seq<Target>, p: Target -> bool)
    requires |ts| == |us| && forall i :: 0 <= i < |ts| ==> p(ts[i]) == p(us[i])
    ensures Count(ts, p) == Count(us, p)
  {
    CountMono(ts, us, p);
    CountMono(us, ts, p);
  }

  /**
   * Once a rollback has begun, each stage keeps its number of targets that are rolling back, rolled back
   * or failed to roll back, to the end of the generation.
   */
  lemma {:induction false} CompensationIsConserved(env: Env, w: World, acts: seq<Act>, w': World, s: nat)
    requires env.confined && Inv(env, w) && Runs(env, w, acts, w') && w'.ro.generation == w.ro.generation
    requires !BeforeRollback(w.ro.state) && w.HasStage(s)
    ensures w'.HasStage(s)
    ensures Count(w'.ro.stages[s].targets, Compensating) == Count(w.ro.stages[s].targets, Compensating)
    decreases |acts|
  {
    if acts != [] {
      var w1 := Do(env, w, acts[0]);
      GenerationGrows(env, w, acts, w');
      StepKeepsInv(env, w, acts[0]);
      PhaseOnlyEnds(env, w, acts[0]);
      StepMoves(env, w, acts[0]);
      forall j | 0 <= j < |w.ro.stages[s].targets|
        ensures Compensating(w1.ro.stages[s].targets[j]) == Compensating(w.ro.stages[s].targets[j])
      {
        assert Moved(env, w.ro.state, false, w.ro.stages[s].targets[j], w1.ro.stages[s].targets[j]);
      }
      CountSame(w1.ro.stages[s].targets, w.ro.stages[s].targets, Compensating);
      CompensationIsConserved(env, w1, acts[1..], w', s);
    }
  }

  predicate IsSucceeded(x: Target) { x.state.Succeeded? }

  /** The three ways a target can take part in a rollback are counted together. */
  lemma {:induction false} CompensatingSplits(ts: seq<Target>)
    ensures Count(ts, Compensating) ==
            Count(ts, IsRollingBack) + Count(ts, IsRolledBack) + Count(ts, IsRollbackFailed)
  {
    if ts != [] {
      CompensatingSplits(ts[..|ts| - 1]);
    }
  }

  /** No compensation is under way or done before a rollback begins. */
  ghost predicate Uncompensated(ro: Rollout) {
    forall i, j :: 0 <= i < |ro.stages| && 0 <= j < |ro.stages[i].targets| ==>
      !Compensating(ro.stages[i].targets[j])
  }

  lemma {:induction false} MarkingCounts(st: Stage)
    requires forall j :: 0 <= j < |st.targets| ==> !Compensating(st.targets[j]) && !st.targets[j].state.TFailed?
    ensures Count(MarkStage(st).targets, Compensating) ==
            if st.state.StPending? || st.state.StSkipped? || !st.policy.rollbackSupported then 0
            else Count(st.targets, IsSucceeded)
    decreases |st.targets|
  {
    var n := |st.targets|;
    if st.state.StPending? || st.state.StSkipped? || !st.policy.rollbackSupported {
      CountNone(st.targets, Compensating);
    } else if n > 0 {
      var front := st.(targets := st.targets[..n - 1]);
      MarkingCounts(front);
      assert MarkStage(st).targets[..n - 1] == MarkStage(front).targets;
    }
  }

  /** A rollback marks exactly the succeeded targets of the begun stages that support it. */
  lemma RollbackMarksSucceeded(env: Env, w: World, s: nat)
    requires Inv(env, w) && CanBegin(w) && Uncompensated(w.ro) && w.HasStage(s)
    ensures var st := w.ro.stages[s];
            Count(DoBegin(w).ro.stages[s].targets, Compensating) ==
            if st.state.StPending? || st.state.StSkipped? || !st.policy.rollbackSupported then 0
            else Count(st.targets, IsSucceeded)
  {
    var st := w.ro.stages[s];
    forall j | 0 <= j < |st.targets| ensures !Compensating(st.targets[j]) && !st.targets[j].state.TFailed? {
      assert SaneTarget(w.ro.state, st, st.targets[j]);
    }
    MarkingCounts(st);
  }

  /** In a confined environment nothing is compensated before a rollback begins. */
  ghost predicate StillWhole(env: Env, w: World) {
    env.confined && BeforeRollback(w.ro.state) ==> Uncompensated(w.ro)
  }

  lemma StepKeepsWhole(env: Env, w: World, act: Act)
    requires Inv(env, w) && StillWhole(env, w) && Enabled(env, w, act)
    ensures StillWhole(env, Do(env, w, act))
  {
    var w' := Do(env, w, act);
    if env.confined && BeforeRollback(w'.ro.state) {
      forall i, j | 0 <= i < |w'.ro.stages| && 0 <= j < |w'.ro.stages[i].targets|
        ensures !Compensating(w'.ro.stages[i].targets[j])
      {
        WholeTarget(env, w, act, i, j);
      }
    }
  }

  lemma WholeTarget(env: Env, w: World, act: Act, i: nat, j: nat)
    requires Inv(env, w) && StillWhole(env, w) && Enabled(env, w, act) && env.confined
    requires BeforeRollback(Do(env, w, act).ro.state) && Do(env, w, act).HasTarget(i, j)
    ensures !Compensating(Do(env, w, act).ro.stages[i].targets[j])
  {
    if act.Renew? {
      assert UntouchedTarget(act.stages[i].targets[j]);
    } else {
      PhaseOnlyEnds(env, w, act);
      StepMoves(env, w, act);
      assert Moved(env, w.ro.state, act.Begin?, w.ro.stages[i].targets[j], Do(env, w, act).ro.stages[i].targets[j]);
      BeginEnds(env, w, act);
    }
  }

  lemma BeginEnds(env: Env, w: World, act: Act)
    requires Enabled(env, w, act)
    ensures act.Begin? ==> !BeforeRollback(Do(env, w, act).ro.state)
  {
  }

  // ----- epochs -----

  /** The epoch of a target is the number of attempts ever accepted for it. */
  ghost predicate Numbered(ro: Rollout) {
    forall i, j :: 0 <= i < |ro.stages| && 0 <= j < |ro.stages[i].targets| ==>
      ro.stages[i].targets[j].epoch == ro.stages[i].targets[j].attemptsCreated
  }

  lemma StepKeepsNumbered(env: Env, w: World, act: Act)
    requires Inv(env, w) && Numbered(w.ro) && Enabled(env, w, act)
    ensures Numbered(Do(env, w, act).ro)
  {
    var w' := Do(env, w, act);
    if act.Renew? {
      forall i, j | 0 <= i < |w'.ro.stages| && 0 <= j < |w'.ro.stages[i].targets|
        ensures w'.ro.stages[i].targets[j].epoch == w'.ro.stages[i].targets[j].attemptsCreated
      {
        assert UntouchedTarget(act.stages[i].targets[j]);
      }
    } else {
      StepMoves(env, w, act);
      forall i, j | 0 <= i < |w'.ro.stages| && 0 <= j < |w'.ro.stages[i].targets|
        ensures w'.ro.stages[i].targets[j].epoch == w'.ro.stages[i].targets[j].attemptsCreated
      {
        assert Moved(env, w.ro.state, act.Begin?, w.ro.stages[i].targets[j], w'.ro.stages[i].targets[j]);
      }
    }
  }
}
