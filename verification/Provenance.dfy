/** Where success comes from: a succeeded target was reported, under its epoch, by its current attempt. */
module Provenance {
  import opened Lifecycle
  import opened Rollouts
  import opened Dispatch
  import opened Machine
  import opened Books
  import opened Steps
  import opened Shape
  import opened Invariance
  import opened History
  import Accounting

  /** A report that this very target, under this epoch and attempt, completed successfully. */
  predicate Completes(rec: Record, generation: nat, st: Stage, x: Target) {
    && rec.kind.ExecutionCompleted? && rec.outcome.OutSucceeded?
    && rec.generation == generation && rec.stage == st.id && rec.target == x.id
    && rec.attempt == x.currentAttempt && rec.epoch == x.epoch
  }

  ghost predicate Reported(env: Env, generation: nat, st: Stage, x: Target) {
    exists rec :: rec in env.heard && Completes(rec, generation, st, x)
  }

  /** The attempt a target succeeded with, while it is still in the table, succeeded itself. */
  predicate WonBy(w: World, x: Target) {
    x.currentAttempt in w.at ==>
      w.at[x.currentAttempt].generation == w.ro.generation && w.at[x.currentAttempt].state.Succeeded?
  }

  ghost predicate EarnedTarget(env: Env, w: World, st: Stage, x: Target) {
    x.state.Succeeded? ==> Reported(env, w.ro.generation, st, x) && WonBy(w, x)
  }

  ghost predicate Earned(env: Env, w: World) {
    forall i, j :: 0 <= i < |w.ro.stages| && 0 <= j < |w.ro.stages[i].targets| ==>
      EarnedTarget(env, w, w.ro.stages[i], w.ro.stages[i].targets[j])
  }

  // ----- targets a step does not touch -----

  predicate SameSuccess(st: Stage, x: Target, st': Stage, x': Target) {
    && st'.id == st.id && x'.id == x.id
    && (x'.state.Succeeded? ==> x.state.Succeeded? && x'.epoch == x.epoch && x'.currentAttempt == x.currentAttempt)
  }

  /** Attempts that succeeded are as they were. */
  ghost predicate WinnersKept(w: World, w': World) {
    && w'.ro.generation == w.ro.generation
    && (forall id :: id in w'.at && id < w.nextId ==>
          id in w.at &&
          (w.at[id].generation == w.ro.generation && w.at[id].state.Succeeded? ==> w'.at[id] == w.at[id]))
  }

  lemma EarnedKept(env: Env, w: World, w': World, st: Stage, x: Target, st': Stage, x': Target)
    requires EarnedTarget(env, w, st, x) && WinnersKept(w, w') && SameSuccess(st, x, st', x')
    requires x.currentAttempt < w.nextId
    ensures EarnedTarget(env, w', st', x')
  {
    if x'.state.Succeeded? {
      var rec :| rec in env.heard && Completes(rec, w.ro.generation, st, x);
      assert Completes(rec, w'.ro.generation, st', x');
    }
  }

  /** No target newly succeeds. */
  lemma NobodyEarns(env: Env, w: World, w': World)
    requires Balanced(w) && Earned(env, w) && WinnersKept(w, w') && SameIds(w.ro, w'.ro)
    requires forall i, j :: 0 <= i < |w.ro.stages| && 0 <= j < |w.ro.stages[i].targets| ==>
               SameSuccess(w.ro.stages[i], w.ro.stages[i].targets[j], w'.ro.stages[i], w'.ro.stages[i].targets[j])
    ensures Earned(env, w')
  {
    forall i, j | 0 <= i < |w'.ro.stages| && 0 <= j < |w'.ro.stages[i].targets|
      ensures EarnedTarget(env, w', w'.ro.stages[i], w'.ro.stages[i].targets[j])
    {
      assert TargetOk(w, i, j);
      EarnedKept(env, w, w', w.ro.stages[i], w.ro.stages[i].targets[j], w'.ro.stages[i], w'.ro.stages[i].targets[j]);
    }
  }

  lemma TouchEarns(env: Env, w: World, w': World, s: nat, t: nat)
    requires Balanced(w) && Earned(env, w) && WinnersKept(w, w') && Touches(w, w', s, t)
    requires EarnedTarget(env, w', w'.ro.stages[s], w'.ro.stages[s].targets[t])
    ensures Earned(env, w')
  {
    forall i, j | 0 <= i < |w'.ro.stages| && 0 <= j < |w'.ro.stages[i].targets|
      ensures EarnedTarget(env, w', w'.ro.stages[i], w'.ro.stages[i].targets[j])
    {
      if i != s || j != t {
        assert TargetOk(w, i, j);
        EarnedKept(env, w, w', w.ro.stages[i], w.ro.stages[i].targets[j], w'.ro.stages[i], w'.ro.stages[i].targets[j]);
      }
    }
  }

  // ----- steps on attempts and targets -----

  /** A verdict makes a target succeed only as a completion report on an attempt nobody cancelled. */
  lemma VerdictEarns(st: Stage, x: Target, a: Attempt, cause: Cause)
    requires IsChanging(x)
    ensures var v := VerdictFor(st, x, a, cause);
            v.x.state.Succeeded? ==>
              && cause.ByReport? && cause.rec.kind.ExecutionCompleted? && cause.rec.outcome.OutSucceeded?
              && a.cancelledEpoch == 0 && x.currentAttempt == cause.rec.attempt
              && v.a.state.Succeeded? && v.a.generation == a.generation && v.x.currentAttempt == x.currentAttempt
  {
  }

  lemma FinishEarns(env: Env, w: World, s: nat, t: nat, id: nat, cause: Cause)
    requires Balanced(w) && Earned(env, w) && CanFinish(env, w, s, t, id, cause)
    ensures Earned(env, DoFinish(w, s, t, id, cause))
  {
    var st, x := w.ro.stages[s], w.ro.stages[s].targets[t];
    var v := VerdictFor(st, x, w.at[id], cause);
    Accounting.LiveOnIsCurrent(w, id, s, t);
    Accounting.VerdictIsSound(st, x, id, w.at[id], cause);
    VerdictEarns(st, x, w.at[id], cause);
    var w' := DoFinish(w, s, t, id, cause);
    Accounting.PutTouches(w, w', s, t, w'.ro.stages[s], v.x);
    if v.x.state.Succeeded? {
      assert Completes(cause.rec, w.ro.generation, w'.ro.stages[s], v.x);
    }
    TouchEarns(env, w, w', s, t);
  }

  lemma LoseEarns(env: Env, w: World, s: nat, t: nat, id: nat)
    requires Balanced(w) && Earned(env, w) && LiveOn(w, id, s, t)
    ensures Earned(env, DoLose(w, s, t, id))
  {
    var w' := DoLose(w, s, t, id);
    Accounting.LiveOnIsCurrent(w, id, s, t);
    Accounting.PutTouches(w, w', s, t, w'.ro.stages[s], w'.ro.stages[s].targets[t]);
    TouchEarns(env, w, w', s, t);
  }

  lemma SendEarns(env: Env, w: World, s: nat, t: nat, step: nat, now: int)
    requires Balanced(w) && Earned(env, w) && CanSend(w, s, t, step)
    ensures Earned(env, DoSend(w, s, t, step, now))
  {
    var w' := DoSend(w, s, t, step, now);
    Accounting.PutTouches(w, w', s, t, w'.ro.stages[s], w'.ro.stages[s].targets[t]);
    TouchEarns(env, w, w', s, t);
  }

  lemma RefuseEarns(env: Env, w: World, s: nat, t: nat, now: int)
    requires Balanced(w) && Earned(env, w) && w.HasTarget(s, t)
    ensures Earned(env, DoRefuse(w, s, t, now))
  {
    var w' := DoRefuse(w, s, t, now);
    Accounting.PutTouches(w, w', s, t, w'.ro.stages[s], w'.ro.stages[s].targets[t]);
    assert TargetOk(w, s, t);
    EarnedKept(env, w, w', w.ro.stages[s], w.ro.stages[s].targets[t], w'.ro.stages[s], w'.ro.stages[s].targets[t]);
    TouchEarns(env, w, w', s, t);
  }

  lemma GiveUpEarns(env: Env, w: World, s: nat, t: nat)
    requires Balanced(w) && Earned(env, w) && CanGiveUp(w, s, t)
    ensures Earned(env, DoGiveUp(w, s, t))
  {
    var w' := DoGiveUp(w, s, t);
    Accounting.PutTouches(w, w', s, t, w'.ro.stages[s], w'.ro.stages[s].targets[t]);
    TouchEarns(env, w, w', s, t);
  }

  lemma BeginEarns(env: Env, w: World)
    requires Balanced(w) && Earned(env, w)
    ensures Earned(env, DoBegin(w))
  {
    var w' := DoBegin(w);
    forall i, j | 0 <= i < |w.ro.stages| && 0 <= j < |w.ro.stages[i].targets|
      ensures |w'.ro.stages[i].targets| == |w.ro.stages[i].targets|
      ensures SameSuccess(w.ro.stages[i], w.ro.stages[i].targets[j], w'.ro.stages[i], w'.ro.stages[i].targets[j])
    {
      assert w'.ro.stages[i] == MarkStage(w.ro.stages[i]);
    }
    NobodyEarns(env, w, w');
  }

  lemma QuietEarns(env: Env, w: World, act: Act)
    requires Balanced(w) && Earned(env, w) && Enabled(env, w, act)
    requires act.See? || act.Request? || act.Observe? || act.Others?
    ensures Earned(env, Do(env, w, act))
  {
    NobodyEarns(env, w, Do(env, w, act));
  }

  lemma ScalarEarns(env: Env, w: World, act: Act)
    requires Balanced(w) && Earned(env, w) && Enabled(env, w, act) && Accounting.IsScalar(act)
    ensures Earned(env, Do(env, w, act))
  {
    hide Balanced, Earned;
    Accounting.ScalarIsSameTargets(env, w, act);
    SameTargetsEarn(env, w, Do(env, w, act));
  }

  lemma SameTargetsEarn(env: Env, w: World, w': World)
    requires Balanced(w) && Earned(env, w) && Accounting.SameTargets(w, w') && w'.at == w.at
    ensures Earned(env, w')
  {
    NobodyEarns(env, w, w');
  }

  lemma PlannedEarns(env: Env, w: World)
    requires Planned(w.ro.stages)
    ensures Earned(env, w)
  {
    forall i, j | 0 <= i < |w.ro.stages| && 0 <= j < |w.ro.stages[i].targets|
      ensures EarnedTarget(env, w, w.ro.stages[i], w.ro.stages[i].targets[j])
    {
      assert UntouchedTarget(w.ro.stages[i].targets[j]);
    }
  }

  lemma StepKeepsEarned(env: Env, w: World, act: Act)
    requires Balanced(w) && Earned(env, w) && Enabled(env, w, act)
    ensures Earned(env, Do(env, w, act))
  {
    hide Balanced, Earned;
    match act
    case Finish(s, t, id, cause) => FinishEarns(env, w, s, t, id, cause);
    case Lose(s, t, id) => LoseEarns(env, w, s, t, id);
    case Send(s, t, step, now) => SendEarns(env, w, s, t, step, now);
    case Refuse(s, t, now) => RefuseEarns(env, w, s, t, now);
    case GiveUp(s, t) => GiveUpEarns(env, w, s, t);
    case Begin => BeginEarns(env, w);
    case Renew(_, _) => PlannedEarns(env, Do(env, w, act));
    case See(_, _) => QuietEarns(env, w, act);
    case Request(_) => QuietEarns(env, w, act);
    case Observe(_) => QuietEarns(env, w, act);
    case Others(_) => QuietEarns(env, w, act);
    case _ => ScalarEarns(env, w, act);
  }

  lemma {:induction false} RunKeepsEarned(env: Env, w: World, acts: seq<Act>, w': World)
    requires Inv(env, w) && Earned(env, w) && Runs(env, w, acts, w')
    ensures Earned(env, w')
    decreases |acts|
  {
    if acts != [] {
      StepKeepsInv(env, w, acts[0]);
      StepKeepsEarned(env, w, acts[0]);
      RunKeepsEarned(env, Do(env, w, acts[0]), acts[1..], w');
    }
  }
}
