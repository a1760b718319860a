/** Every step keeps the attempt books balanced. */
module Accounting {
  import opened Lifecycle
  import opened Rollouts
  import opened Dispatch
  import opened Machine
  import opened Books
  import opened Steps

  lemma PutTouches(w: World, w': World, s: nat, t: nat, st: Stage, x: Target)
    requires w.HasTarget(s, t) && st.id == w.ro.stages[s].id && x.id == w.ro.stages[s].targets[t].id
    requires st.targets == w.ro.stages[s].targets[t := x]
    requires w'.ro.stages == w.ro.stages[s := st] && w'.ro.generation == w.ro.generation && w'.ro.id == w.ro.id
    ensures Touches(w, w', s, t)
  {
  }

  lemma TouchKeeps(w: World, w': World, s: nat, t: nat)
    requires Touches(w, w', s, t) && Keeps(w.at, w.ro.stages[s].targets[t], w'.ro.stages[s].targets[t])
    ensures KeepsAll(w, w')
  {
  }

  lemma TouchBooks(w: World, w': World, s: nat, t: nat)
    requires Balanced(w) && Touches(w, w', s, t)
    requires Keeps(w.at, w.ro.stages[s].targets[t], w'.ro.stages[s].targets[t])
    requires w'.at == w.at && w.nextId <= w'.nextId && w'.ro.outstanding == w.ro.outstanding
    ensures Balanced(w')
  {
    TouchKeeps(w, w', s, t);
    KeepsBooks(w, w');
  }

  /** Nothing about targets changes: stage states, gates, cursors, revisions and the like. */
  ghost predicate SameTargets(w: World, w': World) {
    && w'.ro.generation == w.ro.generation && w'.ro.id == w.ro.id
    && |w'.ro.stages| == |w.ro.stages|
    && (forall i :: 0 <= i < |w.ro.stages| ==>
          w'.ro.stages[i].id == w.ro.stages[i].id && w'.ro.stages[i].targets == w.ro.stages[i].targets)
  }

  lemma SameTargetsBooks(w: World, w': World)
    requires Balanced(w) && SameTargets(w, w') && w'.at == w.at && w.nextId <= w'.nextId
    requires w'.ro.outstanding == w.ro.outstanding
    ensures Balanced(w')
  {
    KeepsBooks(w, w');
  }

  // ----- what the books say about a live attempt -----

  lemma LiveOnIsCurrent(w: World, id: nat, s: nat, t: nat)
    requires Balanced(w) && LiveOn(w, id, s, t)
    ensures w.ro.stages[s].targets[t].currentAttempt == id
    ensures w.ro.stages[s].targets[t].epoch == w.at[id].epoch >= 1
    ensures w.ro.stages[s].targets[t].state.Changing()
    ensures !w.at[id].completed && w.ro.outstanding > 0
  {
    assert AttemptOk(w.ro, id, w.at[id]);
    assert id in LiveSet(w);
  }

  lemma BusyIsLive(w: World, s: nat, t: nat)
    requires Balanced(w) && w.HasTarget(s, t) && Busy(w.at, w.ro.stages[s].targets[t])
    requires w.ro.stages[s].targets[t].currentAttempt != 0
    ensures LiveOn(w, w.ro.stages[s].targets[t].currentAttempt, s, t)
  {
    assert TargetOk(w, s, t);
  }

  lemma BusyIsChanging(w: World, s: nat, t: nat)
    requires Balanced(w) && w.HasTarget(s, t) && Busy(w.at, w.ro.stages[s].targets[t])
    ensures w.ro.stages[s].targets[t].state.Changing()
  {
    assert 0 !in w.at;
    BusyIsLive(w, s, t);
    LiveOnIsCurrent(w, w.ro.stages[s].targets[t].currentAttempt, s, t);
  }

  // ----- steps on attempts -----

  lemma SeeBooks(w: World, id: nat, sequence: nat)
    requires Balanced(w) && CanSee(w, id, sequence)
    ensures Balanced(DoSee(w, id, sequence))
  {
    assert AttemptOk(w.ro, id, w.at[id]);
    AmendBooks(w, DoSee(w, id, sequence), id);
  }

  lemma RequestBooks(w: World, id: nat)
    requires Balanced(w) && CanRequest(w, id)
    ensures Balanced(DoRequest(w, id))
  {
    assert AttemptOk(w.ro, id, w.at[id]);
    AmendBooks(w, DoRequest(w, id), id);
  }

  lemma LoseBooks(w: World, s: nat, t: nat, id: nat)
    requires Balanced(w) && LiveOn(w, id, s, t)
    ensures Balanced(DoLose(w, s, t, id))
  {
    assert AttemptOk(w.ro, id, w.at[id]);
    LiveOnIsCurrent(w, id, s, t);
    var w' := DoLose(w, s, t, id);
    PutTouches(w, w', s, t, w'.ro.stages[s], w'.ro.stages[s].targets[t]);
    TouchKeeps(w, w', s, t);
    AmendBooks(w, w', id);
  }

  /** A verdict ends the attempt it is about and keeps the target's epoch and tie. */
  ghost predicate Sound(st: Stage, x: Target, id: nat, a: Attempt, v: Verdict) {
    && v.st.id == st.id && v.x.id == x.id && v.x.epoch == x.epoch
    && (v.x.currentAttempt == 0 || v.x.currentAttempt == id)
    && SameFence(a, v.a) && v.a.cancelledEpoch == a.cancelledEpoch
    && v.a.completed && v.a.Finished()
    && (a.cancelledEpoch != 0 ==> !v.a.state.Succeeded?)
  }

  lemma ConcludeBooks(w: World, s: nat, t: nat, id: nat, v: Verdict)
    requires Balanced(w) && LiveOn(w, id, s, t)
    requires Sound(w.ro.stages[s], w.ro.stages[s].targets[t], id, w.at[id], v)
    ensures Balanced(Conclude(w, s, t, id, v))
    ensures LiveSet(Conclude(w, s, t, id, v)) == LiveSet(w) - {id}
  {
    var w' := Conclude(w, s, t, id, v);
    PutTouches(w, w', s, t, w'.ro.stages[s], v.x);
    FinishBooks(w, w', s, t, id);
  }

  /** For the current attempt of the target every verdict is sound; only the mismatch branch is not. */
  lemma VerdictIsSound(st: Stage, x: Target, id: nat, a: Attempt, cause: Cause)
    requires x.currentAttempt == id
    requires cause.ByReport? || cause.ByCompensation? ==> cause.rec.attempt == id
    ensures Sound(st, x, id, a, VerdictFor(st, x, a, cause))
  {
  }

  lemma FinishStepBooks(env: Env, w: World, s: nat, t: nat, id: nat, cause: Cause)
    requires Balanced(w) && CanFinish(env, w, s, t, id, cause)
    ensures Balanced(DoFinish(w, s, t, id, cause))
  {
    LiveOnIsCurrent(w, id, s, t);
    var st, x := w.ro.stages[s], w.ro.stages[s].targets[t];
    VerdictIsSound(st, x, id, w.at[id], cause);
    ConcludeBooks(w, s, t, id, VerdictFor(st, x, w.at[id], cause));
  }

  // ----- steps on targets -----

  lemma ObserveBooks(w: World, stages: seq<Stage>)
    requires Balanced(w) && CanObserve(w, stages)
    ensures Balanced(DoObserve(w, stages))
  {
    KeepsBooks(w, DoObserve(w, stages));
  }

  lemma SendBooks(w: World, s: nat, t: nat, step: nat, now: int)
    requires Balanced(w) && CanSend(w, s, t, step)
    ensures Balanced(DoSend(w, s, t, step, now))
  {
    var w' := DoSend(w, s, t, step, now);
    var x := w.ro.stages[s].targets[t];
    PutTouches(w, w', s, t, w'.ro.stages[s], SentTarget(x, w.nextId, step, now));
    DispatchBooks(w, w', s, t);
  }

  lemma RefuseBooks(w: World, s: nat, t: nat, now: int)
    requires Balanced(w) && w.HasTarget(s, t)
    ensures Balanced(DoRefuse(w, s, t, now))
  {
    var w' := DoRefuse(w, s, t, now);
    PutTouches(w, w', s, t, w'.ro.stages[s], w'.ro.stages[s].targets[t]);
    TouchBooks(w, w', s, t);
  }

  lemma GiveUpBooks(w: World, s: nat, t: nat)
    requires Balanced(w) && CanGiveUp(w, s, t)
    ensures Balanced(DoGiveUp(w, s, t))
  {
    var w' := DoGiveUp(w, s, t);
    PutTouches(w, w', s, t, w'.ro.stages[s], w'.ro.stages[s].targets[t]);
    TouchBooks(w, w', s, t);
  }

  lemma BeginBooks(w: World)
    requires Balanced(w)
    ensures Balanced(DoBegin(w))
  {
    var w' := DoBegin(w);
    forall i, j | 0 <= i < |w.ro.stages| && 0 <= j < |w.ro.stages[i].targets|
      ensures Keeps(w.at, w.ro.stages[i].targets[j], w'.ro.stages[i].targets[j])
    {
      MarkKeeps(w.at, w.ro.stages[i], j);
    }
    KeepsBooks(w, w');
  }

  lemma MarkKeeps(at: map<nat, Attempt>, st: Stage, j: nat)
    requires j < |st.targets|
    ensures |MarkStage(st).targets| == |st.targets|
    ensures Keeps(at, st.targets[j], MarkStage(st).targets[j])
  {
  }

  lemma RenewBooks(w: World, stages: seq<Stage>, whole: bool)
    requires Balanced(w) && CanRenew(w, stages)
    ensures Balanced(DoRenew(w, stages, whole))
  {
    var w' := DoRenew(w, stages, whole);
    assert LiveSet(w') == {};
    forall i: nat, j: nat | w'.HasTarget(i, j) ensures TargetOk(w', i, j) {
      assert UntouchedTarget(stages[i].targets[j]);
    }
  }

  // ----- every step -----

  predicate IsScalar(act: Act) {
    act.Tune? || act.MoveRollout? || act.MoveStage? || act.SetGate? || act.ClearGate? || act.Complete? || act.Deliver?
  }

  /** Steps on stage states, gates and rollout fields leave every target and attempt alone. */
  lemma ScalarIsSameTargets(env: Env, w: World, act: Act)
    requires Enabled(env, w, act) && IsScalar(act)
    ensures var w' := Do(env, w, act);
            && SameTargets(w, w') && w'.at == w.at && w.nextId <= w'.nextId
            && w'.ro.outstanding == w.ro.outstanding
  {
  }

  lemma ScalarBooks(env: Env, w: World, act: Act)
    requires Balanced(w) && Enabled(env, w, act) && IsScalar(act)
    ensures Balanced(Do(env, w, act))
  {
    hide Balanced, SameTargets;
    ScalarIsSameTargets(env, w, act);
    SameTargetsBooks(w, Do(env, w, act));
  }

  lemma StepKeepsBooks(env: Env, w: World, act: Act)
    requires Balanced(w) && Enabled(env, w, act)
    ensures Balanced(Do(env, w, act))
  {
    hide Balanced;
    match act
    case See(id, sequence) => SeeBooks(w, id, sequence);
    case Request(id) => RequestBooks(w, id);
    case Lose(s, t, id) => LoseBooks(w, s, t, id);
    case Observe(stages) => ObserveBooks(w, stages);
    case Finish(s, t, id, cause) => FinishStepBooks(env, w, s, t, id, cause);
    case Send(s, t, step, now) => SendBooks(w, s, t, step, now);
    case Refuse(s, t, now) => RefuseBooks(w, s, t, now);
    case GiveUp(s, t) => GiveUpBooks(w, s, t);
    case Others(to) => OthersBooks(w, to);
    case Begin => BeginBooks(w);
    case Renew(stages, whole) => RenewBooks(w, stages, whole);
    case _ => ScalarBooks(env, w, act);
  }
}
