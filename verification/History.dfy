/** What is never undone, and that evidence on its way stays as honest as it was when it was sent. */
module History {
  import opened Lifecycle
  import opened Rollouts
  import opened Dispatch
  import opened Machine
  import opened Books
  import opened Steps
  import opened Shape
  import opened Invariance
  import Accounting

  /** Identifiers are never reused and no attempt grows younger. */
  ghost predicate Later(w: World, w': World) {
    && w.nextId <= w'.nextId
    && (forall id :: id in w'.at && id < w.nextId ==> id in w.at && NoYounger(w.at[id], w'.at[id]))
  }

  lemma LaterThen(w: World, mid: World, w': World)
    requires Later(w, mid) && Later(mid, w')
    ensures Later(w, w')
  {
  }

  lemma FinishIsLater(env: Env, w: World, s: nat, t: nat, id: nat, cause: Cause)
    requires Balanced(w) && CanFinish(env, w, s, t, id, cause)
    ensures Later(w, DoFinish(w, s, t, id, cause))
  {
    Accounting.LiveOnIsCurrent(w, id, s, t);
    Accounting.VerdictIsSound(w.ro.stages[s], w.ro.stages[s].targets[t], id, w.at[id], cause);
    VerdictKeepsSequence(w.ro.stages[s], w.ro.stages[s].targets[t], w.at[id], cause);
  }

  lemma VerdictKeepsSequence(st: Stage, x: Target, a: Attempt, cause: Cause)
    ensures VerdictFor(st, x, a, cause).a.highestSequence == a.highestSequence
  {
  }

  lemma AttemptIsLater(w: World, w': World, id: nat)
    requires id in w.at && id in w'.at && w'.at == w.at[id := w'.at[id]] && w'.nextId >= w.nextId
    requires NoYounger(w.at[id], w'.at[id])
    ensures Later(w, w')
  {
  }

  lemma SendIsLater(w: World, s: nat, t: nat, step: nat, now: int)
    requires w.HasTarget(s, t)
    ensures Later(w, DoSend(w, s, t, step, now))
  {
  }

  lemma StepIsLater(env: Env, w: World, act: Act)
    requires Balanced(w) && Enabled(env, w, act)
    ensures Later(w, Do(env, w, act))
  {
    hide Later;
    match act
    case Finish(s, t, id, cause) => FinishIsLater(env, w, s, t, id, cause);
    case Request(id) =>
      assert AttemptOk(w.ro, id, w.at[id]);
      AttemptIsLater(w, DoRequest(w, id), id);
    case Lose(s, t, id) => AttemptIsLater(w, DoLose(w, s, t, id), id);
    case Send(s, t, step, now) => SendIsLater(w, s, t, step, now);
    case See(id, sequence) => AttemptIsLater(w, DoSee(w, id, sequence), id);
    case Others(to) => OthersAreLater(w, to);
    case _ => SameAttemptsLater(env, w, act);
  }

  lemma OthersAreLater(w: World, to: World)
    requires OthersOnly(w, to)
    ensures Later(w, to)
  {
    forall id | id in to.at && id < w.nextId ensures id in w.at && NoYounger(w.at[id], to.at[id]) {
    }
  }

  lemma SameAttemptsLater(env: Env, w: World, act: Act)
    requires Enabled(env, w, act)
    requires !act.Finish? && !act.Request? && !act.Lose? && !act.Send? && !act.See? && !act.Others?
    ensures Later(w, Do(env, w, act))
  {
    var w' := Do(env, w, act);
    assert w'.at == w.at && w'.nextId >= w.nextId;
  }

  // ----- compensating attempts stay compensating -----

  /** The live attempt of a target being rolled back. */
  ghost predicate CompensatingAttempt(w: World, id: nat) {
    Current(w, id) && !w.at[id].Finished() ==>
      forall s: nat, t: nat :: Names(w.ro, w.at[id], s, t) ==> w.ro.stages[s].targets[t].state.TRollingBack?
  }

  /** Same targets by identifier, and one being rolled back with this live attempt is left alone. */
  lemma RollingKept(w: World, w': World, id: nat)
    requires CompensatingAttempt(w, id) && SameIds(w.ro, w'.ro)
    requires Current(w', id) && !w'.at[id].Finished() ==>
               Current(w, id) && !w.at[id].Finished() && SameFence(w.at[id], w'.at[id])
    requires forall s: nat, t: nat :: id in w'.at && LiveOn(w, id, s, t) && !w'.at[id].Finished() &&
                                      w.ro.stages[s].targets[t].state.TRollingBack? ==>
               w'.ro.stages[s].targets[t].state.TRollingBack?
    ensures CompensatingAttempt(w', id)
  {
    if Current(w', id) && !w'.at[id].Finished() {
      forall s: nat, t: nat | Names(w'.ro, w'.at[id], s, t)
        ensures w'.ro.stages[s].targets[t].state.TRollingBack?
      {
        assert Names(w.ro, w.at[id], s, t);
        assert LiveOn(w, id, s, t);
      }
    }
  }

  lemma OneRollingKept(w: World, w': World, id: nat, s: nat, t: nat)
    requires Balanced(w) && CompensatingAttempt(w, id) && Touches(w, w', s, t)
    requires Current(w', id) && !w'.at[id].Finished() ==>
               Current(w, id) && !w.at[id].Finished() && SameFence(w.at[id], w'.at[id])
    requires id in w'.at && LiveOn(w, id, s, t) && !w'.at[id].Finished() &&
             w.ro.stages[s].targets[t].state.TRollingBack? ==>
               w'.ro.stages[s].targets[t].state.TRollingBack?
    ensures CompensatingAttempt(w', id)
  {
    RollingKept(w, w', id);
  }

  lemma FinishRolling(env: Env, w: World, s: nat, t: nat, id: nat, cause: Cause, other: nat)
    requires Balanced(w) && CanFinish(env, w, s, t, id, cause) && CompensatingAttempt(w, other) && other < w.nextId
    ensures CompensatingAttempt(DoFinish(w, s, t, id, cause), other)
  {
    var st, x := w.ro.stages[s], w.ro.stages[s].targets[t];
    var v := VerdictFor(st, x, w.at[id], cause);
    Accounting.LiveOnIsCurrent(w, id, s, t);
    Accounting.VerdictIsSound(st, x, id, w.at[id], cause);
    EndRolling(w, s, t, id, v, other);
  }

  lemma EndRolling(w: World, s: nat, t: nat, id: nat, v: Verdict, other: nat)
    requires Balanced(w) && LiveOn(w, id, s, t) && CompensatingAttempt(w, other)
    requires Accounting.Sound(w.ro.stages[s], w.ro.stages[s].targets[t], id, w.at[id], v)
    ensures CompensatingAttempt(Conclude(w, s, t, id, v), other)
  {
    var w' := Conclude(w, s, t, id, v);
    Accounting.PutTouches(w, w', s, t, w'.ro.stages[s], v.x);
    Accounting.LiveOnIsCurrent(w, id, s, t);
    if LiveOn(w, other, s, t) {
      Accounting.LiveOnIsCurrent(w, other, s, t);
    }
    OneRollingKept(w, w', other, s, t);
  }

  lemma LoseRolling(w: World, s: nat, t: nat, id: nat, other: nat)
    requires Balanced(w) && LiveOn(w, id, s, t) && CompensatingAttempt(w, other)
    ensures CompensatingAttempt(DoLose(w, s, t, id), other)
  {
    var w' := DoLose(w, s, t, id);
    Accounting.PutTouches(w, w', s, t, w'.ro.stages[s], w'.ro.stages[s].targets[t]);
    OneRollingKept(w, w', other, s, t);
  }

  lemma SendRolling(w: World, s: nat, t: nat, step: nat, now: int, other: nat)
    requires Balanced(w) && CanSend(w, s, t, step) && CompensatingAttempt(w, other) && other < w.nextId
    ensures CompensatingAttempt(DoSend(w, s, t, step, now), other)
  {
    var w' := DoSend(w, s, t, step, now);
    Accounting.PutTouches(w, w', s, t, w'.ro.stages[s], w'.ro.stages[s].targets[t]);
    if LiveOn(w, other, s, t) {
      Accounting.LiveOnIsCurrent(w, other, s, t);
    }
    OneRollingKept(w, w', other, s, t);
  }

  lemma TouchRolling(w: World, w': World, s: nat, t: nat, other: nat)
    requires Balanced(w) && CompensatingAttempt(w, other) && Touches(w, w', s, t) && w'.at == w.at
    requires LiveOn(w, other, s, t) ==> w'.ro.stages[s].targets[t].state == w.ro.stages[s].targets[t].state
    ensures CompensatingAttempt(w', other)
  {
    OneRollingKept(w, w', other, s, t);
  }

  lemma GiveUpRolling(w: World, s: nat, t: nat, other: nat)
    requires Balanced(w) && CanGiveUp(w, s, t) && CompensatingAttempt(w, other)
    ensures CompensatingAttempt(DoGiveUp(w, s, t), other)
  {
    var w' := DoGiveUp(w, s, t);
    Accounting.PutTouches(w, w', s, t, w'.ro.stages[s], w'.ro.stages[s].targets[t]);
    if LiveOn(w, other, s, t) {
      Accounting.LiveOnIsCurrent(w, other, s, t);
    }
    TouchRolling(w, w', s, t, other);
  }

  lemma RefuseRolling(w: World, s: nat, t: nat, now: int, other: nat)
    requires Balanced(w) && w.HasTarget(s, t) && CompensatingAttempt(w, other)
    ensures CompensatingAttempt(DoRefuse(w, s, t, now), other)
  {
    var w' := DoRefuse(w, s, t, now);
    Accounting.PutTouches(w, w', s, t, w'.ro.stages[s], w'.ro.stages[s].targets[t]);
    TouchRolling(w, w', s, t, other);
  }

  /** Attempts change without finishing or reviving, and targets keep their states. */
  lemma StillRolling(w: World, w': World, other: nat)
    requires CompensatingAttempt(w, other) && SameIds(w.ro, w'.ro)
    requires Current(w', other) && !w'.at[other].Finished() ==>
               Current(w, other) && !w.at[other].Finished() && SameFence(w.at[other], w'.at[other])
    requires forall i, j :: 0 <= i < |w.ro.stages| && 0 <= j < |w.ro.stages[i].targets| &&
                            w.ro.stages[i].targets[j].state.TRollingBack? ==>
               w'.ro.stages[i].targets[j].state.TRollingBack?
    ensures CompensatingAttempt(w', other)
  {
    RollingKept(w, w', other);
  }

  lemma BeginRolling(w: World, other: nat)
    requires CompensatingAttempt(w, other)
    ensures CompensatingAttempt(DoBegin(w), other)
  {
    var w' := DoBegin(w);
    forall i, j | 0 <= i < |w.ro.stages| && 0 <= j < |w.ro.stages[i].targets|
      ensures |w'.ro.stages[i].targets| == |w.ro.stages[i].targets|
      ensures w'.ro.stages[i].targets[j].id == w.ro.stages[i].targets[j].id
      ensures w.ro.stages[i].targets[j].state.TRollingBack? ==> w'.ro.stages[i].targets[j].state.TRollingBack?
    {
      assert w'.ro.stages[i] == MarkStage(w.ro.stages[i]);
    }
    StillRolling(w, w', other);
  }

  /** A new generation leaves no attempt current. */
  lemma RenewRolling(w: World, stages: seq<Stage>, whole: bool, other: nat)
    requires Balanced(w)
    ensures CompensatingAttempt(DoRenew(w, stages, whole), other)
  {
  }

  lemma QuietRolling(env: Env, w: World, act: Act, other: nat)
    requires Balanced(w) && Enabled(env, w, act) && CompensatingAttempt(w, other) && other < w.nextId
    requires act.See? || act.Request? || act.Observe? || act.Others?
    ensures CompensatingAttempt(Do(env, w, act), other)
  {
    StillRolling(w, Do(env, w, act), other);
  }

  lemma SameRolling(w: World, w': World, other: nat)
    requires CompensatingAttempt(w, other) && Accounting.SameTargets(w, w') && w'.at == w.at
    ensures CompensatingAttempt(w', other)
  {
    StillRolling(w, w', other);
  }

  lemma ScalarRolling(env: Env, w: World, act: Act, other: nat)
    requires Enabled(env, w, act) && CompensatingAttempt(w, other) && Accounting.IsScalar(act)
    ensures CompensatingAttempt(Do(env, w, act), other)
  {
    hide CompensatingAttempt;
    Accounting.ScalarIsSameTargets(env, w, act);
    SameRolling(w, Do(env, w, act), other);
  }

  lemma StepKeepsRolling(env: Env, w: World, act: Act, other: nat)
    requires Balanced(w) && Enabled(env, w, act) && CompensatingAttempt(w, other) && other < w.nextId
    ensures CompensatingAttempt(Do(env, w, act), other)
  {
    hide Balanced, CompensatingAttempt;
    match act
    case Finish(s, t, id, cause) => FinishRolling(env, w, s, t, id, cause, other);
    case Lose(s, t, id) => LoseRolling(w, s, t, id, other);
    case Send(s, t, step, now) => SendRolling(w, s, t, step, now, other);
    case Refuse(s, t, now) => RefuseRolling(w, s, t, now, other);
    case GiveUp(s, t) => GiveUpRolling(w, s, t, other);
    case Begin => BeginRolling(w, other);
    case Renew(stages, whole) => RenewRolling(w, stages, whole, other);
    case See(_, _) => QuietRolling(env, w, act, other);
    case Request(_) => QuietRolling(env, w, act, other);
    case Observe(_) => QuietRolling(env, w, act, other);
    case Others(_) => QuietRolling(env, w, act, other);
    case _ => ScalarRolling(env, w, act, other);
  }

  lemma StepKeepsHonest(env: Env, w: World, act: Act, rec: Record)
    requires Balanced(w) && Enabled(env, w, act) && Honest(env, w, rec)
    ensures Honest(env, Do(env, w, act), rec)
  {
    StepIsLater(env, w, act);
    if env.confined && ClassOf(rec.kind).Compensation? {
      StepKeepsRolling(env, w, act, rec.attempt);
    }
  }

  lemma StepKeepsInbox(env: Env, w: World, act: Act)
    requires Balanced(w) && Enabled(env, w, act) && HonestInbox(env, w)
    ensures HonestInbox(env, Do(env, w, act))
  {
    var w' := Do(env, w, act);
    InboxOf(env, w, act);
    forall k | 0 <= k < |w'.inbox| ensures Honest(env, w', w'.inbox[k]) {
      StepKeepsHonest(env, w, act, w'.inbox[k]);
    }
  }

  lemma InboxOf(env: Env, w: World, act: Act)
    requires Balanced(w) && Enabled(env, w, act) && HonestInbox(env, w)
    ensures var w' := Do(env, w, act);
            forall k :: 0 <= k < |w'.inbox| ==> Honest(env, w, w'.inbox[k])
  {
  }

  // ----- every run of steps -----

  lemma StepKeepsInv(env: Env, w: World, act: Act)
    requires Inv(env, w) && Enabled(env, w, act)
    ensures Inv(env, Do(env, w, act)) && Later(w, Do(env, w, act))
  {
    Accounting.StepKeepsBooks(env, w, act);
    StepKeepsShape(env, w, act);
    StepKeepsResumable(env, w, act);
    StepKeepsInbox(env, w, act);
    StepIsLater(env, w, act);
  }

  lemma {:induction false} RunKeepsInv(env: Env, w: World, acts: seq<Act>, w': World)
    requires Inv(env, w) && Runs(env, w, acts, w')
    ensures Inv(env, w') && Later(w, w')
    decreases |acts|
  {
    if acts != [] {
      StepKeepsInv(env, w, acts[0]);
      RunKeepsInv(env, Do(env, w, acts[0]), acts[1..], w');
      LaterThen(w, Do(env, w, acts[0]), w');
    }
  }

  lemma LeadsKeepsInv(env: Env, w: World, w': World)
    requires Inv(env, w) && Leads(env, w, w')
    ensures Inv(env, w') && Later(w, w')
  {
    var acts :| Runs(env, w, acts, w');
    RunKeepsInv(env, w, acts, w');
  }

  lemma {:induction false} RunKeepsHonest(env: Env, w: World, acts: seq<Act>, w': World, rec: Record)
    requires Inv(env, w) && Runs(env, w, acts, w') && Honest(env, w, rec)
    ensures Honest(env, w', rec)
    decreases |acts|
  {
    if acts != [] {
      StepKeepsInv(env, w, acts[0]);
      StepKeepsHonest(env, w, acts[0], rec);
      RunKeepsHonest(env, Do(env, w, acts[0]), acts[1..], w', rec);
    }
  }
}
