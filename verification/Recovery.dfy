/** Taking over a rollout from its snapshot: attempts are rebuilt from targets, and the books balance again. */
module Recovery {
  import opened Lifecycle
  import opened Rollouts
  import opened Dispatch
  import opened Machine
  import opened Books
  import opened Steps
  import opened Shape
  import opened Invariance
  import opened History
  import opened Moves
  import Accounting

  // ----- restoring -----

  /** What a snapshot stores of a rollout: everything but whether its stages demand verification. */
  function Stored(ro: Rollout): Rollout {
    ro.(stages := seq(|ro.stages|, i requires 0 <= i < |ro.stages| => ro.stages[i].(requireVerification := false)))
  }

  /** The action an attempt of this target would run. */
  function NextAction(st: Stage, x: Target): Option<Action> {
    if x.state.TRollingBack? then CompensationAction(st, x.rollbackStep) else PrimaryAction(st)
  }

  predicate Reborn(st: Stage, x: Target) { x.currentAttempt != 0 && x.state.Changing() && NextAction(st, x).Some? }

  /** Cancellation requests and sequence numbers are not in a snapshot. */
  function RebuiltAttempt(ro: Rollout, previous: nat, st: Stage, x: Target): Attempt {
    Attempt(ro.id, ro.generation, st.id, x.id, if x.epoch == 0 then 1 else x.epoch, previous,
            x.dispatchedAt + st.policy.attemptDeadline, Dispatched, false, OutInconclusive, 0, 0)
  }

  function RestoredTarget(st: Stage, x: Target): Target {
    if Reborn(st, x) then x else x.(currentAttempt := 0)
  }

  function RestoreTarget(w: World, s: nat, t: nat, previous: nat): World
    requires w.HasTarget(s, t)
  {
    var st, x := w.ro.stages[s], w.ro.stages[s].targets[t];
    if Reborn(st, x) then
      var noted := NoteAttempt(w, x.currentAttempt, RebuiltAttempt(w.ro, previous, st, x));
      noted.(ro := noted.ro.(outstanding := w.ro.outstanding + 1))
    else PutStage(w, s, PutTarget(st, t, x.(currentAttempt := 0)))
  }

  function RestoreTargets(w: World, s: nat, t: nat, previous: nat): (r: World)
    requires w.HasStage(s) && t <= |w.ro.stages[s].targets|
    ensures |r.ro.stages| == |w.ro.stages|
    decreases |w.ro.stages[s].targets| - t
  {
    if t == |w.ro.stages[s].targets| then w else RestoreTargets(RestoreTarget(w, s, t, previous), s, t + 1, previous)
  }

  function RestoreStages(w: World, s: nat, previous: nat): World
    requires s <= |w.ro.stages|
    decreases |w.ro.stages| - s
  {
    if s == |w.ro.stages| then w else RestoreStages(RestoreTargets(w, s, 0, previous), s + 1, previous)
  }

  predicate Adoptable(ro: Rollout, planHolds: bool) {
    ro.id != 0 && planHolds && (ro.state.Terminal() || forall i :: 0 <= i < |ro.stages| ==> ro.stages[i].frozen)
  }

  /** A snapshot is refused if its plan does not hold, a cohort could still change, or a newer one is held. */
  function Restore(w: World, ro: Rollout, previous: nat, planHolds: bool): Result {
    if !Adoptable(ro, planHolds) || (w.ro.id == ro.id && w.ro.revision >= ro.revision) then Result(w, false)
    else Result(RestoreStages(w.(ro := ro.(outstanding := 0)), 0, previous), true)
  }

  // ----- what snapshots are like -----

  /** No two targets share a current attempt, and an attempted target has an epoch. */
  ghost predicate Sole(ro: Rollout) {
    && (forall i, j, k, l :: (InRange(ro, i, j) && InRange(ro, k, l) && CurrentOf(ro, i, j) != 0 &&
                              CurrentOf(ro, i, j) == CurrentOf(ro, k, l)) ==> i == k && j == l)
    && (forall i, j :: InRange(ro, i, j) && CurrentOf(ro, i, j) != 0 ==> ro.stages[i].targets[j].epoch >= 1)
  }

  predicate InRange(ro: Rollout, i: int, j: int) { 0 <= i < |ro.stages| && 0 <= j < |ro.stages[i].targets| }

  function CurrentOf(ro: Rollout, i: int, j: int): nat
    requires InRange(ro, i, j)
  {
    ro.stages[i].targets[j].currentAttempt
  }

  /** A target whose attempt is live has an action to rebuild that attempt with. */
  ghost predicate Actionable(w: World) {
    forall i, j :: InRange(w.ro, i, j) && Busy(w.at, w.ro.stages[i].targets[j]) ==>
      NextAction(w.ro.stages[i], w.ro.stages[i].targets[j]).Some?
  }

  /** One target through a step that sends it nothing. */
  ghost predicate Persists(at: map<nat, Attempt>, at': map<nat, Attempt>, st: Stage, x: Target,
                           st': Stage, x': Target) {
    && (x'.currentAttempt == x.currentAttempt || x'.currentAttempt == 0)
    && (Busy(at', x') ==> Busy(at, x) && NextAction(st', x') == NextAction(st, x))
  }

  ghost predicate AllPersist(w: World, w': World, s: int, t: int) {
    && SameIds(w.ro, w'.ro)
    && (forall i, j :: InRange(w.ro, i, j) && !(i == s && j == t) ==>
          Persists(w.at, w'.at, w.ro.stages[i], w.ro.stages[i].targets[j], w'.ro.stages[i], w'.ro.stages[i].targets[j]))
  }

  // ----- every step keeps them -----

  /** Attempts after the step that were not live before are not live, or not current anywhere. */
  ghost predicate NoRevival(w: World, w': World) {
    0 !in w'.at && forall i, j :: InRange(w.ro, i, j) && Busy(w'.at, w.ro.stages[i].targets[j]) ==>
                     Busy(w.at, w.ro.stages[i].targets[j])
  }

  ghost predicate SameActions(w: World, w': World) {
    forall i :: 0 <= i < |w.ro.stages| && i < |w'.ro.stages| ==>
      w'.ro.stages[i].actions == w.ro.stages[i].actions && w'.ro.stages[i].policy == w.ro.stages[i].policy
  }

  lemma TouchPersists(w: World, w': World, s: nat, t: nat)
    requires Touches(w, w', s, t) && SameActions(w, w') && NoRevival(w, w')
    ensures AllPersist(w, w', s, t)
    ensures Persists(w.at, w'.at, w.ro.stages[s], w.ro.stages[s].targets[t],
                     w'.ro.stages[s], w'.ro.stages[s].targets[t]) ==>
              AllPersist(w, w', -1, -1)
  {
    forall i, j | InRange(w.ro, i, j) && !(i == s && j == t)
      ensures Persists(w.at, w'.at, w.ro.stages[i], w.ro.stages[i].targets[j],
                       w'.ro.stages[i], w'.ro.stages[i].targets[j])
    {
      assert w'.ro.stages[i].targets[j] == w.ro.stages[i].targets[j];
    }
  }

  lemma SamePersists(w: World, w': World)
    requires Accounting.SameTargets(w, w') && SameActions(w, w') && NoRevival(w, w')
    ensures AllPersist(w, w', -1, -1)
  {
  }

  lemma FinishPersists(env: Env, w: World, s: nat, t: nat, id: nat, cause: Cause)
    requires Balanced(w) && CanFinish(env, w, s, t, id, cause)
    ensures AllPersist(w, DoFinish(w, s, t, id, cause), -1, -1)
  {
    var st, x := w.ro.stages[s], w.ro.stages[s].targets[t];
    var v, w' := VerdictFor(st, x, w.at[id], cause), DoFinish(w, s, t, id, cause);
    Accounting.LiveOnIsCurrent(w, id, s, t);
    Accounting.VerdictIsSound(st, x, id, w.at[id], cause);
    VerdictKeepsActions(st, x, w.at[id], cause);
    Accounting.PutTouches(w, w', s, t, w'.ro.stages[s], v.x);
    hide VerdictFor;
    TouchPersists(w, w', s, t);
  }

  lemma VerdictKeepsActions(st: Stage, x: Target, a: Attempt, cause: Cause)
    ensures VerdictFor(st, x, a, cause).st.actions == st.actions && VerdictFor(st, x, a, cause).st.policy == st.policy
  {
  }

  lemma LosePersists(w: World, s: nat, t: nat, id: nat)
    requires Balanced(w) && LiveOn(w, id, s, t)
    ensures AllPersist(w, DoLose(w, s, t, id), -1, -1)
  {
    var w' := DoLose(w, s, t, id);
    Accounting.PutTouches(w, w', s, t, w'.ro.stages[s], w'.ro.stages[s].targets[t]);
    TouchPersists(w, w', s, t);
  }

  lemma RefusePersists(w: World, s: nat, t: nat, now: int)
    requires Balanced(w) && w.HasTarget(s, t)
    ensures AllPersist(w, DoRefuse(w, s, t, now), -1, -1)
  {
    var w' := DoRefuse(w, s, t, now);
    Accounting.PutTouches(w, w', s, t, w'.ro.stages[s], w'.ro.stages[s].targets[t]);
    TouchPersists(w, w', s, t);
  }

  lemma GiveUpPersists(w: World, s: nat, t: nat)
    requires Balanced(w) && CanGiveUp(w, s, t)
    ensures AllPersist(w, DoGiveUp(w, s, t), -1, -1)
  {
    var w' := DoGiveUp(w, s, t);
    Accounting.PutTouches(w, w', s, t, w'.ro.stages[s], w'.ro.stages[s].targets[t]);
    TouchPersists(w, w', s, t);
  }

  lemma ObservePersists(w: World, stages: seq<Stage>)
    requires Balanced(w) && CanObserve(w, stages)
    ensures AllPersist(w, DoObserve(w, stages), -1, -1)
  {
  }

  lemma BeginPersists(w: World)
    requires Balanced(w)
    ensures AllPersist(w, DoBegin(w), -1, -1)
  {
    var w' := DoBegin(w);
    forall i, j | InRange(w.ro, i, j)
      ensures |w'.ro.stages[i].targets| == |w.ro.stages[i].targets|
      ensures w'.ro.stages[i].targets[j].id == w.ro.stages[i].targets[j].id
      ensures Persists(w.at, w'.at, w.ro.stages[i], w.ro.stages[i].targets[j],
                       w'.ro.stages[i], w'.ro.stages[i].targets[j])
    {
      assert w'.ro.stages[i] == MarkStage(w.ro.stages[i]);
      if Busy(w.at, w.ro.stages[i].targets[j]) { Accounting.BusyIsChanging(w, i, j); }
    }
  }

  lemma QuietPersists(env: Env, w: World, act: Act)
    requires Balanced(w) && Enabled(env, w, act) && (act.See? || act.Request? || act.Others?)
    ensures AllPersist(w, Do(env, w, act), -1, -1)
  {
    var w' := Do(env, w, act);
    forall i, j | InRange(w.ro, i, j) && Busy(w'.at, w.ro.stages[i].targets[j])
      ensures Busy(w.at, w.ro.stages[i].targets[j])
    {
      assert TargetOk(w, i, j);
    }
    SamePersists(w, w');
  }

  lemma ScalarPersists(env: Env, w: World, act: Act)
    requires Balanced(w) && Enabled(env, w, act) && Accounting.IsScalar(act)
    ensures AllPersist(w, Do(env, w, act), -1, -1)
  {
    Accounting.ScalarIsSameTargets(env, w, act);
    ScalarSameActions(env, w, act);
    hide Enabled, Do;
    SamePersists(w, Do(env, w, act));
  }

  lemma CompleteSameActions(w: World, s: nat)
    requires w.HasStage(s)
    ensures SameActions(w, DoComplete(w, s))
  {
  }

  lemma TuneSameActions(w: World, to: World)
    requires Tuned(w, to)
    ensures SameActions(w, to)
  {
    forall i | 0 <= i < |w.ro.stages| ensures to.ro.stages[i].policy == w.ro.stages[i].policy {
      assert TunedStage(w.ro.stages[i], to.ro.stages[i]);
    }
  }

  lemma ScalarSameActions(env: Env, w: World, act: Act)
    requires Enabled(env, w, act) && Accounting.IsScalar(act)
    ensures SameActions(w, Do(env, w, act))
  {
    hide DoComplete, Tuned;
    match act
    case Complete(s) => CompleteSameActions(w, s);
    case Tune(to) => TuneSameActions(w, to);
    case _ =>
  }

  lemma StepPersists(env: Env, w: World, act: Act)
    requires Inv(env, w) && Enabled(env, w, act) && !act.Send? && !act.Renew?
    ensures AllPersist(w, Do(env, w, act), -1, -1)
  {
    hide Balanced, AllPersist, Shaped, HonestInbox;
    match act
    case Finish(s, t, id, cause) => FinishPersists(env, w, s, t, id, cause);
    case Lose(s, t, id) => LosePersists(w, s, t, id);
    case Refuse(s, t, now) => RefusePersists(w, s, t, now);
    case GiveUp(s, t) => GiveUpPersists(w, s, t);
    case Begin => BeginPersists(w);
    case Observe(stages) => ObservePersists(w, stages);
    case See(_, _) => QuietPersists(env, w, act);
    case Request(_) => QuietPersists(env, w, act);
    case Others(_) => QuietPersists(env, w, act);
    case _ => ScalarPersists(env, w, act);
  }

  /** A dispatch gives one target a new attempt; the others persist. */
  lemma SendPersists(env: Env, w: World, s: nat, t: nat, step: nat, now: int)
    requires Balanced(w) && CanSend(w, s, t, step)
    ensures var w' := DoSend(w, s, t, step, now);
            && AllPersist(w, w', s, t) && w'.HasTarget(s, t)
            && var st', x' := w'.ro.stages[s], w'.ro.stages[s].targets[t];
               x'.currentAttempt == w.nextId && x'.epoch == w.ro.stages[s].targets[t].epoch + 1 &&
               NextAction(st', x').Some?
  {
    var w' := DoSend(w, s, t, step, now);
    Accounting.PutTouches(w, w', s, t, w'.ro.stages[s], w'.ro.stages[s].targets[t]);
    forall i, j | InRange(w.ro, i, j) && Busy(w'.at, w.ro.stages[i].targets[j])
      ensures Busy(w.at, w.ro.stages[i].targets[j])
    {
      assert TargetOk(w, i, j);
    }
    TouchPersists(w, w', s, t);
  }

  lemma SoleKept(w: World, w': World, s: int, t: int)
    requires Balanced(w) && Sole(w.ro) && AllPersist(w, w', s, t)
    requires InRange(w.ro, s, t) ==> CurrentOf(w'.ro, s, t) == w.nextId && w'.ro.stages[s].targets[t].epoch >= 1
    requires forall i, j :: InRange(w.ro, i, j) ==> w'.ro.stages[i].targets[j].epoch >= w.ro.stages[i].targets[j].epoch
    ensures Sole(w'.ro)
  {
    forall i, j | InRange(w'.ro, i, j) && CurrentOf(w'.ro, i, j) != 0 && !(i == s && j == t)
      ensures CurrentOf(w.ro, i, j) == CurrentOf(w'.ro, i, j) < w.nextId
    {
      assert Persists(w.at, w'.at, w.ro.stages[i], w.ro.stages[i].targets[j],
                      w'.ro.stages[i], w'.ro.stages[i].targets[j]);
      assert TargetOk(w, i, j);
    }
  }

  lemma StepKeepsSole(env: Env, w: World, act: Act)
    requires Inv(env, w) && Sole(w.ro) && Enabled(env, w, act)
    ensures Sole(Do(env, w, act).ro)
  {
    var w' := Do(env, w, act);
    if act.Renew? {
      FreshSole(w'.ro);
    } else {
      StepMoves(env, w, act);
      EpochsGrow(env, w, w', act.Begin?);
      if act.Send? {
        SendPersists(env, w, act.s, act.t, act.step, act.now);
        assert w' == DoSend(w, act.s, act.t, act.step, act.now);
        hide Balanced, Do, Enabled, Sole, AllPersist, Shaped, HonestInbox;
        SoleKept(w, w', act.s, act.t);
      } else {
        StepPersists(env, w, act);
        hide Balanced, Do, Enabled, Sole, AllPersist, Shaped, HonestInbox;
        SoleKept(w, w', -1, -1);
      }
    }
  }

  lemma EpochsGrow(env: Env, w: World, w': World, begins: bool)
    requires AllMoved(env, w, w', begins)
    ensures forall i, j :: InRange(w.ro, i, j) ==> w'.ro.stages[i].targets[j].epoch >= w.ro.stages[i].targets[j].epoch
  {
    forall i, j | InRange(w.ro, i, j) ensures w'.ro.stages[i].targets[j].epoch >= w.ro.stages[i].targets[j].epoch {
      assert Moved(env, w.ro.state, begins, w.ro.stages[i].targets[j], w'.ro.stages[i].targets[j]);
    }
  }

  lemma FreshSole(ro: Rollout)
    requires Planned(ro.stages)
    ensures Sole(ro)
    ensures forall i, j :: InRange(ro, i, j) ==> CurrentOf(ro, i, j) == 0
  {
    forall i, j | InRange(ro, i, j) ensures CurrentOf(ro, i, j) == 0 {
      assert UntouchedTarget(ro.stages[i].targets[j]);
    }
  }

  lemma ActionableKept(w: World, w': World, s: int, t: int)
    requires Actionable(w) && AllPersist(w, w', s, t)
    requires InRange(w.ro, s, t) ==> NextAction(w'.ro.stages[s], w'.ro.stages[s].targets[t]).Some?
    ensures Actionable(w')
  {
    forall i, j | InRange(w'.ro, i, j) && Busy(w'.at, w'.ro.stages[i].targets[j])
      ensures NextAction(w'.ro.stages[i], w'.ro.stages[i].targets[j]).Some?
    {
      if !(i == s && j == t) {
        assert Persists(w.at, w'.at, w.ro.stages[i], w.ro.stages[i].targets[j],
                        w'.ro.stages[i], w'.ro.stages[i].targets[j]);
      }
    }
  }

  lemma StepKeepsActionable(env: Env, w: World, act: Act)
    requires Inv(env, w) && Actionable(w) && Enabled(env, w, act)
    ensures Actionable(Do(env, w, act))
  {
    var w' := Do(env, w, act);
    if act.Renew? {
      FreshSole(w'.ro);
      assert 0 !in w'.at;
    } else if act.Send? {
      SendPersists(env, w, act.s, act.t, act.step, act.now);
      assert w' == DoSend(w, act.s, act.t, act.step, act.now);
      hide Balanced, Do, Enabled, Actionable, AllPersist, Shaped, HonestInbox;
      ActionableKept(w, w', act.s, act.t);
    } else {
      StepPersists(env, w, act);
      hide Balanced, Do, Enabled, Actionable, AllPersist, Shaped, HonestInbox;
      ActionableKept(w, w', -1, -1);
    }
  }

  /** What every snapshot a run can leave behind satisfies. */
  ghost predicate Restorable(env: Env, w: World) { Inv(env, w) && Sole(w.ro) && Actionable(w) }

  lemma {:induction false} RunKeepsRestorable(env: Env, w: World, acts: seq<Act>, w': World)
    requires Restorable(env, w) && Runs(env, w, acts, w')
    ensures Restorable(env, w')
    decreases |acts|
  {
    hide Inv, Sole, Actionable;
    if acts != [] {
      StepKeepsInv(env, w, acts[0]);
      StepKeepsSole(env, w, acts[0]);
      StepKeepsActionable(env, w, acts[0]);
      RunKeepsRestorable(env, Do(env, w, acts[0]), acts[1..], w');
    }
  }
}
