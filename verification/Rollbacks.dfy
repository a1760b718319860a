/** Rollbacks that cannot be finished, and the one way out of them; first, that a gate names one stage. */
module Rollbacks {
  import opened Lifecycle
  import opened Rollouts
  import opened Dispatch
  import opened Machine
  import opened Books
  import opened Steps
  import opened Shape
  import opened Invariance
  import opened History
  import opened Evidence
  import opened Operations
  import opened Commands
  import opened Reachable
  import opened Recovery
  import opened Restart
  import opened Endurance
  import opened Guarantees
  import opened Turns
  import opened Strandings

  // ----- gate identifiers -----

  /** No two stages wait at the same gate, and the next gate will be a new one. */
  ghost predicate GatesApart(w: World) {
    && (forall i :: 0 <= i < |w.ro.stages| ==> w.ro.stages[i].pendingGate < w.nextId)
    && (forall i, j :: 0 <= i < j < |w.ro.stages| && w.ro.stages[i].pendingGate != 0 ==>
          w.ro.stages[i].pendingGate != w.ro.stages[j].pendingGate)
  }

  /** Gates only go away. */
  ghost predicate NoNewGate(w: World, w': World) {
    && |w'.ro.stages| == |w.ro.stages| && w'.nextId >= w.nextId
    && forall i :: 0 <= i < |w.ro.stages| ==>
         w'.ro.stages[i].pendingGate == w.ro.stages[i].pendingGate || w'.ro.stages[i].pendingGate == 0
  }

  lemma TargetStepOpensNoGate(env: Env, w: World, act: Act)
    requires Enabled(env, w, act) && (act.Finish? || act.Observe? || act.Tune? || act.Begin?)
    ensures NoNewGate(w, Do(env, w, act))
  {
    hide VerdictFor;
    match act
    case Finish(s, t, id, cause) => VerdictKeepsPlace(w.ro.stages[s], w.ro.stages[s].targets[t], w.at[id], cause);
    case Observe(stages) => assert forall i :: 0 <= i < |stages| ==> ObservedOnly(w.ro.stages[i], stages[i]);
    case Tune(to) => assert forall i :: 0 <= i < |w.ro.stages| ==> TunedStage(w.ro.stages[i], to.ro.stages[i]);
    case _ =>
  }

  lemma StepOpensNoGate(env: Env, w: World, act: Act)
    requires Enabled(env, w, act) && !act.SetGate? && !act.Renew?
    ensures NoNewGate(w, Do(env, w, act))
  {
    if act.Finish? || act.Observe? || act.Tune? || act.Begin? {
      TargetStepOpensNoGate(env, w, act);
      hide Do, Enabled;
    }
  }

  lemma FewerGates(w: World, w': World)
    requires GatesApart(w) && NoNewGate(w, w')
    ensures GatesApart(w')
  {
  }

  lemma StepKeepsGates(env: Env, w: World, act: Act)
    requires GatesApart(w) && Enabled(env, w, act)
    ensures GatesApart(Do(env, w, act))
  {
    if act.SetGate? {
      assert Do(env, w, act) == DoSetGate(w, act.s, act.kind);
    } else if !act.Renew? {
      StepOpensNoGate(env, w, act);
      FewerGates(w, Do(env, w, act));
    }
  }

  lemma {:induction false} RunKeepsGates(env: Env, w: World, acts: seq<Act>, w': World)
    requires GatesApart(w) && Runs(env, w, acts, w')
    ensures GatesApart(w')
    decreases |acts|
  {
    hide GatesApart;
    if acts != [] {
      StepKeepsGates(env, w, acts[0]);
      RunKeepsGates(env, Do(env, w, acts[0]), acts[1..], w');
    }
  }

  lemma RestartKeepsGates(env: Env, w: World, b: World, previous: nat)
    requires Solid(env, w) && GatesApart(w) && Blank(b, w)
    ensures GatesApart(Restored(b, w, previous))
  {
    var r := Restored(b, w, previous);
    RestoredBalances(w, b, previous);
    hide Balanced, Sole, Restored, Shaped, HonestInbox, Actionable;
    forall i | 0 <= i < |w.ro.stages| ensures r.ro.stages[i].pendingGate == w.ro.stages[i].pendingGate {
      StagesRestored(w, b, previous, i);
    }
    FewerGates(w, r);
  }

  lemma {:induction false} LifeKeepsGates(env: Env, w: World, restarts: nat, w': World)
    requires Solid(env, w) && GatesApart(w) && Lives(env, w, restarts, w')
    ensures GatesApart(w')
    decreases restarts
  {
    hide Solid, Restored, Blank, GatesApart;
    if restarts == 0 {
      var acts :| Runs(env, w, acts, w');
      RunKeepsGates(env, w, acts, w');
    } else {
      var mid, b, previous :|
        TakesOver(env, w, mid, b) && Lives(env, Restored(b, mid, previous), restarts - 1, w');
      var acts :| Runs(env, w, acts, mid);
      RunKeepsSolid(env, w, acts, mid);
      RunKeepsGates(env, w, acts, mid);
      RestartKeepsSolid(env, mid, b, previous);
      RestartKeepsGates(env, mid, b, previous);
      LifeKeepsGates(env, Restored(b, mid, previous), restarts - 1, w');
    }
  }

  /** Gate identifiers are unique: an approval names at most one stage. */
  lemma GateNamesOneStage(env: Env, w: World, s: nat)
    requires Enduring(env, w) && w.HasStage(s) && w.ro.stages[s].pendingGate != 0
    ensures FindGate(w.ro.stages, w.ro.stages[s].pendingGate) == s
  {
    hide Solid, Lives;
    var first, restarts: nat :| Fresh(first) && Lives(env, first, restarts, w);
    FreshIsSolid(env, first);
    assert GatesApart(first);
    LifeKeepsGates(env, first, restarts, w);
  }

  // ----- a rollback that cannot be finished -----

  /** Nothing rolls back any more, and some stage can never be counted as rolled back. */
  ghost predicate Cut(ro: Rollout) {
    && ro.state.RollingBack? && NoneRollingBack(ro)
    && exists i :: 0 <= i < |ro.stages| && Unsettled(ro.stages[i])
  }

  predicate Unsettled(st: Stage) { st.state.StPending? || st.state.StSkipped? }

  lemma CutIff(ro: Rollout)
    requires Phased(ro) && ro.state.RollingBack? && NoneRollingBack(ro)
    ensures Cut(ro) <==> !StoppedAtLast(ro)
  {
    UnwindingSettles(ro);
    if !StoppedAtLast(ro) {
      var i :| 0 <= i < |ro.stages| &&
        !(ro.stages[i].state.StRolledBack? || LegalStage(ro.stages[i].state, StRolledBack));
      assert Unsettled(ro.stages[i]);
    }
  }

  /** Approving this stage's entry gate makes the controller look at its predecessors once more. */
  predicate Backdoor(st: Stage) {
    && st.pendingGate != 0 && st.pendingGateKind.EntryGate?
    && st.policy.requirePredecessorsSucceeded && st.predecessors != []
  }

  predicate Sealed(ro: Rollout) { forall i :: 0 <= i < |ro.stages| ==> !Backdoor(ro.stages[i]) }

  lemma StaysCut(ro: Rollout, ro': Rollout)
    requires Cut(ro) && Stays(ro, ro')
    ensures Cut(ro') && (Sealed(ro) ==> Sealed(ro'))
  {
    var i :| 0 <= i < |ro.stages| && Unsettled(ro.stages[i]);
    assert StaysStage(ro.stages[i], ro'.stages[i]) && Unsettled(ro'.stages[i]);
    forall a, b | 0 <= a < |ro'.stages| && 0 <= b < |ro'.stages[a].targets|
      ensures !ro'.stages[a].targets[b].state.TRollingBack?
    {
      assert StaysStage(ro.stages[a], ro'.stages[a]);
      assert !ro.stages[a].targets[b].state.TRollingBack?;
    }
    if Sealed(ro) {
      forall a | 0 <= a < |ro'.stages| ensures !Backdoor(ro'.stages[a]) {
        assert StaysStage(ro.stages[a], ro'.stages[a]) && !Backdoor(ro.stages[a]);
      }
    }
  }

  lemma {:induction false} NoTargetRollsBack(w: World, s: nat, t: nat, now: int, accept: nat -> bool)
    requires NoneRollingBack(w.ro) && w.HasStage(s) && t <= |w.ro.stages[s].targets|
    ensures RollBackTargets(w, s, t, now, accept) == w
    decreases |w.ro.stages[s].targets| - t
  {
    if t < |w.ro.stages[s].targets| {
      NoTargetRollsBack(w, s, t + 1, now, accept);
    }
  }

  lemma {:induction false} NoStageRollsBack(w: World, s: nat, now: int, accept: nat -> bool)
    requires NoneRollingBack(w.ro) && s <= |w.ro.stages|
    ensures RollBackStages(w, s, now, accept) == w
    decreases |w.ro.stages| - s
  {
    if s < |w.ro.stages| {
      NoTargetRollsBack(w, s, 0, now, accept);
      NoStageRollsBack(w, s + 1, now, accept);
    }
  }

  /** Settling changes only stage states, only to rolled back, from the first on until one cannot. */
  ghost predicate SettledFrom(ro: Rollout, ro': Rollout, s: nat) {
    && |ro'.stages| == |ro.stages| && ro' == ro.(stages := ro'.stages, revision := ro'.revision)
    && (forall i :: 0 <= i < |ro.stages| ==>
          && ro'.stages[i] == ro.stages[i].(state := ro'.stages[i].state)
          && (ro'.stages[i].state == ro.stages[i].state ||
              (ro'.stages[i].state.StRolledBack? && !Unsettled(ro.stages[i]))))
    && (forall i :: s <= i < |ro.stages| && (forall k :: s <= k <= i ==> SettlesStage(ro.stages[k])) ==>
          ro'.stages[i].state.StRolledBack?)
  }

  predicate SettlesStage(st: Stage) { st.state.StRolledBack? || LegalStage(st.state, StRolledBack) }

  lemma {:induction false} SettleKeeps(w: World, s: nat)
    requires s <= |w.ro.stages|
    ensures SettledFrom(w.ro, SettleStages(w, s).w.ro, s)
    decreases |w.ro.stages| - s
  {
    if s < |w.ro.stages| {
      var r := StageTransition(w, s, StRolledBack);
      if r.ok {
        SettleKeeps(r.w, s + 1);
        SettledMore(w.ro, r.w.ro, SettleStages(r.w, s + 1).w.ro, s);
      }
      hide SettledFrom;
      assert SettledFrom(w.ro, w.ro, s) <== !r.ok by { NoneSettled(w.ro, s); }
    }
  }

  lemma NoneSettled(ro: Rollout, s: nat)
    requires s < |ro.stages|
    ensures !SettlesStage(ro.stages[s]) ==> SettledFrom(ro, ro, s)
  {
  }

  lemma SettledMore(ro: Rollout, mid: Rollout, ro': Rollout, s: nat)
    requires s < |ro.stages| && SettlesStage(ro.stages[s])
    requires mid == ro.(stages := ro.stages[s := ro.stages[s].(state := StRolledBack)], revision := mid.revision)
    requires SettledFrom(mid, ro', s + 1)
    ensures SettledFrom(ro, ro', s)
  {
    assert forall i :: 0 <= i < |ro.stages| && i != s ==> mid.stages[i] == ro.stages[i];
    forall i | s <= i < |ro.stages| && (forall k :: s <= k <= i ==> SettlesStage(ro.stages[k]))
      ensures ro'.stages[i].state.StRolledBack?
    {
      if i > s {
        assert forall k :: s + 1 <= k <= i ==> SettlesStage(mid.stages[k]);
      }
    }
  }

  lemma SettledCut(ro: Rollout, ro': Rollout)
    requires Cut(ro) && SettledFrom(ro, ro', 0)
    ensures Cut(ro') && (Sealed(ro) ==> Sealed(ro'))
  {
    var i :| 0 <= i < |ro.stages| && Unsettled(ro.stages[i]);
    assert Unsettled(ro'.stages[i]);
    if Sealed(ro) {
      forall a | 0 <= a < |ro'.stages| ensures !Backdoor(ro'.stages[a]) {
        assert !Backdoor(ro.stages[a]);
      }
    }
  }

  /** The rollback pass finds nothing to do, and settling meets the stage that cannot settle. */
  lemma CutNeverSettles(w: World, now: int, accept: nat -> bool)
    requires Cut(w.ro)
    ensures FinishRollback(RollBackStages(w, 0, now, accept)) == SettleStages(w, 0) && !SettleStages(w, 0).ok
    ensures SettledFrom(w.ro, SettleStages(w, 0).w.ro, 0)
  {
    NoStageRollsBack(w, 0, now, accept);
    SettlesIff(w, 0);
    SettleKeeps(w, 0);
    var i :| 0 <= i < |w.ro.stages| && Unsettled(w.ro.stages[i]);
    FinishWhenSettled(w);
  }

  /** A tick takes in evidence and settles what can be settled. */
  lemma CutTick(w: World, d: World, now: int, accept: nat -> bool)
    requires Cut(w.ro) && !w.halted && d == Drain(w.(inbox := []), w.inbox, now)
    ensures Unmoved(w.ro, d.ro) && Cut(d.ro) && (Sealed(w.ro) ==> Sealed(d.ro))
    ensures SettledFrom(d.ro, Tick(w, now, accept).ro, 0)
  {
    DrainMovesNothing(w.(inbox := []), w.inbox, now);
    UnmovedStays(w.ro, d.ro);
    StaysCut(w.ro, d.ro);
    CutNeverSettles(d, now, accept);
    hide Drain, FinishRollback, RollBackStages, SettleStages, Unmoved, Stays, SettledFrom, Sealed;
  }

  lemma {:induction false} RefusalNeedsPredecessors(stages: seq<Stage>, st: Stage, predecessors: seq<nat>)
    ensures CheckPredecessors(stages, st, predecessors).Refused? ==>
              st.policy.requirePredecessorsSucceeded && predecessors != []
  {
    if predecessors != [] {
      RefusalNeedsPredecessors(stages, st, predecessors[1..]);
    }
  }

  lemma EndedBegins(w: World, s: nat)
    requires w.HasStage(s) && w.ro.stages[s].state.Terminal()
    ensures var st := w.ro.stages[s];
            if CheckPredecessors(w.ro.stages, st, st.predecessors).Refused? then BeginStage(w, s) == FailRollout(w)
            else BeginStage(w, s).w == w
  {
    hide CheckPredecessors, FailRollout;
  }

  lemma EndedPasses(w: World, s: nat)
    requires w.HasStage(s) && w.ro.stages[s].state.Terminal()
    ensures PassGates(w, s).w == w
  {
  }

  lemma ApproveCut(env: Env, w: World, gate: nat, f: Fence, now: int)
    requires Enduring(env, w) && Cut(w.ro) && Sealed(w.ro)
    ensures var ro' := ApproveGate(w, gate, f, now).w.ro;
            Cut(ro') && Sealed(ro') && ro'.generation == w.ro.generation
  {
    hide Enduring;
    EnduringIsSolid(env, w);
    var s := FindGate(w.ro.stages, gate);
    StaysSame(w.ro);
    if Fenced(w.ro, f) && s < |w.ro.stages| {
      WhereGatesAre(w.ro, s);
      hide Solid;
      var open := PutStage(w, s, w.ro.stages[s].(pendingGate := 0));
      EndedBegins(open, s);
      EndedPasses(open, s);
      RefusalNeedsPredecessors(open.ro.stages, open.ro.stages[s], open.ro.stages[s].predecessors);
      assert !Backdoor(w.ro.stages[s]);
      hide BeginStage, PassGates, CheckPredecessors;
      StaysCut(w.ro, open.ro);
    }
    hide Cut, FindGate, Sealed;
  }

  lemma CutTurn(env: Env, w: World, turn: Turn)
    requires Enduring(env, w) && Cut(w.ro) && Sealed(w.ro) && Permitted(env, w, turn)
    ensures var ro' := Turned(w, turn).ro; Cut(ro') && Sealed(ro') && ro'.generation == w.ro.generation
  {
    hide Enduring, Step, Restored, Blank, Allowed, ApproveGate, Sealed;
    match turn
    case Occurs(ev) =>
      if ev.OnApprove? {
        ApproveCut(env, w, ev.gate, ev.f, ev.now);
        ApprovalIs(w, ev);
      } else if ev.OnTick? {
        TickCut(w, ev.now, ev.accept);
        TickIs(w, ev);
      } else {
        RefusedStays(env, w, ev);
        StaysCut(w.ro, Step(w, ev).ro);
      }
    case Restarts(b, previous) =>
      RestartStays(env, w, b, previous);
      StaysCut(w.ro, Restored(b, w, previous).ro);
  }

  lemma TickIs(w: World, ev: Event)
    requires ev.OnTick?
    ensures Step(w, ev) == Tick(w, ev.now, ev.accept)
  {
    hide Tick;
  }

  lemma TickCut(w: World, now: int, accept: nat -> bool)
    requires Cut(w.ro) && Sealed(w.ro)
    ensures var ro' := Tick(w, now, accept).ro; Cut(ro') && Sealed(ro') && ro'.generation == w.ro.generation
  {
    if !w.halted {
      var d := Drain(w.(inbox := []), w.inbox, now);
      CutTick(w, d, now, accept);
      hide Drain, Tick, Cut;
      SettledCut(d.ro, Tick(w, now, accept).ro);
    }
  }

  lemma {:induction false} CutForever(env: Env, w: World, turns: seq<Turn>, w': World)
    requires Enduring(env, w) && Cut(w.ro) && Sealed(w.ro) && Passes(env, w, turns, w')
    ensures w'.ro.state.RollingBack? && w'.ro.generation == w.ro.generation
    decreases |turns|
  {
    hide Enduring, Sealed, Turned, Permitted;
    if turns != [] {
      TurnEndures(env, w, turns[0]);
      CutTurn(env, w, turns[0]);
      CutForever(env, Turned(w, turns[0]), turns[1..], w');
    }
  }

  /** The stages before the one that stopped the rollout are rolled back by a tick. */
  lemma EarlierSettle(ro: Rollout, ro': Rollout, p: nat)
    requires Unwinding(ro) && SettledFrom(ro, ro', 0) && p < ro.cursor && p < |ro.stages|
    ensures ro'.stages[p].state.StRolledBack?
  {
    assert forall k :: 0 <= k <= p ==> SettlesStage(ro.stages[k]);
  }

  lemma UnmovedUnwinding(ro: Rollout, ro': Rollout)
    requires Unwinding(ro) && NoneRollingBack(ro) && NoneRollingBack(ro') && Unmoved(ro, ro')
    ensures Unwinding(ro')
  {
    forall i | 0 <= i < |ro.stages|
      ensures ro'.stages[i].state == ro.stages[i].state && ro'.stages[i].pendingGate == ro.stages[i].pendingGate
    {
      assert UnmovedStage(ro.stages[i], ro'.stages[i]);
    }
  }

  /** An ended stage with such a gate, and its first predecessor counted as rolled back. */
  predicate Ajar(ro: Rollout, s: nat) {
    && s < |ro.stages| && ro.state.RollingBack? && ro.stages[s].state.Terminal() && Backdoor(ro.stages[s])
    && var p := FindStage(ro.stages, ro.stages[s].predecessors[0]);
       p < s && ro.stages[p].state.StRolledBack?
  }

  lemma SettlingKeeps(ro: Rollout, d: Rollout, ro': Rollout, i: nat)
    requires i < |ro.stages| && Unmoved(ro, d) && SettledFrom(d, ro', 0)
    ensures |ro'.stages| == |ro.stages| && ro'.state == ro.state
    ensures var st, st' := ro.stages[i], ro'.stages[i];
            && st'.id == st.id && st'.predecessors == st.predecessors && st'.policy == st.policy
            && st'.pendingGate == st.pendingGate && st'.pendingGateKind == st.pendingGateKind
            && (st.state.Terminal() ==> st'.state.Terminal())
  {
    assert UnmovedStage(ro.stages[i], d.stages[i]);
  }

  lemma BackdoorIsEnded(ro: Rollout, s: nat)
    requires Phased(ro) && ro.state.RollingBack? && s < |ro.stages| && Backdoor(ro.stages[s])
    ensures ro.stages[s].state.Terminal() && s <= ro.cursor && Unwinding(ro)
    ensures FindStage(ro.stages, ro.stages[s].predecessors[0]) < s
  {
    WhereGatesAre(ro, s);
    PredecessorIsEarlier(ro.stages, s, 0);
  }

  lemma SettlingOpens(ro: Rollout, d: Rollout, ro': Rollout, s: nat)
    requires Phased(ro) && Cut(ro) && s < |ro.stages| && Backdoor(ro.stages[s])
    requires Unmoved(ro, d) && Cut(d) && SettledFrom(d, ro', 0)
    ensures Ajar(ro', s) && ro'.stages[s].pendingGate == ro.stages[s].pendingGate
  {
    hide Phased, FindStage, Unwinding, SettledFrom, UnmovedStage;
    BackdoorIsEnded(ro, s);
    UnmovedUnwinding(ro, d);
    EarlierSettle(d, ro', FindStage(ro.stages, ro.stages[s].predecessors[0]));
    forall i: nat | i < |ro.stages|
      ensures |ro'.stages| == |ro.stages| && ro'.stages[i].id == ro.stages[i].id
    {
      SettlingKeeps(ro, d, ro', i);
    }
    SettlingKeeps(ro, d, ro', s);
    SameFind(ro.stages, ro'.stages, ro.stages[s].predecessors[0]);
  }

  lemma BackdoorAfterTick(env: Env, w: World, s: nat, now: int, accept: nat -> bool)
    requires Enduring(env, w) && Cut(w.ro) && !w.halted && w.HasStage(s) && Backdoor(w.ro.stages[s])
    ensures Ajar(Tick(w, now, accept).ro, s)
    ensures Tick(w, now, accept).ro.stages[s].pendingGate == w.ro.stages[s].pendingGate
  {
    var d := Drain(w.(inbox := []), w.inbox, now);
    EnduringIsSolid(env, w);
    CutTick(w, d, now, accept);
    hide Enduring, Balanced, Drain, Tick, Unmoved, SettledFrom, Cut, Ajar, Phased;
    SettlingOpens(w.ro, d.ro, Tick(w, now, accept).ro, s);
  }

  lemma AjarFails(w: World, s: nat, now: int)
    requires Ajar(w.ro, s) && FindGate(w.ro.stages, w.ro.stages[s].pendingGate) == s
    ensures ApproveGate(w, w.ro.stages[s].pendingGate, Fence(None, None), now).w.ro.state.Failed?
  {
    var open := PutStage(w, s, w.ro.stages[s].(pendingGate := 0));
    SameFind(w.ro.stages, open.ro.stages, w.ro.stages[s].predecessors[0]);
    hide FindStage, FindGate;
    assert CheckPredecessors(open.ro.stages, open.ro.stages[s], open.ro.stages[s].predecessors).Refused?;
    EndedBegins(open, s);
    hide BeginStage, CheckPredecessors;
  }

  /** A tick settles the earlier stages, and then approving a stale entry gate fails the rollout after all. */
  lemma BackdoorOpens(env: Env, w: World, s: nat, now: int, accept: nat -> bool)
    requires Enduring(env, w) && Cut(w.ro) && !w.halted && w.HasStage(s) && Backdoor(w.ro.stages[s])
    ensures ApproveGate(Tick(w, now, accept), w.ro.stages[s].pendingGate, Fence(None, None), now).w.ro.state.Failed?
  {
    BackdoorAfterTick(env, w, s, now, accept);
    TurnEndures(env, w, Occurs(OnTick(now, accept)));
    TickIs(w, OnTick(now, accept));
    hide Enduring, Tick, Cut, Step, ApproveGate, FindGate;
    var w1 := Tick(w, now, accept);
    GateNamesOneStage(env, w1, s);
    AjarFails(w1, s, now);
  }

  lemma {:induction false} TargetsKeepHalted(w: World, s: nat, t: nat, previous: nat)
    requires w.HasStage(s) && t <= |w.ro.stages[s].targets|
    ensures RestoreTargets(w, s, t, previous).halted == w.halted
    decreases |w.ro.stages[s].targets| - t
  {
    if t < |w.ro.stages[s].targets| {
      TargetsKeepHalted(RestoreTarget(w, s, t, previous), s, t + 1, previous);
    }
  }

  lemma {:induction false} StagesKeepHalted(w: World, s: nat, previous: nat)
    requires s <= |w.ro.stages|
    ensures RestoreStages(w, s, previous).halted == w.halted
    decreases |w.ro.stages| - s
  {
    if s < |w.ro.stages| {
      TargetsKeepHalted(w, s, 0, previous);
      StagesKeepHalted(RestoreTargets(w, s, 0, previous), s + 1, previous);
    }
  }

  /** A controller that starts anew. */
  function Anew(w: World): World { w.(at := map[], order := [], inbox := [], halted := false) }

  lemma RestartOpens(env: Env, w: World, s: nat)
    requires Enduring(env, w) && Cut(w.ro) && w.HasStage(s) && Backdoor(w.ro.stages[s])
    ensures var r := Restored(Anew(w), w, 0);
            && Blank(Anew(w), w) && Enduring(env, r) && Cut(r.ro) && !r.halted
            && r.HasStage(s) && Backdoor(r.ro.stages[s])
  {
    var b := Anew(w);
    RestartEndures(env, w, b, 0);
    RestartStays(env, w, b, 0);
    StaysCut(w.ro, Restored(b, w, 0).ro);
    StagesKeepHalted(Restart.Start(b, w), 0, 0);
    EnduringIsSolid(env, w);
    hide Enduring, Balanced, Sole, Actionable, Shaped, HonestInbox, RestoreStages, Cut, Stays;
    StagesRestored(w, b, 0, s);
  }

  lemma PassesTwo(env: Env, w: World, a: Event, b: Event)
    requires Allowed(env, w, a) && Allowed(env, Step(w, a), b)
    ensures Passes(env, w, [Occurs(a), Occurs(b)], Step(Step(w, a), b))
  {
    hide Step, Allowed;
    var turns := [Occurs(a), Occurs(b)];
    assert turns[1..] == [Occurs(b)] && turns[1..][1..] == [];
    assert Passes(env, Step(Step(w, a), b), [], Step(Step(w, a), b));
    assert Passes(env, Step(w, a), turns[1..], Step(Step(w, a), b));
  }

  lemma PassesAfter(env: Env, w: World, b: World, turns: seq<Turn>, w': World)
    requires Blank(b, w) && Passes(env, Restored(b, w, 0), turns, w')
    ensures Passes(env, w, [Restarts(b, 0)] + turns, w')
  {
    hide Restored, Blank;
    var all := [Restarts(b, 0)] + turns;
    assert all[1..] == turns && all[0] == Restarts(b, 0);
  }

  /** The way out, through a restart if the controller has halted. */
  lemma WayOut(env: Env, w: World, s: nat) returns (turns: seq<Turn>, w': World)
    requires Enduring(env, w) && Cut(w.ro) && w.HasStage(s) && Backdoor(w.ro.stages[s])
    ensures Passes(env, w, turns, w') && w'.ro.state.Failed?
  {
    if w.halted {
      hide *;
      RestartOpens(env, w, s);
      var r := Restored(Anew(w), w, 0);
      var rest, end := WayOutOfTick(env, r, s);
      PassesAfter(env, w, Anew(w), rest, end);
      turns, w' := [Restarts(Anew(w), 0)] + rest, end;
    } else {
      hide *;
      turns, w' := WayOutOfTick(env, w, s);
    }
  }

  lemma WayOutOfTick(env: Env, w: World, s: nat) returns (turns: seq<Turn>, w': World)
    requires Enduring(env, w) && Cut(w.ro) && !w.halted && w.HasStage(s) && Backdoor(w.ro.stages[s])
    ensures Passes(env, w, turns, w') && w'.ro.state.Failed?
  {
    BackdoorOpens(env, w, s, 0, Yes());
    var tick, approve := OnTick(0, Yes()), OnApprove(w.ro.stages[s].pendingGate, Fence(None, None), 0);
    TickIs(w, tick);
    ApprovalIs(Step(w, tick), approve);
    hide Step, Tick, ApproveGate, Enduring, Passes;
    PassesTwo(env, w, tick, approve);
    turns, w' := [Occurs(tick), Occurs(approve)], Step(Step(w, tick), approve);
  }

  function Yes(): nat -> bool { _ => true }

  /**
   * A rollback that has nothing left to undo and whose stopping stage is not the last one, or never began, keeps
   * the rollout rolling back in its generation through all events and restarts, if and only if no stage of it holds
   * the entry gate of a stage that demands its predecessors' success. Approving such a gate is the only way out.
   */
  lemma RollbackIsStuckIff(env: Env, w: World)
    requires Enduring(env, w) && w.ro.state.RollingBack? && NoneRollingBack(w.ro) && !StoppedAtLast(w.ro)
    ensures (forall turns, w' :: Passes(env, w, turns, w') ==>
               w'.ro.state.RollingBack? && w'.ro.generation == w.ro.generation) <==>
            Sealed(w.ro)
  {
    EnduringIsSolid(env, w);
    CutIff(w.ro);
    hide Enduring, Solid, Cut, Passes, Backdoor;
    if Sealed(w.ro) {
      forall turns, w' | Passes(env, w, turns, w')
        ensures w'.ro.state.RollingBack? && w'.ro.generation == w.ro.generation
      {
        CutForever(env, w, turns, w');
      }
    } else {
      var s :| 0 <= s < |w.ro.stages| && Backdoor(w.ro.stages[s]);
      var turns, w' := WayOut(env, w, s);
    }
  }
}
