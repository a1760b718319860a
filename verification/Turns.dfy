/** The life of a rollout turn by turn, events and restarts in any order, and turns that decide nothing. */
module Turns {
  import opened Lifecycle
  import opened Rollouts
  import opened Dispatch
  import opened Machine
  import opened Books
  import opened Steps
  import opened Shape
  import opened Invariance
  import opened History
  import opened Evidence
  import opened Operations
  import opened Commands
  import opened Reachable
  import opened Recovery
  import opened Restart
  import opened Endurance
  import opened Guarantees
  import Accounting

  // ----- lives of a rollout, turn by turn -----

  datatype Turn = Occurs(ev: Event) | Restarts(b: World, previous: nat)

  function Turned(w: World, turn: Turn): World {
    match turn
    case Occurs(ev) => Step(w, ev)
    case Restarts(b, previous) => Restored(b, w, previous)
  }

  ghost predicate Permitted(env: Env, w: World, turn: Turn) {
    match turn
    case Occurs(ev) => Allowed(env, w, ev)
    case Restarts(b, _) => Blank(b, w)
  }

  /** Events and restarts in any order. */
  ghost predicate Passes(env: Env, w: World, turns: seq<Turn>, w': World)
    decreases |turns|
  {
    if turns == [] then w' == w
    else Permitted(env, w, turns[0]) && Passes(env, Turned(w, turns[0]), turns[1..], w')
  }

  lemma TurnEndures(env: Env, w: World, turn: Turn)
    requires Enduring(env, w) && Permitted(env, w, turn)
    ensures Enduring(env, Turned(w, turn))
  {
    hide Enduring, Step, Restored, Blank, Allowed;
    match turn
    case Occurs(ev) => EventEndures(w, ev);
    case Restarts(b, previous) => RestartEndures(env, w, b, previous);
  }

  /** Of a stage nothing an operator decides by differs, but that its gate may be gone. */
  ghost predicate StaysStage(st: Stage, st': Stage) {
    && st'.id == st.id && st'.state == st.state && st'.policy == st.policy && st'.predecessors == st.predecessors
    && st'.frozen == st.frozen && |st'.targets| == |st.targets|
    && (st'.pendingGate == st.pendingGate || st'.pendingGate == 0) && st'.pendingGateKind == st.pendingGateKind
    && forall j :: 0 <= j < |st.targets| && st'.targets[j].state.TRollingBack? ==> st.targets[j].state.TRollingBack?
  }

  ghost predicate Stays(ro: Rollout, ro': Rollout) {
    && ro'.state == ro.state && ro'.cursor == ro.cursor && ro'.generation == ro.generation
    && |ro'.stages| == |ro.stages|
    && forall i :: 0 <= i < |ro.stages| ==> StaysStage(ro.stages[i], ro'.stages[i])
  }

  lemma UnmovedStays(ro: Rollout, ro': Rollout)
    requires Unmoved(ro, ro')
    ensures Stays(ro, ro')
  {
    forall i | 0 <= i < |ro.stages| ensures StaysStage(ro.stages[i], ro'.stages[i]) {
      assert UnmovedStage(ro.stages[i], ro'.stages[i]);
    }
  }

  lemma RestartStays(env: Env, w: World, b: World, previous: nat)
    requires Enduring(env, w) && Blank(b, w)
    ensures Stays(w.ro, Restored(b, w, previous).ro)
  {
    EnduringIsSolid(env, w);
    RestoredBalances(w, b, previous);
    hide Enduring, Balanced, Sole, Restored, Blank, Actionable;
    forall i | 0 <= i < |w.ro.stages| ensures StaysStage(w.ro.stages[i], Restored(b, w, previous).ro.stages[i]) {
      StagesRestored(w, b, previous, i);
    }
  }

  lemma StaysSame(ro: Rollout)
    ensures Stays(ro, ro)
  {
  }

  /** A tick of a rollout that neither admits work nor rolls back only takes in evidence. */
  lemma IdleTickStays(w: World, now: int, accept: nat -> bool)
    requires !w.ro.state.AdmitsDispatch() && !w.ro.state.RollingBack?
    ensures Stays(w.ro, Tick(w, now, accept).ro)
  {
    DrainMovesNothing(w.(inbox := []), w.inbox, now);
    UnmovedStays(w.ro, Drain(w.(inbox := []), w.inbox, now).ro);
    StaysSame(w.ro);
    hide Drain, Stays;
  }

  /** An aborting rollout, and one that rolls back, refuses every command but approvals. */
  lemma RefusedStays(env: Env, w: World, ev: Event)
    requires w.ro.state.Aborting? || (w.ro.state.RollingBack? && !ev.OnTick?)
    requires Allowed(env, w, ev) && !ev.OnApprove?
    ensures Stays(w.ro, Step(w, ev).ro)
  {
    StaysSame(w.ro);
    match ev
    case OnTick(now, accept) => IdleTickStays(w, now, accept); hide Tick, Stays;
    case OnReconcile(answers, now) =>
      ReconcileMovesNothing(w, answers, now);
      hide Reconcile, Unmoved, Stays;
      UnmovedStays(w.ro, Reconcile(w, answers, now).ro);
    case _ => hide Stays;
  }
}
