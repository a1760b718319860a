/** Whole runs of one rollout under an adversarial executor, and what holds in every world they reach. */
module Reachable {
  import opened Lifecycle
  import opened Rollouts
  import opened Dispatch
  import opened Machine
  import opened Books
  import opened Steps
  import opened Shape
  import opened Invariance
  import opened History
  import opened Evidence
  import opened Operations
  import opened Commands
  import opened Provenance
  import opened Moves
  import Accounting

  datatype Event =
    | OnArm(f: Fence)
    | OnStart(f: Fence)
    | OnPause(f: Fence, stops: nat -> bool)
    | OnResume(f: Fence)
    | OnAbort(f: Fence, stops: nat -> bool)
    | OnApprove(gate: nat, f: Fence, now: int)
    | OnRetire(f: Fence)
    | OnRegenerate(f: Fence, renewed: seq<Stage>, fits: nat -> bool)
    | OnEvidence(rec: Record)
    | OnTick(now: int, accept: nat -> bool)
    | OnReconcile(answers: seq<Answer>, now: int)
    | OnInventory(inventory: map<nat, Placement>)
    | Elsewhere(to: World)

  function Step(w: World, ev: Event): World {
    match ev
    case OnArm(f) => Arm(w, f).w
    case OnStart(f) => Start(w, f).w
    case OnPause(f, stops) => Pause(w, f, stops).w
    case OnResume(f) => Resume(w, f).w
    case OnAbort(f, stops) => Abort(w, f, stops).w
    case OnApprove(gate, f, now) => ApproveGate(w, gate, f, now).w
    case OnRetire(f) => Retire(w, f).w
    case OnRegenerate(f, renewed, fits) => Regenerate(w, f, renewed, fits).w
    case OnEvidence(rec) => w.(inbox := w.inbox + [rec])
    case OnTick(now, accept) => Tick(w, now, accept)
    case OnReconcile(answers, now) => Reconcile(w, answers, now)
    case OnInventory(inventory) => w.(cfg := w.cfg.(inventory := inventory))
    case Elsewhere(to) => to
  }

  /** What the outside owes: honest identities, answers to questions asked, plans that were validated. */
  ghost predicate Allowed(env: Env, w: World, ev: Event) {
    match ev
    case OnEvidence(rec) => Honest(env, w, rec)
    case OnReconcile(answers, now) => AnswersOk(env, w, answers, now)
    case OnRegenerate(_, renewed, fits) => Planned(Materialised(renewed, fits))
    case Elsewhere(to) => OthersOnly(w, to) && to.inbox == w.inbox
    case _ => true
  }

  /** A rollout as `create` leaves it: a validated plan, nothing dispatched, nothing on its way. */
  ghost predicate Fresh(w: World) {
    && w.ro.state.Validated? && w.ro.cursor == 0 && w.ro.outstanding == 0 && Planned(w.ro.stages)
    && w.nextId >= 1 && w.ro.generation < w.nextId && w.inbox == []
    && (forall id :: id in w.at ==> 0 < id < w.nextId && w.at[id].generation < w.nextId &&
                                    w.at[id].generation != w.ro.generation)
  }

  ghost predicate Happens(env: Env, w: World, events: seq<Event>, w': World)
    decreases |events|
  {
    if events == [] then w' == w
    else Allowed(env, w, events[0]) && Happens(env, Step(w, events[0]), events[1..], w')
  }

  /** Every invariant of the machine at once. */
  ghost predicate Sound(env: Env, w: World) {
    Inv(env, w) && Earned(env, w) && StillWhole(env, w) && Numbered(w.ro)
  }

  lemma FreshIsSound(env: Env, w: World)
    requires Fresh(w)
    ensures Sound(env, w)
  {
    assert LiveSet(w) == {};
    forall i: nat, j: nat | w.HasTarget(i, j) ensures TargetOk(w, i, j) {
      assert UntouchedTarget(w.ro.stages[i].targets[j]);
    }
    PlannedShaped(env, w.ro);
    PlannedEarns(env, w);
    forall i, j | 0 <= i < |w.ro.stages| && 0 <= j < |w.ro.stages[i].targets|
      ensures w.ro.stages[i].targets[j].epoch == w.ro.stages[i].targets[j].attemptsCreated
      ensures !Compensating(w.ro.stages[i].targets[j])
    {
      assert UntouchedTarget(w.ro.stages[i].targets[j]);
    }
  }

  /** Every event is a run of small steps. */
  lemma EventIsSteps(env: Env, w: World, ev: Event)
    requires Inv(env, w) && Allowed(env, w, ev)
    ensures Goes(env, w, Step(w, ev))
  {
    hide Inv;
    match ev
    case OnArm(f) => ArmGoes(env, w, f);
    case OnStart(f) => StartGoes(env, w, f);
    case OnPause(f, stops) => PauseGoes(env, w, f, stops);
    case OnResume(f) => ResumeGoes(env, w, f);
    case OnAbort(f, stops) => AbortGoes(env, w, f, stops);
    case OnApprove(gate, f, now) => ApproveGateGoes(env, w, gate, f, now);
    case OnRetire(f) => RetireGoes(env, w, f);
    case OnRegenerate(f, renewed, fits) => RegenerateGoes(env, w, f, renewed, fits);
    case OnEvidence(rec) => DeliverGoes(env, w, rec);
    case OnTick(now, accept) => TickGoes(env, w, now, accept);
    case OnReconcile(answers, now) => ReconcileGoes(env, w, answers, now);
    case OnInventory(inventory) => GoTune(env, w, Step(w, ev));
    case Elsewhere(to) => OthersGo(env, w, to);
  }

  lemma DeliverGoes(env: Env, w: World, rec: Record)
    requires Inv(env, w) && Honest(env, w, rec)
    ensures Goes(env, w, DoDeliver(w, rec))
  {
    GoOne(env, w, Deliver(rec));
    assert Do(env, w, Deliver(rec)) == DoDeliver(w, rec);
  }

  lemma OthersGo(env: Env, w: World, to: World)
    requires Inv(env, w) && OthersOnly(w, to) && to.inbox == w.inbox
    ensures Goes(env, w, to)
  {
    GoOne(env, w, Others(to));
    assert Do(env, w, Others(to)) == to;
  }

  lemma {:induction false} StepsKeepSound(env: Env, w: World, acts: seq<Act>, w': World)
    requires Sound(env, w) && Runs(env, w, acts, w')
    ensures Sound(env, w')
    decreases |acts|
  {
    if acts != [] {
      StepKeepsInv(env, w, acts[0]);
      StepKeepsEarned(env, w, acts[0]);
      StepKeepsWhole(env, w, acts[0]);
      StepKeepsNumbered(env, w, acts[0]);
      StepsKeepSound(env, Do(env, w, acts[0]), acts[1..], w');
    }
  }

  /** Any run of events is a run of small steps, and every invariant holds wherever it arrives. */
  lemma {:induction false} RunIsSteps(env: Env, w: World, events: seq<Event>, w': World)
    requires Sound(env, w) && Happens(env, w, events, w')
    ensures Sound(env, w') && Leads(env, w, w')
    decreases |events|
  {
    hide Inv;
    if events == [] {
      LeadsNowhere(env, w);
    } else {
      var w1 := Step(w, events[0]);
      EventIsSteps(env, w, events[0]);
      var acts :| Runs(env, w, acts, w1);
      StepsKeepSound(env, w, acts, w1);
      RunIsSteps(env, w1, events[1..], w');
      LeadsThen(env, w, w1, w');
    }
  }

  ghost predicate Attained(env: Env, w: World) {
    exists first, events :: Fresh(first) && Happens(env, first, events, w)
  }

  lemma {:induction false} HappensThen(env: Env, w: World, events: seq<Event>, w': World, ev: Event)
    requires Happens(env, w, events, w') && Allowed(env, w', ev)
    ensures Happens(env, w, events + [ev], Step(w', ev))
    decreases |events|
  {
    if events == [] {
      assert ([] + [ev])[1..] == [];
    } else {
      HappensThen(env, Step(w, events[0]), events[1..], w', ev);
      assert (events + [ev])[1..] == events[1..] + [ev];
    }
  }

  lemma FreshIsAttained(env: Env, w: World)
    requires Fresh(w)
    ensures Attained(env, w)
  {
    assert Happens(env, w, [], w);
  }

  lemma AttainedThen(env: Env, w: World, ev: Event)
    requires Attained(env, w) && Allowed(env, w, ev)
    ensures Attained(env, Step(w, ev))
  {
    hide Fresh;
    var first, events :| Fresh(first) && Happens(env, first, events, w);
    HappensThen(env, first, events, w, ev);
  }

  lemma AttainedIsSound(env: Env, w: World)
    requires Attained(env, w)
    ensures Sound(env, w)
  {
    var first, events :| Fresh(first) && Happens(env, first, events, w);
    FreshIsSound(env, first);
    RunIsSteps(env, first, events, w);
  }
}
