/**
 * Closed runs into the worlds where an operation fails: each starts at a new rollout of one stage with one
 * target, perhaps with a second stage behind it, and takes a handful of events.
 */
module Witnesses {
  import opened Lifecycle
  import opened Exact
  import opened Rollouts
  import opened Dispatch
  import opened Machine
  import opened Books
  import opened Steps
  import opened Shape
  import opened Invariance
  import opened Evidence
  import opened Moves
  import opened Reachable
  import opened Recovery
  import opened Restart
  import opened Guarantees
  import opened Turns
  import Gates
  import Radius
  import Rollbacks
  import Strandings

  // ----- the plan -----

  function Idle(id: nat): Target {
    Target(id, Pending, 0, 0, 0, 0, 0, 0, 0, false, 0, 0, 0, false, 0, 0, false, 0, OutInconclusive, 0)
  }

  /** One target at a time, one attempt each, evidence approved by hand after `soak`, two compensation steps. */
  function Rules(soak: nat): Policy {
    var none := Ratio(0, 1);
    Policy(1, none, 0, none, 0, false, HealthGatePolicy(false, 0, 0, 0, none, 0, none),
           EvidenceGatePolicy(Manual, soak, 0, 0, 0, none, true), Automatic, Automatic,
           BlastRadius(1, 1, 1, 1, 1, 1, 1), 100, 1, 0, StopInFlight, true, [2, 2], true)
  }

  function Piece(id: nat, target: nat, soak: nat): Stage {
    Stage(id, StPending, [], Rules(soak), true, [Action(1, Primary), Action(2, Compensate)], false, [Idle(target)],
          0, 0, 0, 0, 0, 0, 0, 0, false, 0, 0, EntryGate)
  }

  function Setting(): Config {
    Config(1, 10, 100, 0, 1, true, false, 0, map[10 := Placement(1, 0, 0, 0), 20 := Placement(2, 0, 0, 0)])
  }

  /** What stands behind the first stage: nothing, or a second stage. */
  function Next(second: bool, frozen: bool): seq<Stage> {
    if second then [Piece(2, 20, 0).(frozen := frozen)] else []
  }

  function New(soak: nat, second: bool): World {
    World(Setting(), Rollout(1, 1, 0, Validated, Validated, [Piece(1, 10, soak)] + Next(second, false), 0, 0, 0),
          map[], [], 2, [], false)
  }

  /** The executor may report anything well-formed. */
  ghost predicate Hears(env: Env) { forall rec: Record :: rec.wellFormed ==> rec in env.heard }

  function Anyone(): Fence { Fence(None, None) }

  function Yes(): nat -> bool { _ => true }

  // ----- the runs -----

  function AfterArm(soak: nat, second: bool): World { Step(New(soak, second), OnArm(Anyone())) }

  function AfterStart(soak: nat, second: bool): World { Step(AfterArm(soak, second), OnStart(Anyone())) }

  function AfterBegin(soak: nat, second: bool): World { Step(AfterStart(soak, second), OnTick(1, Yes())) }

  function AfterSend(soak: nat, second: bool): World { Step(AfterBegin(soak, second), OnTick(1, Yes())) }

  function Report(): Record {
    Record(true, 1, 1, 1, 10, 2, 1, 1, ExecutionCompleted, OutSucceeded, 1, 1, true, 0, 0)
  }

  function AfterReport(soak: nat): World { Step(Step(AfterSend(soak, false), OnEvidence(Report())), OnTick(2, Yes())) }

  // ----- what the worlds of these runs look like -----

  predicate First(st: Stage, soak: nat, at: StageState, x: Target) {
    && st.id == 1 && st.state == at && st.policy == Rules(soak) && st.actions == Piece(1, 10, soak).actions
    && st.predecessors == [] && st.requireVerification && st.frozen && st.targets == [x]
    && st.soakStartedAt == (if at.StSoaking? then 2 else 0)
    && st.pendingGate == (if at.StGated? then 3 else 0) && (at.StGated? ==> st.pendingGateKind.EvidenceGate?)
  }

  /** The rollout is in this state, its first stage in that one, and the target of the first stage is `x`. */
  predicate Shows(w: World, soak: nat, second: bool, state: RolloutState, at: StageState, x: Target) {
    && w.cfg == Setting() && !w.halted && w.inbox == [] && w.ro.id == 1 && w.ro.generation == 1
    && w.ro.state == state && w.ro.cursor == 0 && w.ro.stages != []
    && First(w.ro.stages[0], soak, at, x) && w.ro.stages == [w.ro.stages[0]] + Next(second, true)
  }

  predicate Empty(w: World) { w.at == map[] && w.order == [] && w.nextId == 2 && w.ro.outstanding == 0 }

  lemma NewIsFresh(soak: nat, second: bool)
    ensures Fresh(New(soak, second))
  {
  }

  lemma ArmShows(soak: nat, second: bool)
    ensures Shows(AfterArm(soak, second), soak, second, Armed, StPending, Idle(10)) && Empty(AfterArm(soak, second))
  {
    var w := New(soak, second);
    var one := PutStage(w, 0, w.ro.stages[0].(frozen := true));
    assert FreezeCohorts(w, 0) == FreezeCohorts(one, 1);
    if second {
      var two := PutStage(one, 1, one.ro.stages[1].(frozen := true));
      assert FreezeCohorts(one, 1) == FreezeCohorts(two, 2) == Result(two, true);
      assert two.ro.stages == [one.ro.stages[0]] + Next(true, true);
    }
  }

  lemma StartShows(soak: nat, second: bool)
    ensures Shows(AfterStart(soak, second), soak, second, Running, StPending, Idle(10))
            && Empty(AfterStart(soak, second))
  {
    ArmShows(soak, second);
    hide AfterArm;
    var w := AfterArm(soak, second);
    assert forall i :: 0 <= i < |w.ro.stages| ==> w.ro.stages[i].frozen;
  }

  lemma FirstBegins(w: World, soak: nat, second: bool)
    requires Shows(w, soak, second, Running, StPending, Idle(10)) && Empty(w)
    ensures var r := BeginStage(w, 0);
            r.ok && Shows(r.w, soak, second, Running, StRunning, Idle(10)) && Empty(r.w)
  {
    assert CheckPredecessors(w.ro.stages, w.ro.stages[0], []) == EntryCheck.Ready;
    hide CheckPredecessors;
  }

  lemma TickBegins(w: World)
    requires !w.halted && w.inbox == [] && w.ro.state.Running? && w.ro.cursor == 0
    requires w.HasStage(0) && w.ro.stages[0].state.StPending?
    ensures Step(w, OnTick(1, Yes())) == Halt(BeginStage(w, 0))
  {
    hide BeginStage;
    assert w.(inbox := []) == w;
  }

  lemma BeginShows(soak: nat, second: bool)
    ensures Shows(AfterBegin(soak, second), soak, second, Running, StRunning, Idle(10))
            && Empty(AfterBegin(soak, second))
  {
    StartShows(soak, second);
    hide AfterStart, Step, BeginStage;
    FirstBegins(AfterStart(soak, second), soak, second);
    TickBegins(AfterStart(soak, second));
  }

  // ----- sending -----

  lemma NothingUsed(w: World, soak: nat, second: bool, state: RolloutState, at: StageState)
    requires Shows(w, soak, second, state, at, Idle(10))
    ensures ChangingCount(w.ro.stages) == 0 && Count(w.ro.stages[0].targets, IsChanging) == 0
    ensures UsageAround(NO_USAGE, w.ro.stages, w.cfg.inventory, Placement(1, 0, 0, 0)) == NO_USAGE
  {
    forall i | 0 <= i < |w.ro.stages| ensures Count(w.ro.stages[i].targets, IsChanging) == 0 {
      CountNone(w.ro.stages[i].targets, IsChanging);
    }
    ChangingCountZero(w.ro.stages);
    NoUsage(w.ro.stages, w.cfg.inventory, Placement(1, 0, 0, 0));
  }

  lemma {:induction false} NoUsage(stages: seq<Stage>, inventory: map<nat, Placement>, c: Placement)
    requires forall i :: 0 <= i < |stages| ==> exists id: nat :: stages[i].targets == [Idle(id)]
    ensures UsageAround(NO_USAGE, stages, inventory, c) == NO_USAGE
  {
    if stages != [] {
      var ts := stages[0].targets;
      assert ts[1..] == [] && UsageOf(NO_USAGE, [], inventory, c) == NO_USAGE;
      assert UsageOf(NO_USAGE, ts, inventory, c) == NO_USAGE;
      NoUsage(stages[1..], inventory, c);
    }
  }

  lemma PlansOne(w: World, soak: nat, second: bool)
    requires Shows(w, soak, second, Running, StRunning, Idle(10))
    ensures PlanDispatch(w.ro.stages, w.ro.stages[0], w.cfg) == [Entry(10, 1, 1)]
  {
    var st, admits := w.ro.stages[0], Admission(w.ro.stages, w.ro.stages[0], w.cfg.inventory);
    NothingUsed(w, soak, second, Running, StRunning);
    CountNone(st.targets, IsAttempted);
    assert Admits(w.ro.stages, st, w.cfg.inventory, 10);
    hide Admits, UsageAround, ChangingCount, Count;
    assert [] + [EntryFor(st.targets[0])] == [Entry(10, 1, 1)];
    assert Walk(st, admits, 1, 1, [Entry(10, 1, 1)], 1) == [Entry(10, 1, 1)];
    assert Walk(st, admits, 1, 0, [], 0) == [Entry(10, 1, 1)];
  }

  /** The target after its only dispatch, and the attempt made for it. */
  function SentTarget(): Target {
    Idle(10).(state := Dispatched, epoch := 1, attemptsCreated := 1, currentAttempt := 2, lastAttempt := 2,
              dispatchedAt := 1, lastChangeAt := 1)
  }

  function SentAttempt(): Attempt { Attempt(1, 1, 1, 10, 1, 1, 101, Dispatched, false, OutInconclusive, 0, 0) }

  predicate Holds(w: World, a: Attempt) {
    w.at == map[2 := a] && w.order == [2] && w.nextId == 3 && w.ro.outstanding == Bit(!a.Finished())
  }

  lemma BatchIsAccepted(w: World, soak: nat, second: bool)
    requires Shows(w, soak, second, Running, StRunning, Idle(10))
    ensures DispatchBatch(w, 0, [Entry(10, 1, 1)], 1, Yes()) == Accept(w, 0, 0, 0, 1, 1)
  {
    var batch, sent := [Entry(10, 1, 1)], Accept(w, 0, 0, 0, 1, 1);
    assert FindTarget(w.ro.stages[0].targets, 10) == 0;
    assert FindKind(w.ro.stages[0].actions).Some?;
    assert batch[1..] == [];
    hide Accept, FindTarget, FindKind;
    assert DispatchBatch(sent, 0, [], 1, Yes()) == sent;
  }

  lemma AcceptedShows(w: World, soak: nat, second: bool)
    requires Shows(w, soak, second, Running, StRunning, Idle(10)) && Empty(w)
    ensures var w' := Accept(w, 0, 0, 0, 1, 1);
            Shows(w', soak, second, Running, StRunning, SentTarget()) && Holds(w', SentAttempt())
  {
  }

  lemma AcceptShows(w: World, soak: nat, second: bool)
    requires Shows(w, soak, second, Running, StRunning, Idle(10)) && Empty(w)
    ensures var w' := DispatchStage(w, 0, 1, Yes());
            Shows(w', soak, second, Running, StRunning, SentTarget()) && Holds(w', SentAttempt())
  {
    PlansOne(w, soak, second);
    BatchIsAccepted(w, soak, second);
    AcceptedShows(w, soak, second);
    hide Accept, PlanDispatch, ChangingCount, DispatchBatch;
  }

  /** A tick whose reports leave the first stage at work runs that stage. */
  lemma TickRuns(w: World, d: World, now: int)
    requires !w.halted && d == Drain(w.(inbox := []), w.inbox, now)
    requires d.ro.state.AdmitsDispatch() && d.ro.cursor == 0 && d.HasStage(0)
    requires d.ro.stages[0].state.StRunning? || d.ro.stages[0].state.StSoaking?
    ensures Step(w, OnTick(now, Yes())) == Halt(RunStage(d, 0, now, Yes()))
  {
    hide Drain, RunStage;
  }

  lemma SendShows(soak: nat, second: bool)
    ensures var w := AfterSend(soak, second);
            Shows(w, soak, second, Running, StRunning, SentTarget()) && Holds(w, SentAttempt())
  {
    BeginShows(soak, second);
    var w := AfterBegin(soak, second);
    AcceptShows(w, soak, second);
    RunningSends(w, soak, second);
    assert w.(inbox := []) == w;
    TickRuns(w, w, 1);
    hide AfterBegin, DispatchStage, RunStage, Step;
  }

  lemma RunningSends(w: World, soak: nat, second: bool)
    requires Shows(w, soak, second, Running, StRunning, Idle(10))
    ensures RunStage(w, 0, 1, Yes()) == Result(DispatchStage(w, 0, 1, Yes()), true)
  {
    var ts := w.ro.stages[0].targets;
    CountNone(ts, IsTerminal);
    CountNone(ts, IsFailed);
    assert ExpireAttempts(w, 0, 1, 1) == w;
    assert ExpireAttempts(w, 0, 0, 1) == w;
    hide ExpireAttempts, DispatchStage, StageBudget, Count;
  }

  // ----- reporting -----

  function DoneTarget(): Target { SentTarget().(state := Succeeded, outcome := OutSucceeded, completedAt := 1) }

  function DoneAttempt(): Attempt {
    SentAttempt().(state := Succeeded, completed := true, outcome := OutSucceeded, highestSequence := 1)
  }

  lemma IngestShows(w: World, soak: nat, second: bool)
    requires Shows(w, soak, second, Running, StRunning, SentTarget()) && Holds(w, SentAttempt())
    ensures var w' := Ingest(w, Report(), 2);
            Shows(w', soak, second, Running, StRunning, DoneTarget()) && Holds(w', DoneAttempt())
  {
    assert FindStage(w.ro.stages, 1) == 0;
    assert FindTarget(w.ro.stages[0].targets, 10) == 0;
    assert Admit(w, Report(), 2).Accepted?;
    hide FindStage, FindTarget, Admit;
  }

  lemma DoneProceeds(w: World, soak: nat)
    requires Shows(w, soak, false, Running, StRunning, DoneTarget())
    ensures var r := if soak != 0 then StartSoak(w, 0, 2) else Result(OpenGate(w, 0, EvidenceGate), true);
            RunStage(w, 0, 2, Yes()) == r
  {
    var st := w.ro.stages[0];
    CountAll(st.targets, IsTerminal);
    CountNone(st.targets, IsFailed);
    assert ExpireAttempts(w, 0, 1, 2) == w;
    assert ExpireAttempts(w, 0, 0, 2) == w;
    Unverified(st, soak, 2);
    hide ExpireAttempts, StageBudget, Count, Gates.EvidenceGateOpen, StartSoak, OpenGate;
  }

  lemma SoakShows(w: World, soak: nat)
    requires Shows(w, soak, false, Running, StRunning, DoneTarget()) && Holds(w, DoneAttempt())
    ensures var r := StartSoak(w, 0, 2);
            r.ok && Shows(r.w, soak, false, Soaking, StSoaking, DoneTarget()) && Holds(r.w, DoneAttempt())
  {
  }

  lemma GateShows(w: World, soak: nat)
    requires Shows(w, soak, false, Running, StRunning, DoneTarget()) && Holds(w, DoneAttempt())
    ensures var w' := OpenGate(w, 0, EvidenceGate);
            Shows(w', soak, false, Gated, StGated, DoneTarget()) && w'.at == map[2 := DoneAttempt()]
  {
  }

  /** Soaking follows, or at once the manual gate. */
  lemma DoneRuns(w: World, soak: nat)
    requires Shows(w, soak, false, Running, StRunning, DoneTarget()) && Holds(w, DoneAttempt())
    ensures var r := RunStage(w, 0, 2, Yes());
            && r.ok
            && (if soak != 0 then Shows(r.w, soak, false, Soaking, StSoaking, DoneTarget()) && Holds(r.w, DoneAttempt())
                else Shows(r.w, soak, false, Gated, StGated, DoneTarget()) && r.w.at == map[2 := DoneAttempt()])
  {
    DoneProceeds(w, soak);
    SoakShows(w, soak);
    GateShows(w, soak);
    hide RunStage, StartSoak, OpenGate, Shows, Holds;
  }

  lemma Unverified(st: Stage, soak: nat, now: int)
    requires st.targets == [DoneTarget()] && st.policy == Rules(soak) && st.requireVerification
    ensures !Gates.EvidenceGateOpen(st, now, Setting())
  {
    Gates.VerifiedAll(st.targets, st.policy.evidenceGate, now, Setting());
  }

  lemma ReportShows(soak: nat)
    ensures var w := AfterReport(soak);
            if soak != 0 then Shows(w, soak, false, Soaking, StSoaking, DoneTarget()) && Holds(w, DoneAttempt())
            else Shows(w, soak, false, Gated, StGated, DoneTarget()) && w.at == map[2 := DoneAttempt()]
  {
    SendShows(soak, false);
    hide AfterSend, Ingest, RunStage;
    var w, one := AfterSend(soak, false), [Report()];
    IngestShows(w, soak, false);
    DoneRuns(Ingest(w, Report(), 2), soak);
    ReportArrives(w);
    TickRuns(w.(inbox := one), Ingest(w, Report(), 2), 2);
    hide Step;
  }

  lemma ReportArrives(w: World)
    requires w.inbox == []
    ensures var w' := Step(w, OnEvidence(Report()));
            w' == w.(inbox := [Report()]) && Drain(w'.(inbox := []), w'.inbox, 2) == Ingest(w, Report(), 2)
  {
    hide Ingest;
    var one := [Report()];
    assert w.inbox + one == one && one[1..] == [];
    assert w.(inbox := one).(inbox := []) == w;
  }

  // ----- the runs are runs -----

  lemma BeginIsAttained(env: Env, soak: nat, second: bool)
    ensures Attained(env, AfterBegin(soak, second))
  {
    NewIsFresh(soak, second);
    FreshIsAttained(env, New(soak, second));
    hide Attained, Fresh, Step;
    AttainedThen(env, New(soak, second), OnArm(Anyone()));
    AttainedThen(env, AfterArm(soak, second), OnStart(Anyone()));
    AttainedThen(env, AfterStart(soak, second), OnTick(1, Yes()));
  }

  lemma SendIsAttained(env: Env, soak: nat, second: bool)
    ensures Attained(env, AfterSend(soak, second))
  {
    BeginIsAttained(env, soak, second);
    hide Attained, Step, AfterBegin;
    AttainedThen(env, AfterBegin(soak, second), OnTick(1, Yes()));
  }

  lemma ReportIsAttained(env: Env, soak: nat)
    requires Hears(env)
    ensures Attained(env, AfterReport(soak))
  {
    SendIsAttained(env, soak, false);
    SendShows(soak, false);
    hide Attained, Step, AfterSend;
    var w := AfterSend(soak, false);
    AttainedThen(env, w, OnEvidence(Report()));
    AttainedThen(env, Step(w, OnEvidence(Report())), OnTick(2, Yes()));
  }

  // ----- a manual gate after a soak -----

  lemma SoakedIsShut(w: World)
    requires Shows(w, 1, false, Soaking, StSoaking, DoneTarget())
    ensures var st := w.ro.stages[0];
            && !w.halted && w.inbox == [] && w.ro.state.AdmitsDispatch() && w.ro.cursor == 0
            && SoaksAtCursor(w.ro) && CanSetGate(w, 0, EvidenceGate) && OpenGate(w, 0, EvidenceGate).halted
            && Gates.SoakElapsed(st, 3) && Count(st.targets, IsFailed) <= StageBudget(st) && CanaryHolds(st, 3, w.cfg)
            && StopsAtManualGate(st, 3, w.cfg)
  {
    CountNone(w.ro.stages[0].targets, IsFailed);
    Unverified(w.ro.stages[0], 1, 3);
    SoakedIsNotGated(w, 0, EvidenceGate);
    hide OpenGate, Gates.EvidenceGateOpen, Count;
  }

  /** Once the soak is over the next tick halts: the stage cannot be gated any more. */
  lemma SoakedGateHalts(env: Env)
    requires Hears(env)
    ensures var w := AfterReport(1);
            && Attained(env, w) && SoaksAtCursor(w.ro) && CanSetGate(w, 0, EvidenceGate)
            && OpenGate(w, 0, EvidenceGate).halted && Tick(w, 3, Yes()).halted
  {
    hide *;
    ReportIsAttained(env, 1);
    AttainedEndures(env, AfterReport(1));
    ReportShows(1);
    SoakedIsShut(AfterReport(1));
    ManualGateAfterSoakHaltsIff(env, AfterReport(1), 3, Yes());
  }

  lemma SoakedIsSettled(st: Stage)
    requires First(st, 1, StSoaking, DoneTarget())
    ensures Gates.EvidenceSettled(st, 3) && !Gates.EvidenceGateOpen(st, 3, Setting())
  {
    CountAll(st.targets, IsTerminal);
    CountNone(st.targets, IsFailed);
    Unverified(st, 1, 3);
  }

  /** The same stage passes its evidence gate after a restart, with nothing verified. */
  lemma VerificationIsSkipped(env: Env, b: World, previous: nat)
    requires Hears(env) && Blank(b, AfterReport(1))
    ensures var w, r := AfterReport(1), Restored(b, AfterReport(1), previous);
            && Attained(env, w) && w.HasStage(0) && !Gates.EvidenceGateOpen(w.ro.stages[0], 3, w.cfg)
            && r.HasStage(0) && Gates.EvidenceGateOpen(r.ro.stages[0], 3, w.cfg)
  {
    ReportIsAttained(env, 1);
    AttainedEndures(env, AfterReport(1));
    EnduringIsSolid(env, AfterReport(1));
    ReportShows(1);
    hide Attained, Enduring, AfterReport, Restored, Blank, Balanced, Sole, Shaped;
    SoakedIsSettled(AfterReport(1).ro.stages[0]);
    hide First, Gates.EvidenceSettled, Gates.EvidenceGateOpen, Gates.EnoughVerified;
    VerificationIsForgotten(AfterReport(1), b, previous, 0, 3, Setting());
  }

  // ----- a final approval while paused -----

  function PausedAtGate(): World { Step(AfterReport(0), OnPause(Anyone(), Yes())) }

  function Approved(now: int): World { Resume(ApproveGate(PausedAtGate(), 3, Anyone(), now).w, Anyone()).w }

  lemma NothingToCancel(w: World)
    requires w.HasTarget(0, 0) && |w.ro.stages[0].targets| == 1 && w.at == map[2 := DoneAttempt()]
    ensures CancelInFlight(w, 0, 0, Yes()) == Result(w, true)
  {
    assert CancelInFlight(w, 0, 1, Yes()) == Result(w, true);
  }

  lemma PauseWaits(w: World)
    requires Shows(w, 0, false, Gated, StGated, DoneTarget()) && w.at == map[2 := DoneAttempt()]
    ensures var w' := Pause(w, Anyone(), Yes()).w;
            && Fenced(w'.ro, Anyone()) && w'.ro.state.Paused? && w'.ro.resumeState == Gated
            && |w'.ro.stages| == 1 && FindGate(w'.ro.stages, 3) == 0 && AwaitsApproval(w'.ro, 3)
  {
    assert FindStage(w.ro.stages, 1) == 0;
    NothingToCancel(Transition(w.(ro := w.ro.(resumeState := Gated)), Paused).w);
    hide CancelInFlight, FindStage;
  }

  /**
   * The approval is refused though the stage succeeds, and after resuming the rollout waits at a gate that is
   * gone: whatever the executor reports and however often the controller ticks, it stays where it is.
   */
  lemma FinalApprovalIsLost(env: Env, now: int, events: seq<Event>, w': World)
    requires Hears(env) && Happens(env, Approved(now), events, w')
    requires forall k :: 0 <= k < |events| ==> Unprompted(events[k])
    ensures Attained(env, PausedAtGate()) && !ApproveGate(PausedAtGate(), 3, Anyone(), now).ok
    ensures LastSucceeded(Approved(now).ro) && PastTheEnd(Approved(now).ro)
    ensures w'.ro.state.Gated? && Unmoved(Approved(now).ro, w'.ro)
  {
    hide *;
    ReportIsAttained(env, 0);
    PausedIs(env, AfterReport(0));
    ReportShows(0);
    PauseWaits(AfterReport(0));
    PausedAtGateIs();
    ApprovedIs(now);
    AttainedEndures(env, PausedAtGate());
    FinalApprovalWhilePaused(env, PausedAtGate(), 3, Anyone(), now);
    StuckPastTheEnd(env, Approved(now), events, w');
  }

  lemma PausedAtGateIs()
    ensures PausedAtGate() == Pause(AfterReport(0), Anyone(), Yes()).w
  {
    hide AfterReport, Pause;
  }

  lemma ApprovedIs(now: int)
    ensures Approved(now) == Resume(ApproveGate(PausedAtGate(), 3, Anyone(), now).w, Fence(None, None)).w
  {
    hide ApproveGate, Resume, PausedAtGate;
  }

  lemma PausedIs(env: Env, w: World)
    requires Attained(env, w)
    ensures Attained(env, Pause(w, Anyone(), Yes()).w)
    ensures Step(w, OnPause(Anyone(), Yes())) == Pause(w, Anyone(), Yes()).w
  {
    hide Attained, Pause;
    AttainedThen(env, w, OnPause(Anyone(), Yes()));
  }

  lemma StuckPastTheEnd(env: Env, w: World, events: seq<Event>, w': World)
    requires w.ro.state.Gated? && Happens(env, w, events, w') && forall k :: 0 <= k < |events| ==> Unprompted(events[k])
    ensures w'.ro.state.Gated? && Unmoved(w.ro, w'.ro)
  {
    hide Happens, Unprompted;
    OnlyOperatorsMove(env, w, events, w');
  }

  // ----- an executor that mixes up targets -----

  function Misdirected(): Record { Report().(stage := 2, target := 20) }

  lemma MisdirectedIsAdmitted(w: World)
    requires Shows(w, 1, true, Running, StRunning, SentTarget()) && Holds(w, SentAttempt())
    ensures Admit(w, Misdirected(), 2).Accepted? && Current(w, 2)
    ensures w.at[2].stage != Misdirected().stage && w.at[2].cancelledEpoch == 0
    ensures FindStage(w.ro.stages, 2) == 1 && FindTarget(w.ro.stages[1].targets, 20) == 0
    ensures w.ro.stages[1].targets[0].state.Pending?
  {
    assert w.ro.stages[1] == Piece(2, 20, 0).(frozen := true);
    assert FindStage(w.ro.stages, 2) == 1;
    assert FindTarget(w.ro.stages[1].targets, 20) == 0;
    hide FindStage, FindTarget;
  }

  lemma MixedUp(env: Env, w: World)
    requires Attained(env, w) && Admit(w, Misdirected(), 2).Accepted? && Current(w, 2)
    requires w.at[2].stage != Misdirected().stage && w.at[2].cancelledEpoch == 0
    requires FindStage(w.ro.stages, 2) == 1 && FindTarget(w.ro.stages[1].targets, 20) == 0
    requires w.ro.stages[1].targets[0].state.Pending?
    ensures !Balanced(ApplyEvidence(w, Misdirected()))
  {
    AttainedIsSound(env, w);
    hide Attained, Admit, ApplyEvidence, Balanced, FindStage, FindTarget, Shaped;
    MisdirectedUnbalances(env, w, Misdirected(), 2);
  }

  /** A report under the right attempt that names the target of another stage is admitted, and unbalances the books. */
  lemma MisdirectedReport(env: Env)
    ensures var w := AfterSend(1, true);
            Attained(env, w) && Admit(w, Misdirected(), 2).Accepted? && !Balanced(ApplyEvidence(w, Misdirected()))
  {
    hide *;
    SendIsAttained(env, 1, true);
    SendShows(1, true);
    MisdirectedIsAdmitted(AfterSend(1, true));
    MixedUp(env, AfterSend(1, true));
  }

  function Untimely(): Record { Report().(kind := RollbackFailureReported, outcome := OutFailed) }

  lemma UntimelyIsAdmitted(env: Env, w: World)
    requires Shows(w, 0, false, Running, StRunning, SentTarget()) && Holds(w, SentAttempt())
    ensures Admit(w, Untimely(), 2).Accepted? && (Hears(env) && !env.confined ==> Honest(env, w, Untimely()))
    ensures var w' := ApplyEvidence(w, Untimely());
            && w.HasTarget(0, 0) && w'.HasTarget(0, 0)
            && !Lawful(w.ro.stages[0].targets[0], w'.ro.stages[0].targets[0])
  {
    assert FindStage(w.ro.stages, 1) == 0;
    assert FindTarget(w.ro.stages[0].targets, 10) == 0;
    hide FindStage, FindTarget;
  }

  /** A report of failed compensation for forward work is admitted, and makes a transition the table forbids. */
  lemma UntimelyCompensation(env: Env)
    requires Hears(env) && !env.confined
    ensures var w := AfterSend(0, false);
            && Attained(env, w) && Honest(env, w, Untimely()) && Admit(w, Untimely(), 2).Accepted?
            && var w' := ApplyEvidence(w, Untimely());
               && w.HasTarget(0, 0) && w'.HasTarget(0, 0)
               && !Lawful(w.ro.stages[0].targets[0], w'.ro.stages[0].targets[0])
  {
    hide *;
    SendIsAttained(env, 0, false);
    SendShows(0, false);
    UntimelyIsAdmitted(env, AfterSend(0, false));
  }

  // ----- a cancellation before a restart -----

  function PausedAtWork(): World { Step(AfterSend(0, false), OnPause(Anyone(), Yes())) }

  predicate TargetSucceeded(w: World) { w.HasTarget(0, 0) && w.ro.stages[0].targets[0].state.Succeeded? }

  lemma PauseCancels(w: World)
    requires Shows(w, 0, false, Running, StRunning, SentTarget()) && Holds(w, SentAttempt())
    ensures var w' := Pause(w, Anyone(), Yes()).w;
            && 2 in LiveSet(w') && w'.at[2].cancelledEpoch != 0 && Succeeds(w', 2, Report())
            && FindStage(w'.ro.stages, 1) == 0 && w'.HasStage(0) && FindTarget(w'.ro.stages[0].targets, 10) == 0
            && |w'.ro.stages| == 1 && w'.ro.stages[0].targets == [SentTarget()]
  {
    assert FindStage(w.ro.stages, 1) == 0;
    assert FindTarget(w.ro.stages[0].targets, 10) == 0;
    var paused := Transition(w.(ro := w.ro.(resumeState := Running)), Paused).w;
    var cancelled := paused.(at := w.at[2 := SentAttempt().(cancelledEpoch := 1)]);
    assert CancelInFlight(cancelled, 0, 1, Yes()) == Result(cancelled, true);
    assert CancelInFlight(paused, 0, 0, Yes()) == Result(cancelled, true);
    hide CancelInFlight, FindStage, FindTarget;
  }

  lemma PausedAtWorkIs()
    ensures PausedAtWork() == Pause(AfterSend(0, false), Anyone(), Yes()).w
  {
    hide AfterSend, Pause;
  }

  /** Reported done after the pause, the target is cancelled; with a restart in between, it succeeds. */
  lemma CancelledSucceedsAfterRestart(env: Env, b: World, previous: nat)
    requires Blank(b, PausedAtWork())
    ensures var w := PausedAtWork();
            && Attained(env, w) && 2 in LiveSet(w) && w.at[2].cancelledEpoch != 0 && Succeeds(w, 2, Report())
            && !TargetSucceeded(ApplyEvidence(w, Report()))
            && TargetSucceeded(ApplyEvidence(Restored(b, w, previous), Report()))
  {
    hide *;
    SendIsAttained(env, 0, false);
    SendShows(0, false);
    PausedIs(env, AfterSend(0, false));
    PauseCancels(AfterSend(0, false));
    PausedAtWorkIs();
    DoneAfterRestart(env, PausedAtWork(), b, previous);
  }

  lemma DoneAfterRestart(env: Env, w: World, b: World, previous: nat)
    requires Attained(env, w) && Blank(b, w) && 2 in LiveSet(w)
    requires w.at[2].cancelledEpoch != 0 && Succeeds(w, 2, Report())
    requires FindStage(w.ro.stages, 1) == 0 && w.HasStage(0) && FindTarget(w.ro.stages[0].targets, 10) == 0
    requires |w.ro.stages| == 1 && w.ro.stages[0].targets == [SentTarget()]
    ensures !TargetSucceeded(ApplyEvidence(w, Report()))
    ensures TargetSucceeded(ApplyEvidence(Restored(b, w, previous), Report()))
  {
    AttainedEndures(env, w);
    EnduringIsSolid(env, w);
    hide Attained, Enduring, Restored, Restorable, Blank, Succeeds, LiveSet, ApplyEvidence, FindStage, FindTarget;
    CancellationIsForgotten(env, w, b, previous, 2, Report());
  }

  // ----- an abort before the last stage -----

  function Aborted(): World { Step(AfterBegin(0, true), OnAbort(Anyone(), Yes())) }

  /** The first stage is aborted, the second is skipped, and nothing is left to compensate. */
  predicate Stranded(w: World) {
    && !w.halted && w.inbox == [] && w.ro.state.RollingBack? && w.ro.cursor == 0 && |w.ro.stages| == 2
    && w.ro.stages[0].state.StAborted? && w.ro.stages[1].state.StSkipped?
    && w.ro.stages[0].targets == [Idle(10)] && w.ro.stages[1].targets == [Idle(20)]
    && w.ro.stages[0].predecessors == [] && w.ro.stages[1].predecessors == []
  }

  lemma StagesAreAborted(w: World) returns (aborted: World)
    requires Shows(w, 0, true, Aborting, StRunning, Idle(10)) && Empty(w)
    ensures AbortStages(w, 0, Yes()) == Result(aborted, true)
    ensures aborted.ro.state.Aborting? && !aborted.halted && aborted.inbox == [] && aborted.ro.cursor == 0
    ensures |aborted.ro.stages| == 2 && aborted.ro.stages[0] == w.ro.stages[0].(state := StAborted)
    ensures aborted.ro.stages[1] == Piece(2, 20, 0).(frozen := true, state := StSkipped)
  {
    assert CancelInFlight(w, 0, 1, Yes()) == Result(w, true);
    assert CancelInFlight(w, 0, 0, Yes()) == Result(w, true);
    var first := StageTransition(w, 0, StAborted).w;
    assert AbortStage(w, 0, Yes()) == Result(first, true);
    assert first.ro.stages[1] == Piece(2, 20, 0).(frozen := true);
    aborted := StageTransition(first, 1, StSkipped).w;
    assert AbortStage(first, 1, Yes()) == Result(aborted, true);
    hide CancelInFlight, AbortStage;
    assert AbortStages(aborted, 2, Yes()) == Result(aborted, true);
    assert AbortStages(first, 1, Yes()) == Result(aborted, true);
  }

  lemma PendingIsNotMarked(st: Stage)
    requires |st.targets| == 1 && st.targets[0].state.Pending?
    ensures MarkStage(st) == st
  {
  }

  lemma NothingIsMarked(w: World)
    requires w.ro.state.Aborting? && |w.ro.stages| == 2
    requires MarkStage(w.ro.stages[0]) == w.ro.stages[0] && MarkStage(w.ro.stages[1]) == w.ro.stages[1]
    ensures BeginRollback(w) == Result(PutState(w, RollingBack), true)
  {
    hide MarkStage;
    assert BeginRollback(w).w.ro.stages == w.ro.stages;
  }

  lemma AbortStrands(w: World)
    requires Shows(w, 0, true, Running, StRunning, Idle(10)) && Empty(w)
    ensures Stranded(Abort(w, Anyone(), Yes()).w)
  {
    var aborted := StagesAreAborted(Transition(w, Aborting).w);
    PendingIsNotMarked(aborted.ro.stages[0]);
    PendingIsNotMarked(aborted.ro.stages[1]);
    NothingIsMarked(aborted);
    assert HasCompensation(w.ro.stages) by { assert w.ro.stages[0].policy == Rules(0); }
    hide HasCompensation, AbortStages, MarkStage, BeginRollback;
  }

  lemma NothingToUndo(w: World)
    requires Stranded(w)
    ensures RollBackStages(w, 0, 2, Yes()) == w
  {
    assert RollBackTargets(w, 0, 1, 2, Yes()) == w && RollBackTargets(w, 1, 1, 2, Yes()) == w;
    assert RollBackTargets(w, 0, 0, 2, Yes()) == w && RollBackTargets(w, 1, 0, 2, Yes()) == w;
    hide RollBackTargets;
    assert RollBackStages(w, 2, 2, Yes()) == w;
    assert RollBackStages(w, 1, 2, Yes()) == w;
  }

  lemma StrandedNeverSettles(w: World)
    requires Stranded(w)
    ensures !SettleStages(w, 0).ok && SettleStages(w, 0).w.ro.state.RollingBack?
  {
    var first := StageTransition(w, 0, StRolledBack).w;
    assert !StageTransition(first, 1, StRolledBack).ok;
    assert SettleStages(first, 1) == Result(first, false);
  }

  lemma StrandedIsStuck(w: World)
    requires Stranded(w)
    ensures NoneRollingBack(w.ro) && !StoppedAtLast(w.ro)
    ensures Tick(w, 2, Yes()).halted && Tick(w, 2, Yes()).ro.state.RollingBack?
  {
    NothingToUndo(w);
    StrandedNeverSettles(w);
    hide RollBackStages, SettleStages;
    assert w.(inbox := []) == w;
  }

  /**
   * An abort during the first of two stages: the rollback has nothing to undo, the next tick halts, and through all
   * events and restarts it is never finished.
   */
  lemma AbortNeverFinishes(env: Env, turns: seq<Turn>, w': World)
    requires Passes(env, Aborted(), turns, w')
    ensures Attained(env, Aborted()) && Stranded(Aborted())
    ensures Tick(Aborted(), 2, Yes()).halted && Tick(Aborted(), 2, Yes()).ro.state.RollingBack?
    ensures w'.ro.state.RollingBack? && w'.ro.generation == Aborted().ro.generation
  {
    hide *;
    BeginIsAttained(env, 0, true);
    BeginShows(0, true);
    AbortStrands(AfterBegin(0, true));
    AbortedIs(env);
    StrandedIsStuck(Aborted());
    StrandedIsSealed(Aborted());
    AttainedEndures(env, Aborted());
    Rollbacks.RollbackIsStuckIff(env, Aborted());
  }

  lemma StrandedIsSealed(w: World)
    requires Stranded(w)
    ensures Rollbacks.Sealed(w.ro) && w.ro.state.RollingBack?
  {
  }

  lemma AbortedIs(env: Env)
    ensures Aborted() == Abort(AfterBegin(0, true), Anyone(), Yes()).w
    ensures Attained(env, AfterBegin(0, true)) ==> Attained(env, Aborted())
  {
    hide Attained, AfterBegin, Abort;
    if Attained(env, AfterBegin(0, true)) {
      AttainedThen(env, AfterBegin(0, true), OnAbort(Anyone(), Yes()));
    }
  }

  // ----- a restart between two compensation steps -----

  function SoakAborted(): World { Step(AfterReport(1), OnAbort(Anyone(), Yes())) }

  function Undone(): World { Step(SoakAborted(), OnTick(4, Yes())) }

  function Answered(): seq<Answer> { [Answer(3, FateCompleted)] }

  function BetweenSteps(): World { Step(Undone(), OnReconcile(Answered(), 5)) }

  /** The one stage was aborted, and its target is being rolled back. */
  predicate Unrolls(w: World, x: Target) {
    && w.cfg == Setting() && !w.halted && w.inbox == [] && w.ro.id == 1 && w.ro.generation == 1
    && w.ro.state.RollingBack? && |w.ro.stages| == 1
    && var st := w.ro.stages[0];
       st.id == 1 && st.state.StAborted? && st.policy == Rules(1) && st.actions == Piece(1, 10, 1).actions
       && st.targets == [x]
  }

  function Marked(): Target { DoneTarget().(state := TRollingBack, currentAttempt := 0) }

  lemma SoakIsMarked(w: World)
    requires Shows(w, 1, false, Soaking, StSoaking, DoneTarget()) && Holds(w, DoneAttempt())
    ensures var w' := Abort(w, Anyone(), Yes()).w; Unrolls(w', Marked()) && Holds(w', DoneAttempt())
  {
    var w1 := Transition(w, Aborting).w;
    NothingToCancel(w1);
    var w2 := StageTransition(w1, 0, StAborted).w;
    assert AbortStage(w1, 0, Yes()) == Result(w2, true);
    hide CancelInFlight, AbortStage;
    assert AbortStages(w2, 1, Yes()) == Result(w2, true);
    assert AbortStages(w1, 0, Yes()) == Result(w2, true);
    assert HasCompensation(w.ro.stages) by { assert w.ro.stages[0].policy == Rules(1); }
    hide HasCompensation, AbortStages;
    assert MarkStage(w2.ro.stages[0]) == w2.ro.stages[0].(targets := [Marked()]);
  }

  /** The target and the attempt of its first compensation step. */
  function Undoing(): Target {
    Marked().(lastAttempt := 3, dispatchedAt := 4, lastChangeAt := 4, epoch := 2, attemptsCreated := 2,
              currentAttempt := 3)
  }

  function UndoingAttempt(): Attempt { Attempt(1, 1, 1, 10, 2, 1, 104, Dispatched, false, OutInconclusive, 0, 0) }

  lemma UndoIsSent(w: World)
    requires Unrolls(w, Marked()) && Holds(w, DoneAttempt())
    ensures var w' := Tick(w, 4, Yes());
            Unrolls(w', Undoing()) && w'.at == map[2 := DoneAttempt(), 3 := UndoingAttempt()]
  {
    var w' := RunRollback(w, 0, 0, 4, Yes());
    assert FindAction(w.ro.stages[0].actions[1..], 2).Some?;
    assert CompensationAction(w.ro.stages[0], 0).Some?;
    assert w' == Accept(w, 0, 0, 1, 2, 4);
    assert RollBackTargets(w', 0, 1, 4, Yes()) == w';
    assert RollBackTargets(w, 0, 0, 4, Yes()) == w';
    assert RollBackStages(w', 1, 4, Yes()) == w';
    assert RollBackStages(w, 0, 4, Yes()) == w';
    assert w'.ro.stages[0].targets[0].state.TRollingBack?;
    assert StillRollingBack(w'.ro.stages[0]);
    hide RollBackStages, RollBackTargets, RunRollback;
    assert w.(inbox := []) == w;
  }

  lemma UndoIsReported(w: World)
    requires Unrolls(w, Undoing()) && w.at == map[2 := DoneAttempt(), 3 := UndoingAttempt()]
    ensures var w' := Reconcile(w, Answered(), 5);
            && InRange(w'.ro, 0, 0) && Waits(w', 0, 0) && LiveSet(w') == {}
  {
    assert Answered()[1..] == [];
    assert FindStage(w.ro.stages, 1) == 0;
    assert FindTarget(w.ro.stages[0].targets, 10) == 0;
    hide FindStage, FindTarget;
    var rec := ReconciledRecord(3, UndoingAttempt(), FateCompleted, 5);
    assert Admit(w, rec, 5).Accepted?;
    hide Admit;
    var w' := ApplyEvidence(w, rec);
    assert Reconcile(w, Answered(), 5) == w';
    hide Reconcile, ApplyEvidence;
    assert FindAction(w'.ro.stages[0].actions[1..], 2).Some?;
  }

  lemma SoakAbortedIs(env: Env)
    ensures SoakAborted() == Abort(AfterReport(1), Anyone(), Yes()).w
    ensures Attained(env, AfterReport(1)) ==> Attained(env, SoakAborted())
  {
    hide Attained, AfterReport, Abort;
    if Attained(env, AfterReport(1)) {
      AttainedThen(env, AfterReport(1), OnAbort(Anyone(), Yes()));
    }
  }

  lemma UndoneIs(env: Env)
    ensures Undone() == Tick(SoakAborted(), 4, Yes())
    ensures Attained(env, SoakAborted()) ==> Attained(env, Undone())
  {
    hide Attained, SoakAborted, Tick;
    if Attained(env, SoakAborted()) {
      AttainedThen(env, SoakAborted(), OnTick(4, Yes()));
    }
  }

  lemma BetweenStepsIs(env: Env)
    requires Hears(env) && Attained(env, Undone())
    requires Unrolls(Undone(), Undoing()) && Undone().at == map[2 := DoneAttempt(), 3 := UndoingAttempt()]
    ensures BetweenSteps() == Reconcile(Undone(), Answered(), 5) && Attained(env, BetweenSteps())
  {
    hide Attained, Undone, Reconcile;
    AttainedThen(env, Undone(), OnReconcile(Answered(), 5));
  }

  /** Nothing is in flight between the two steps; a restart there brings the first attempt back to life. */
  lemma EndedAttemptRevives(env: Env, b: World, previous: nat)
    requires Hears(env) && Blank(b, BetweenSteps())
    ensures Attained(env, BetweenSteps()) && LiveSet(BetweenSteps()) == {}
    ensures LiveSet(Restored(b, BetweenSteps(), previous)) != {}
  {
    hide *;
    ReportIsAttained(env, 1);
    ReportShows(1);
    SoakIsMarked(AfterReport(1));
    SoakAbortedIs(env);
    UndoIsSent(SoakAborted());
    UndoneIs(env);
    UndoIsReported(Undone());
    BetweenStepsIs(env);
    AttainedEndures(env, BetweenSteps());
    SolidIsRestorable(env, BetweenSteps());
    RestoredLiveIff(env, BetweenSteps(), b, previous);
  }

  lemma SolidIsRestorable(env: Env, w: World)
    requires Enduring(env, w)
    ensures Restorable(env, w)
  {
    hide Enduring, Restorable;
    EnduringIsSolid(env, w);
  }

  // ----- an abort that is not answered -----

  function No(): nat -> bool { _ => false }

  function AbortedInVain(): World { Step(AfterSend(0, false), OnAbort(Anyone(), No())) }

  lemma WorkIsUnanswered(w: World)
    requires Shows(w, 0, false, Running, StRunning, SentTarget()) && Holds(w, SentAttempt())
    ensures Strandings.Unanswered(w, No()) && Fenced(w.ro, Anyone()) && LegalRollout(w.ro.state, Aborting)
  {
    assert Strandings.Deaf(w, w.ro.stages[0].targets[0], No());
  }

  /** With one attempt at work whose cancel request is lost, the aborted rollout stays aborting for good. */
  lemma UnansweredAbort(env: Env, turns: seq<Turn>, w': World)
    requires Passes(env, AbortedInVain(), turns, w')
    ensures Attained(env, AbortedInVain()) && w'.ro.state.Aborting?
    ensures w'.ro.generation == AbortedInVain().ro.generation
  {
    hide *;
    SendIsAttained(env, 0, false);
    AttainedEndures(env, AfterSend(0, false));
    SendShows(0, false);
    WorkIsUnanswered(AfterSend(0, false));
    Strandings.AbortStrandsIff(env, AfterSend(0, false), Anyone(), No());
    AbortedInVainIs(env);
    AttainedEndures(env, AbortedInVain());
    Strandings.DesertedForever(env, AbortedInVain(), turns, w');
    DesertedIsAborting(w'.ro);
  }

  lemma DesertedIsAborting(ro: Rollout)
    requires Strandings.Deserted(ro)
    ensures ro.state.Aborting?
  {
  }

  lemma AbortedInVainIs(env: Env)
    ensures AbortedInVain() == Abort(AfterSend(0, false), Anyone(), No()).w
    ensures Attained(env, AfterSend(0, false)) ==> Attained(env, AbortedInVain())
  {
    hide Attained, AfterSend, Abort;
    if Attained(env, AfterSend(0, false)) {
      AttainedThen(env, AfterSend(0, false), OnAbort(Anyone(), No()));
    }
  }

  // ----- a batch that overruns a limit -----

  /** Two targets in one stage, of these failure domains. */
  function TwoTargets(perDomain: nat, domains: nat, domain: nat, other: nat): World {
    var st := Radius.Pair(perDomain, domains).(state := StPending, frozen := false);
    World(Radius.PairIn(domain, other), Rollout(1, 1, 0, Validated, Validated, [st], 0, 0, 0), map[], [], 2, [], false)
  }

  function TwoReady(perDomain: nat, domains: nat, domain: nat, other: nat): World {
    Step(Step(Step(TwoTargets(perDomain, domains, domain, other), OnArm(Anyone())), OnStart(Anyone())),
         OnTick(1, Radius.Always()))
  }

  /** The stage runs, and both its targets are pending. */
  predicate BothPending(w: World, perDomain: nat, domains: nat, domain: nat, other: nat) {
    && w.cfg == Radius.PairIn(domain, other) && !w.halted && w.inbox == [] && w.ro.state.Running? && w.ro.cursor == 0
    && w.ro.stages == [Radius.Pair(perDomain, domains)]
  }

  lemma TwoAreFresh(perDomain: nat, domains: nat, domain: nat, other: nat)
    ensures Fresh(TwoTargets(perDomain, domains, domain, other))
  {
  }

  lemma TwoBegin(perDomain: nat, domains: nat, domain: nat, other: nat)
    ensures BothPending(TwoReady(perDomain, domains, domain, other), perDomain, domains, domain, other)
  {
    var w := TwoTargets(perDomain, domains, domain, other);
    var one := PutStage(w, 0, w.ro.stages[0].(frozen := true));
    assert FreezeCohorts(one, 1) == Result(one, true);
    assert FreezeCohorts(w, 0) == Result(one, true);
    var armed := Transition(one, Armed).w;
    assert Step(w, OnArm(Anyone())) == armed;
    var started := Transition(armed, Running).w;
    assert Step(armed, OnStart(Anyone())) == started;
    assert started.(inbox := []) == started;
    hide FreezeCohorts;
    assert CheckPredecessors(started.ro.stages, started.ro.stages[0], []) == EntryCheck.Ready;
    hide CheckPredecessors;
  }

  lemma TwoAreAttained(env: Env, perDomain: nat, domains: nat, domain: nat, other: nat)
    ensures Attained(env, TwoReady(perDomain, domains, domain, other))
  {
    TwoAreFresh(perDomain, domains, domain, other);
    var w := TwoTargets(perDomain, domains, domain, other);
    FreshIsAttained(env, w);
    hide Attained, Fresh, Step, TwoTargets;
    AttainedThen(env, w, OnArm(Anyone()));
    AttainedThen(env, Step(w, OnArm(Anyone())), OnStart(Anyone()));
    AttainedThen(env, Step(Step(w, OnArm(Anyone())), OnStart(Anyone())), OnTick(1, Radius.Always()));
  }

  /** The next tick sends out the whole plan. */
  lemma TwoAreSent(w: World, perDomain: nat, domains: nat, domain: nat, other: nat)
    requires BothPending(w, perDomain, domains, domain, other)
    ensures Tick(w, 1, Radius.Always()) == DispatchStage(w, 0, 1, Radius.Always())
  {
    var ts := w.ro.stages[0].targets;
    CountNone(ts, IsTerminal);
    CountNone(ts, IsFailed);
    assert ExpireAttempts(w, 0, 2, 1) == w;
    assert ExpireAttempts(w, 0, 1, 1) == w;
    assert ExpireAttempts(w, 0, 0, 1) == w;
    assert w.(inbox := []) == w;
    hide ExpireAttempts, DispatchStage, StageBudget, Count;
  }

  lemma PairIsPlannable(env: Env, w: World, perDomain: nat, domains: nat, domain: nat, other: nat)
    requires Enduring(env, w) && BothPending(w, perDomain, domains, domain, other)
    ensures Radius.Plannable(w, 0) && w.ro.stages[0].policy.radius.perDomain == perDomain
    ensures w.ro.stages[0].policy.radius.domains == domains
  {
    hide Enduring, PlanDispatch;
    Radius.PlanOfEnduring(env, w, 0);
  }

  /** Two targets of a domain limited to one start to change in one tick. */
  lemma DomainIsOverrun(env: Env)
    ensures var w := TwoReady(1, 10, 7, 7);
            var w', in7 := Tick(w, 1, Radius.Always()), Radius.Along(w.cfg.inventory, Radius.DomainOf, 7);
            && Attained(env, w) && w.HasStage(0) && w.ro.stages[0].policy.radius.perDomain == 1
            && Radius.Total(w.ro.stages, in7) == 0 && Radius.Total(w'.ro.stages, in7) == 2
  {
    var w := TwoReady(1, 10, 7, 7);
    TwoAreAttained(env, 1, 10, 7, 7);
    TwoBegin(1, 10, 7, 7);
    hide TwoReady, Attained, Enduring, Tick, DispatchStage, PlanDispatch, Radius.Plannable;
    AttainedEndures(env, w);
    TwoAreSent(w, 1, 10, 7, 7);
    PairIsPlannable(env, w, 1, 10, 7, 7);
    Radius.DomainLimitIsOverrun();
    Radius.AfterIs(w, 0, 1, Radius.Always(), Radius.DomainOf, 7);
    hide Radius.Total, Radius.Planned, Radius.Landed;
  }

  /** Two failure domains start to change in one tick although one may change at a time. */
  lemma DomainsAreOverrun(env: Env)
    ensures var w := TwoReady(10, 1, 7, 8);
            var w' := Tick(w, 1, Radius.Always());
            && Attained(env, w) && w.HasStage(0) && w.ro.stages[0].policy.radius.domains == 1
            && Radius.DomainsIn(w.ro.stages, w.cfg.inventory) == {}
            && Radius.DomainsIn(w'.ro.stages, w.cfg.inventory) == {7, 8}
  {
    var w := TwoReady(10, 1, 7, 8);
    TwoAreAttained(env, 10, 1, 7, 8);
    TwoBegin(10, 1, 7, 8);
    hide TwoReady, Attained, Enduring, Tick, DispatchStage, PlanDispatch, Radius.Plannable;
    AttainedEndures(env, w);
    TwoAreSent(w, 10, 1, 7, 8);
    PairIsPlannable(env, w, 10, 1, 7, 8);
    Radius.DomainCountIsOverrun();
    Radius.DomainsGrow(w, 0, 1, Radius.Always());
    hide Radius.DomainsIn, Radius.PlannedDomains;
  }
}
