/** A closed run of a rollout of two stages to its completion, and what may become of its next generation. */
module Completions {
  import opened Lifecycle
  import opened Exact
  import opened Rollouts
  import opened Dispatch
  import opened Machine
  import opened Books
  import opened Steps
  import opened Shape
  import opened Reachable
  import opened Restart
  import opened Endurance
  import opened Guarantees
  import opened Turns
  import opened Strandings
  import Gates
  import Witnesses

  // ----- the plan -----

  /** As in the other closed runs, but the gates open by themselves. */
  function Mild(): Policy {
    var rules := Witnesses.Rules(0);
    rules.(evidenceGate := rules.evidenceGate.(mode := Automatic))
  }

  function Target0(c: nat): nat { 10 * (c + 1) }

  function Plain(c: nat): Stage {
    Stage(c + 1, StPending, [], Mild(), false, [Action(1, Primary)], false, [Witnesses.Idle(Target0(c))],
          0, 0, 0, 0, 0, 0, 0, 0, false, 0, 0, EntryGate)
  }

  function Plan(): seq<Stage> { [Plain(0), Plain(1)] }

  function New(): World {
    World(Witnesses.Setting(), Rollout(1, 1, 0, Validated, Validated, Plan(), 0, 0, 0), map[], [], 2, [], false)
  }

  // ----- the run -----

  function Started(): World {
    Step(Step(New(), OnArm(Witnesses.Anyone())), OnStart(Witnesses.Anyone()))
  }

  function Report(c: nat, n: nat): Record {
    Record(true, 1, 1, c + 1, Target0(c), n, 1, 1, ExecutionCompleted, OutSucceeded, 1, 1, true, 0, 0)
  }

  function Begun(w: World): World { Step(w, OnTick(1, Witnesses.Yes())) }

  function Sent(w: World): World { Step(Begun(w), OnTick(1, Witnesses.Yes())) }

  function Told(w: World, c: nat, n: nat): World { Step(Sent(w), OnEvidence(Report(c, n))) }

  /** One stage after another: begun, sent, reported and passed. */
  function Passed(w: World, c: nat, n: nat): World { Step(Told(w, c, n), OnTick(2, Witnesses.Yes())) }

  function Done(): World { Passed(Passed(Started(), 0, 2), 1, 3) }

  // ----- what its worlds look like -----

  predicate Simple(st: Stage, c: nat, at: StageState, x: Target) {
    && st.id == c + 1 && st.state == at && st.policy == Mild() && st.actions == [Action(1, Primary)]
    && st.predecessors == [] && !st.requireVerification && st.frozen && st.targets == [x]
    && st.pendingGate == 0 && st.soakStartedAt == 0
  }

  function SentTarget(c: nat, n: nat): Target {
    Witnesses.Idle(Target0(c)).(state := Dispatched, epoch := 1, attemptsCreated := 1, currentAttempt := n,
                                lastAttempt := n, dispatchedAt := 1, lastChangeAt := 1)
  }

  function SentAttempt(c: nat): Attempt {
    Attempt(1, 1, c + 1, Target0(c), 1, 1, 101, Dispatched, false, OutInconclusive, 0, 0)
  }

  function DoneTarget(c: nat, n: nat): Target {
    SentTarget(c, n).(state := Succeeded, outcome := OutSucceeded, completedAt := 1)
  }

  /** The rollout stands at stage `c` in this state, and `n` is the next identifier. */
  predicate Row(w: World, c: nat, n: nat, state: RolloutState, at: StageState, x: Target) {
    && c < 2 && w.cfg == Witnesses.Setting() && !w.halted && w.inbox == [] && w.nextId == n
    && w.ro.id == 1 && w.ro.generation == 1 && w.ro.state == state && w.ro.cursor == c && |w.ro.stages| == 2
    && Simple(w.ro.stages[c], c, at, x)
    && (c == 0 ==> Simple(w.ro.stages[1], 1, StPending, Witnesses.Idle(20)))
    && (c == 1 ==> Simple(w.ro.stages[0], 0, StSucceeded, DoneTarget(0, 2)))
    && |w.order| <= c + 1 && (at.StPending? ==> |w.order| <= c)
    && forall id :: id in w.at ==> id < n
  }

  lemma NewIsFresh()
    ensures Fresh(New())
  {
  }

  lemma StartShows()
    ensures Row(Started(), 0, 2, Running, StPending, Witnesses.Idle(10))
  {
    var w := New();
    var one := PutStage(w, 0, w.ro.stages[0].(frozen := true));
    var two := PutStage(one, 1, one.ro.stages[1].(frozen := true));
    assert FreezeCohorts(two, 2) == Result(two, true);
    assert FreezeCohorts(one, 1) == Result(two, true);
    assert FreezeCohorts(w, 0) == Result(two, true);
    var armed := Transition(two, Armed).w;
    assert Step(w, OnArm(Witnesses.Anyone())) == armed;
    hide FreezeCohorts;
    assert forall i :: 0 <= i < |armed.ro.stages| ==> armed.ro.stages[i].frozen;
  }

  // ----- one stage -----

  lemma StageBegins(w: World, c: nat, n: nat)
    requires Row(w, c, n, Running, StPending, Witnesses.Idle(Target0(c))) ||
             Row(w, c, n, Advancing, StPending, Witnesses.Idle(Target0(c)))
    ensures BeginStage(w, c).ok && Row(BeginStage(w, c).w, c, n, Running, StRunning, Witnesses.Idle(Target0(c)))
    ensures |BeginStage(w, c).w.order| <= c
  {
    assert CheckPredecessors(w.ro.stages, w.ro.stages[c], []) == EntryCheck.Ready;
    hide CheckPredecessors;
  }

  lemma TickBegins(w: World, c: nat)
    requires !w.halted && w.inbox == [] && w.ro.state.AdmitsDispatch() && w.ro.cursor == c
    requires w.HasStage(c) && w.ro.stages[c].state.StPending?
    ensures Begun(w) == Halt(BeginStage(w, c))
  {
    hide BeginStage;
    assert w.(inbox := []) == w;
  }

  lemma TickRuns(w: World, d: World, c: nat, now: int)
    requires !w.halted && d == Drain(w.(inbox := []), w.inbox, now)
    requires d.ro.state.AdmitsDispatch() && d.ro.cursor == c && d.HasStage(c) && d.ro.stages[c].state.StRunning?
    ensures Step(w, OnTick(now, Witnesses.Yes())) == Halt(RunStage(d, c, now, Witnesses.Yes()))
  {
    hide Drain, RunStage;
  }

  lemma NothingUsed(w: World, c: nat, n: nat)
    requires Row(w, c, n, Running, StRunning, Witnesses.Idle(Target0(c)))
    ensures ChangingCount(w.ro.stages) == 0 && Count(w.ro.stages[c].targets, IsChanging) == 0
    ensures forall p :: UsageAround(NO_USAGE, w.ro.stages, w.cfg.inventory, p) == NO_USAGE
  {
    forall i | 0 <= i < |w.ro.stages| ensures Count(w.ro.stages[i].targets, IsChanging) == 0 {
      CountNone(w.ro.stages[i].targets, IsChanging);
    }
    ChangingCountZero(w.ro.stages);
    forall p ensures UsageAround(NO_USAGE, w.ro.stages, w.cfg.inventory, p) == NO_USAGE {
      NoUsage(w.ro.stages, w.cfg.inventory, p);
    }
  }

  lemma {:induction false} NoUsage(stages: seq<Stage>, inventory: map<nat, Placement>, p: Placement)
    requires forall i :: 0 <= i < |stages| ==> |stages[i].targets| == 1 && !IsChanging(stages[i].targets[0])
    ensures UsageAround(NO_USAGE, stages, inventory, p) == NO_USAGE
  {
    if stages != [] {
      var ts := stages[0].targets;
      assert ts[1..] == [] && UsageOf(NO_USAGE, [], inventory, p) == NO_USAGE;
      assert UsageOf(NO_USAGE, ts, inventory, p) == NO_USAGE;
      NoUsage(stages[1..], inventory, p);
    }
  }

  lemma PlansOne(w: World, c: nat, n: nat)
    requires Row(w, c, n, Running, StRunning, Witnesses.Idle(Target0(c)))
    ensures PlanDispatch(w.ro.stages, w.ro.stages[c], w.cfg) == [Entry(Target0(c), 1, 1)]
  {
    var st, admits := w.ro.stages[c], Admission(w.ro.stages, w.ro.stages[c], w.cfg.inventory);
    var batch := [Entry(Target0(c), 1, 1)];
    NothingUsed(w, c, n);
    CountNone(st.targets, IsAttempted);
    assert Admits(w.ro.stages, st, w.cfg.inventory, Target0(c));
    hide Admits, UsageAround, ChangingCount, Count;
    assert [] + [EntryFor(st.targets[0])] == batch;
    assert Walk(st, admits, 1, 1, batch, 1) == batch;
    assert Walk(st, admits, 1, 0, [], 0) == batch;
  }

  lemma BatchIsAccepted(w: World, c: nat, n: nat)
    requires Row(w, c, n, Running, StRunning, Witnesses.Idle(Target0(c)))
    ensures DispatchBatch(w, c, [Entry(Target0(c), 1, 1)], 1, Witnesses.Yes()) == Accept(w, c, 0, 0, 1, 1)
  {
    var batch, sent := [Entry(Target0(c), 1, 1)], Accept(w, c, 0, 0, 1, 1);
    assert FindTarget(w.ro.stages[c].targets, Target0(c)) == 0;
    assert FindKind(w.ro.stages[c].actions).Some?;
    assert batch[1..] == [];
    hide Accept, FindTarget, FindKind;
    assert DispatchBatch(sent, c, [], 1, Witnesses.Yes()) == sent;
  }

  predicate Holds(w: World, n: nat, a: Attempt) { n in w.at && w.at[n] == a }

  lemma AcceptedShows(w: World, c: nat, n: nat)
    requires Row(w, c, n, Running, StRunning, Witnesses.Idle(Target0(c))) && |w.order| <= c
    ensures var w' := Accept(w, c, 0, 0, 1, 1);
            Row(w', c, n + 1, Running, StRunning, SentTarget(c, n)) && Holds(w', n, SentAttempt(c))
  {
  }

  lemma AcceptShows(w: World, c: nat, n: nat)
    requires Row(w, c, n, Running, StRunning, Witnesses.Idle(Target0(c))) && |w.order| <= c
    ensures var w' := DispatchStage(w, c, 1, Witnesses.Yes());
            Row(w', c, n + 1, Running, StRunning, SentTarget(c, n)) && Holds(w', n, SentAttempt(c))
  {
    PlansOne(w, c, n);
    BatchIsAccepted(w, c, n);
    AcceptedShows(w, c, n);
    hide Accept, PlanDispatch, ChangingCount, DispatchBatch;
  }

  lemma RunningSends(w: World, c: nat, n: nat)
    requires Row(w, c, n, Running, StRunning, Witnesses.Idle(Target0(c)))
    ensures RunStage(w, c, 1, Witnesses.Yes()) == Result(DispatchStage(w, c, 1, Witnesses.Yes()), true)
  {
    var ts := w.ro.stages[c].targets;
    CountNone(ts, IsTerminal);
    CountNone(ts, IsFailed);
    assert ExpireAttempts(w, c, 1, 1) == w;
    assert ExpireAttempts(w, c, 0, 1) == w;
    hide ExpireAttempts, DispatchStage, StageBudget, Count;
  }

  lemma IngestShows(w: World, c: nat, n: nat)
    requires Row(w, c, n + 1, Running, StRunning, SentTarget(c, n)) && Holds(w, n, SentAttempt(c))
    ensures Row(Ingest(w, Report(c, n), 2), c, n + 1, Running, StRunning, DoneTarget(c, n))
  {
    assert FindStage(w.ro.stages[1..], 2) == 0;
    assert FindStage(w.ro.stages, c + 1) == c;
    assert FindTarget(w.ro.stages[c].targets, Target0(c)) == 0;
    assert Admit(w, Report(c, n), 2).Accepted?;
    hide FindStage, FindTarget, Admit;
  }

  lemma GatesOpen(st: Stage, c: nat, n: nat)
    requires Simple(st, c, StRunning, DoneTarget(c, n))
    ensures Gates.EvidenceGateOpen(st, 2, Witnesses.Setting()) && Gates.AdvanceGateOpen(st)
    ensures Count(st.targets, IsTerminal) == 1 && Count(st.targets, IsFailed) == 0
  {
    CountAll(st.targets, IsTerminal);
    CountNone(st.targets, IsFailed);
    Gates.AdvanceGateIsRational(st);
  }

  lemma DonePasses(w: World, c: nat, n: nat)
    requires n >= 1 && Row(w, c, n, Running, StRunning, DoneTarget(c, n - 1))
    ensures RunStage(w, c, 2, Witnesses.Yes()) == PassGates(w, c)
  {
    GatesOpen(w.ro.stages[c], c, n - 1);
    assert ExpireAttempts(w, c, 1, 2) == w;
    assert ExpireAttempts(w, c, 0, 2) == w;
    hide ExpireAttempts, StageBudget, Count, Gates.EvidenceGateOpen, Gates.AdvanceGateOpen, PassGates;
  }

  /** Both stages succeeded. */
  predicate Complete(w: World) {
    && w.ro.state.Completed? && !w.halted && w.inbox == [] && w.cfg == Witnesses.Setting() && |w.ro.stages| == 2
    && w.ro.stages[0].state.StSucceeded? && w.ro.stages[1].state.StSucceeded? && w.ro.generation < w.nextId
  }

  lemma FirstPasses(w: World)
    requires Row(w, 0, 3, Running, StRunning, DoneTarget(0, 2))
    ensures Row(Halt(PassGates(w, 0)), 1, 3, Advancing, StPending, Witnesses.Idle(20))
  {
  }

  lemma SecondPasses(w: World)
    requires Row(w, 1, 4, Running, StRunning, DoneTarget(1, 3))
    ensures Complete(Halt(PassGates(w, 1)))
  {
  }

  lemma ReportArrives(w: World, rec: Record)
    requires w.inbox == []
    ensures var w' := Step(w, OnEvidence(rec));
            w' == w.(inbox := [rec]) && Drain(w'.(inbox := []), w'.inbox, 2) == Ingest(w, rec, 2)
  {
    hide Ingest;
    var one := [rec];
    assert w.inbox + one == one && one[1..] == [];
    assert w.(inbox := one).(inbox := []) == w;
  }

  lemma SentShows(w: World, c: nat, n: nat)
    requires Row(w, c, n, Running, StPending, Witnesses.Idle(Target0(c))) ||
             Row(w, c, n, Advancing, StPending, Witnesses.Idle(Target0(c)))
    ensures Row(Sent(w), c, n + 1, Running, StRunning, SentTarget(c, n)) && Holds(Sent(w), n, SentAttempt(c))
  {
    TickBegins(w, c);
    StageBegins(w, c, n);
    hide Begun, BeginStage, Step, DispatchStage, RunStage;
    var b := Begun(w);
    AcceptShows(b, c, n);
    RunningSends(b, c, n);
    assert b.(inbox := []) == b;
    TickRuns(b, b, c, 1);
  }

  lemma StagePasses(w: World, c: nat, n: nat) returns (d: World)
    requires Row(w, c, n, Running, StPending, Witnesses.Idle(Target0(c))) ||
             Row(w, c, n, Advancing, StPending, Witnesses.Idle(Target0(c)))
    ensures Row(d, c, n + 1, Running, StRunning, DoneTarget(c, n)) && Passed(w, c, n) == Halt(PassGates(d, c))
  {
    SentShows(w, c, n);
    hide Sent, Step, Ingest, RunStage, PassGates;
    var s := Sent(w);
    d := Ingest(s, Report(c, n), 2);
    IngestShows(s, c, n);
    ReportArrives(s, Report(c, n));
    TickRuns(Told(w, c, n), d, c, 2);
    DonePasses(d, c, n + 1);
  }

  lemma DoneIs()
    ensures Done() == Passed(Passed(Started(), 0, 2), 1, 3)
    ensures Witnesses.Idle(10) == Witnesses.Idle(Target0(0)) && Witnesses.Idle(20) == Witnesses.Idle(Target0(1))
  {
    hide Started, Passed;
  }

  /** The first stage passed, the second is next. */
  lemma HalfDone()
    ensures Row(Passed(Started(), 0, 2), 1, 3, Advancing, StPending, Witnesses.Idle(Target0(1)))
  {
    hide *;
    StartShows();
    DoneIs();
    var d := StagePasses(Started(), 0, 2);
    FirstPasses(d);
  }

  lemma DoneIsComplete()
    ensures Complete(Done())
  {
    hide *;
    HalfDone();
    DoneIs();
    var e := StagePasses(Passed(Started(), 0, 2), 1, 3);
    SecondPasses(e);
  }

  // ----- the run is a run -----

  lemma StartedIsAttained(env: Env)
    ensures Attained(env, Started())
  {
    NewIsFresh();
    FreshIsAttained(env, New());
    hide Attained, Fresh, Step, New;
    AttainedThen(env, New(), OnArm(Witnesses.Anyone()));
    AttainedThen(env, Step(New(), OnArm(Witnesses.Anyone())), OnStart(Witnesses.Anyone()));
  }

  lemma ReportIsHonest(env: Env, w: World, c: nat, n: nat)
    requires Witnesses.Hears(env) && Row(w, c, n + 1, Running, StRunning, SentTarget(c, n))
    requires Holds(w, n, SentAttempt(c))
    ensures Honest(env, w, Report(c, n))
  {
  }

  lemma PassedIsAttained(env: Env, w: World, c: nat, n: nat)
    requires Witnesses.Hears(env) && Attained(env, w)
    requires Row(w, c, n, Running, StPending, Witnesses.Idle(Target0(c))) ||
             Row(w, c, n, Advancing, StPending, Witnesses.Idle(Target0(c)))
    ensures Attained(env, Passed(w, c, n))
  {
    SentShows(w, c, n);
    ReportIsHonest(env, Sent(w), c, n);
    hide Attained, Step, Row, Honest, Holds;
    AttainedThen(env, w, OnTick(1, Witnesses.Yes()));
    AttainedThen(env, Begun(w), OnTick(1, Witnesses.Yes()));
    AttainedThen(env, Sent(w), OnEvidence(Report(c, n)));
    AttainedThen(env, Told(w, c, n), OnTick(2, Witnesses.Yes()));
  }

  lemma DoneIsAttained(env: Env)
    requires Witnesses.Hears(env)
    ensures Attained(env, Done())
  {
    hide *;
    StartedIsAttained(env);
    StartShows();
    HalfDone();
    DoneIs();
    PassedIsAttained(env, Started(), 0, 2);
    PassedIsAttained(env, Passed(Started(), 0, 2), 1, 3);
  }

  // ----- its next generation -----

  function OnlyFirst(): nat -> bool { i => i == 0 }

  function Regenerated(renewed: seq<Stage>, fits: nat -> bool): World {
    Step(Done(), OnRegenerate(Witnesses.Anyone(), renewed, fits))
  }

  /** The fleet has grown past what a cohort may hold in the second stage: a completed rollout with a pending stage. */
  lemma RefusedRegeneration(env: Env)
    requires Witnesses.Hears(env)
    ensures var w := Regenerated(Plan(), OnlyFirst());
            && Attained(env, Done()) && Complete(Done()) && Attained(env, w)
            && w.ro.state.Completed? && w.ro.generation > Done().ro.generation
            && w.ro.cursor < |w.ro.stages| && |w.ro.stages| == 1 && w.ro.stages[0].state.StPending?
  {
    DoneIsAttained(env);
    DoneIsComplete();
    hide Done, Attained;
    RegeneratedPart(Done());
    AttainedThen(env, Done(), OnRegenerate(Witnesses.Anyone(), Plan(), OnlyFirst()));
    RegeneratedIs(Plan(), OnlyFirst());
    hide Step, Regenerate;
  }

  lemma RegeneratedIs(renewed: seq<Stage>, fits: nat -> bool)
    ensures Regenerated(renewed, fits) == Regenerate(Done(), Witnesses.Anyone(), renewed, fits).w
  {
    hide Done, Regenerate;
  }

  lemma RegeneratedPart(w: World)
    requires Complete(w)
    ensures Planned(Materialised(Plan(), OnlyFirst()))
    ensures var w' := Regenerate(w, Witnesses.Anyone(), Plan(), OnlyFirst()).w;
            && w'.ro.state.Completed? && w'.ro.generation > w.ro.generation
            && w'.ro.cursor < |w'.ro.stages| && |w'.ro.stages| == 1 && w'.ro.stages[0].state.StPending?
  {
    assert FirstUnfit(OnlyFirst(), 1, 2) == 1;
    assert Materialised(Plan(), OnlyFirst()) == [Plain(0)];
  }

  function Shrunk(): seq<Stage> { [Plain(0), Plain(1).(targets := [])] }

  function ArmRefused(): World {
    Step(Regenerated(Shrunk(), Witnesses.Yes()), OnArm(Witnesses.Anyone()))
  }

  lemma RegeneratedEmpty(w: World)
    requires Complete(w)
    ensures Planned(Materialised(Shrunk(), Witnesses.Yes()))
    ensures var w' := Regenerate(w, Witnesses.Anyone(), Shrunk(), Witnesses.Yes()).w;
            w'.ro.state.Validated? && w'.ro.cursor == 0 && w'.ro.stages == Shrunk()
  {
    assert FirstUnfit(Witnesses.Yes(), 2, 2) == 2;
    assert FirstUnfit(Witnesses.Yes(), 1, 2) == 2;
    assert FirstUnfit(Witnesses.Yes(), 0, 2) == 2;
    assert Shrunk()[..2] == Shrunk();
  }

  lemma ArmLeavesOneFrozen(w: World)
    requires w.ro.state.Validated? && w.ro.cursor == 0 && w.ro.stages == Shrunk()
    ensures Unbegun(w.ro) && Unarmable(w.ro)
    ensures var r := Arm(w, Witnesses.Anyone()); !r.ok && |r.w.ro.stages| == 2 && r.w.ro.stages[0].frozen
  {
    assert !Freezable(w.ro.stages[1]);
    var one := PutStage(w, 0, w.ro.stages[0].(frozen := true));
    assert FreezeCohorts(one, 1) == Result(one, false);
    assert FreezeCohorts(w, 0) == Result(one, false);
  }

  /** The fleet has shrunk and left the second stage empty: the new generation can be neither armed nor given up. */
  lemma RefusedArm(env: Env, turns: seq<Turn>, w': World)
    requires Witnesses.Hears(env) && Passes(env, ArmRefused(), turns, w')
    ensures Attained(env, ArmRefused()) && |ArmRefused().ro.stages| == 2 && ArmRefused().ro.stages[0].frozen
    ensures w'.ro.state.Validated? && w'.ro.generation == ArmRefused().ro.generation
  {
    hide *;
    var w := Regenerated(Shrunk(), Witnesses.Yes());
    ShrunkIsAttained(env);
    ArmLeavesOneFrozen(w);
    ArmRefusedIs(env);
    AttainedEndures(env, w);
    NobodyIsFenced(w.ro);
    ArmedIff(env, w, Witnesses.Anyone());
    ArmKeepsGeneration(w);
  }

  lemma NobodyIsFenced(ro: Rollout)
    ensures Fenced(ro, Witnesses.Anyone())
  {
  }

  lemma ArmKeepsGeneration(w: World)
    requires Unbegun(w.ro)
    ensures !Arm(w, Witnesses.Anyone()).ok ==> Arm(w, Witnesses.Anyone()).w.ro.generation == w.ro.generation
  {
    hide Unbegun, Arm;
    ArmUnbegun(w, Witnesses.Anyone());
  }

  lemma ShrunkIsAttained(env: Env)
    requires Witnesses.Hears(env)
    ensures var w := Regenerated(Shrunk(), Witnesses.Yes());
            Attained(env, w) && w.ro.state.Validated? && w.ro.cursor == 0 && w.ro.stages == Shrunk()
  {
    DoneIsAttained(env);
    DoneIsComplete();
    hide Done, Attained, Complete;
    RegeneratedEmpty(Done());
    RegeneratedIs(Shrunk(), Witnesses.Yes());
    AttainedThen(env, Done(), OnRegenerate(Witnesses.Anyone(), Shrunk(), Witnesses.Yes()));
    hide Step, Regenerate;
  }

  lemma ArmRefusedIs(env: Env)
    ensures ArmRefused() == Arm(Regenerated(Shrunk(), Witnesses.Yes()), Witnesses.Anyone()).w
    ensures Attained(env, Regenerated(Shrunk(), Witnesses.Yes())) ==> Attained(env, ArmRefused())
  {
    hide Attained, Regenerated, Arm;
    if Attained(env, Regenerated(Shrunk(), Witnesses.Yes())) {
      AttainedThen(env, Regenerated(Shrunk(), Witnesses.Yes()), OnArm(Witnesses.Anyone()));
    }
  }
}
