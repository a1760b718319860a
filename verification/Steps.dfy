/**
 * The state machine as small steps. Every operation of the orchestrator is a run of these steps, so a
 * property kept by each step is kept by every operation, every tick and every run.
 */
module Steps {
  import opened Lifecycle
  import opened Rollouts
  import opened Gates
  import opened Dispatch
  import opened Machine
  import opened Books

  /**
   * What is assumed of the outside. `releases`: a reconciliation may answer that an effect never started.
   * `confined`: compensation evidence is only reported for attempts that compensate. `heard`: everything
   * the executor ever reports, or answers when asked.
   */
  datatype Env = Env(releases: bool, confined: bool, heard: iset<Record>)

  datatype Cause = ByCancel | ByReport(rec: Record) | ByCompensation(rec: Record) | ByDeadline(now: int) | ByRelease

  datatype Act =
    | See(id: nat, sequence: nat)
    | Request(id: nat)
    | Lose(s: nat, t: nat, id: nat)
    | Observe(stages: seq<Stage>)
    | Finish(s: nat, t: nat, id: nat, cause: Cause)
    | Send(s: nat, t: nat, step: nat, now: int)
    | Refuse(s: nat, t: nat, now: int)
    | GiveUp(s: nat, t: nat)
    | Others(to: World)
    | Tune(to: World)
    | MoveRollout(state: RolloutState)
    | MoveStage(s: nat, into: StageState)
    | SetGate(s: nat, kind: GateKind)
    | ClearGate(s: nat)
    | Complete(s: nat)
    | Begin
    | Renew(stages: seq<Stage>, whole: bool)
    | Deliver(rec: Record)

  // ----- steps on attempts -----

  /** The live attempt `id` belongs to target `t` of stage `s`. */
  ghost predicate LiveOn(w: World, id: nat, s: nat, t: nat) {
    Current(w, id) && !w.at[id].Finished() && Names(w.ro, w.at[id], s, t)
  }

  ghost predicate CanSee(w: World, id: nat, sequence: nat) {
    Current(w, id) && !w.at[id].Finished() && sequence > w.at[id].highestSequence
  }

  function DoSee(w: World, id: nat, sequence: nat): World
    requires id in w.at
  {
    w.(at := w.at[id := w.at[id].(highestSequence := sequence)])
  }

  ghost predicate CanRequest(w: World, id: nat) { Current(w, id) && !w.at[id].Finished() }

  function DoRequest(w: World, id: nat): World
    requires id in w.at
  {
    w.(at := w.at[id := w.at[id].(cancelledEpoch := w.at[id].epoch)])
  }

  function DoLose(w: World, s: nat, t: nat, id: nat): World
    requires w.HasTarget(s, t) && id in w.at
  {
    var st := w.ro.stages[s];
    var x := st.targets[t];
    PutStage(w, s, PutTarget(st, t, x.(state := if x.state.Dispatched? then Unknown else x.state)))
    .(at := w.at[id := w.at[id].(state := Unknown)])
  }

  function VerdictFor(st: Stage, x: Target, a: Attempt, cause: Cause): Verdict {
    match cause
    case ByCancel => CancellationVerdict(st, x, a)
    case ByReport(rec) => TerminalVerdict(st, x, a, rec)
    case ByCompensation(rec) => CompensationVerdict(st, x, a, rec)
    case ByDeadline(now) => ExpiryVerdict(st, x, a, now)
    case ByRelease => ReleaseVerdict(st, x, a)
  }

  predicate IsTerminalReport(kind: EvidenceKind) { kind.ExecutionCompleted? || kind.ExecutionFailed? }

  /** An admitted report about attempt `id`: this generation, the attempt's epoch, its newest sequence. */
  predicate About(w: World, id: nat, rec: Record) {
    && rec.attempt == id && id in w.at && rec.rollout == w.ro.id && rec.generation == w.ro.generation
    && rec.epoch == w.at[id].epoch && rec.sequence == w.at[id].highestSequence
  }

  ghost predicate CanFinish(env: Env, w: World, s: nat, t: nat, id: nat, cause: Cause) {
    && LiveOn(w, id, s, t)
    && var x := w.ro.stages[s].targets[t];
       match cause
       case ByCancel => true
       case ByReport(rec) =>
         && About(w, id, rec) && IsTerminalReport(rec.kind) && !x.state.TRollingBack?
         && rec in env.heard && rec.stage == w.at[id].stage && rec.target == w.at[id].target
       case ByCompensation(rec) => About(w, id, rec) && (env.confined ==> x.state.TRollingBack?)
       case ByDeadline(now) => s == w.ro.cursor && w.ro.state.AdmitsDispatch() && Overdue(w, x, now)
       case ByRelease => env.releases
  }

  function DoFinish(w: World, s: nat, t: nat, id: nat, cause: Cause): World
    requires w.HasTarget(s, t) && id in w.at
  {
    Conclude(w, s, t, id, VerdictFor(w.ro.stages[s], w.ro.stages[s].targets[t], w.at[id], cause))
  }

  // ----- steps on targets -----

  /** Health and verification fields only. */
  ghost predicate ObservedOnly(st: Stage, st': Stage) {
    && st' == st.(targets := st'.targets) && |st'.targets| == |st.targets|
    && (forall j :: 0 <= j < |st.targets| ==>
          var x, x' := st.targets[j], st'.targets[j];
          && x'.id == x.id && x'.state == x.state && x'.epoch == x.epoch
          && x'.attemptsCreated == x.attemptsCreated && x'.currentAttempt == x.currentAttempt
          && x'.rollbackStep == x.rollbackStep)
  }

  ghost predicate CanObserve(w: World, stages: seq<Stage>) {
    && |stages| == |w.ro.stages|
    && (forall i :: 0 <= i < |stages| ==> ObservedOnly(w.ro.stages[i], stages[i]))
  }

  function DoObserve(w: World, stages: seq<Stage>): World { w.(ro := w.ro.(stages := stages)) }

  /** Room for one more changing target, and for one more attempted target while the canary is active. */
  ghost predicate HasRoom(stages: seq<Stage>, st: Stage, x: Target) {
    && Count(st.targets, IsChanging) < st.policy.maxConcurrency
    && Count(st.targets, IsChanging) < st.policy.radius.perStage
    && ChangingCount(stages) < st.policy.radius.global
    && (CanaryActive(st) && x.attemptsCreated == 0 ==> Count(st.targets, IsAttempted) < st.policy.canarySize)
  }

  ghost predicate CanSend(w: World, s: nat, t: nat, step: nat) {
    && w.HasTarget(s, t)
    && var st, x := w.ro.stages[s], w.ro.stages[s].targets[t];
       if step == 0 then
         && w.ro.state.AdmitsDispatch() && s == w.ro.cursor && st.state.StRunning?
         && PrimaryAction(st).Some? && x.state.Pending? && HasRoom(w.ro.stages, st, x)
       else
         && w.ro.state.RollingBack? && x.state.TRollingBack? && !Busy(w.at, x)
         && step == x.rollbackStep + 1 && CompensationAction(st, x.rollbackStep).Some?
  }

  function SentTarget(x: Target, id: nat, step: nat, now: int): Target {
    x.(lastAttempt := id, dispatchedAt := now, lastChangeAt := now, epoch := x.epoch + 1,
       attemptsCreated := x.attemptsCreated + 1, currentAttempt := id,
       state := if step == 0 then Dispatched else TRollingBack)
  }

  /** An accepted dispatch, before the attempt table is trimmed to its bound. */
  function DoSend(w: World, s: nat, t: nat, step: nat, now: int): World
    requires w.HasTarget(s, t)
  {
    var st, id := w.ro.stages[s], w.nextId;
    var x := st.targets[t];
    var a := Attempt(w.ro.id, w.ro.generation, st.id, x.id, x.epoch + 1, w.cfg.incarnation,
                     now + st.policy.attemptDeadline, Dispatched, false, OutInconclusive, 0, 0);
    var w1 := PutStage(w, s, PutTarget(st, t, SentTarget(x, id, step, now))
                             .(attemptsTotal := st.attemptsTotal + 1, dispatchedTotal := st.dispatchedTotal + 1));
    w1.(ro := w1.ro.(outstanding := w.ro.outstanding + 1), nextId := id + 1, at := w.at[id := a])
  }

  /** A refused dispatch leaves three fields behind and uses up the identifier. */
  function DoRefuse(w: World, s: nat, t: nat, now: int): World
    requires w.HasTarget(s, t)
  {
    var st := w.ro.stages[s];
    var x := st.targets[t].(lastAttempt := w.nextId, dispatchedAt := now, lastChangeAt := now);
    PutStage(w, s, PutTarget(st, t, x)).(nextId := w.nextId + 1)
  }

  ghost predicate CanGiveUp(w: World, s: nat, t: nat) {
    && w.HasTarget(s, t) && w.ro.state.RollingBack?
    && var x := w.ro.stages[s].targets[t];
       x.state.TRollingBack? && !Busy(w.at, x) && CompensationAction(w.ro.stages[s], x.rollbackStep).None?
  }

  function DoGiveUp(w: World, s: nat, t: nat): World
    requires w.HasTarget(s, t)
  {
    var st := w.ro.stages[s];
    PutStage(w, s, PutTarget(st, t, st.targets[t].(state := RollbackFailed, currentAttempt := 0))
                   .(rollbackFailedTotal := st.rollbackFailedTotal + 1))
  }

  // ----- steps that leave targets and attempts alone -----

  /** Freezing, clearing the canary, soak start, high-water marks: fields no other guard depends on. */
  ghost predicate TunedStage(st: Stage, st': Stage) {
    && st' == st.(frozen := st'.frozen, canaryCleared := st'.canaryCleared, soakStartedAt := st'.soakStartedAt,
                  maxObservedChanging := st'.maxObservedChanging)
    && (st.canaryCleared ==> st'.canaryCleared)
  }

  ghost predicate Tuned(w: World, w': World) {
    && w'.cfg == w.cfg.(inventory := w'.cfg.inventory)
    && w'.at == w.at && w'.nextId >= w.nextId && (w'.inbox == w.inbox || w'.inbox == [])
    && (w.ro.state.Paused? ==> w'.ro.resumeState == w.ro.resumeState)
    && w'.ro == w.ro.(stages := w'.ro.stages, revision := w'.ro.revision, resumeState := w'.ro.resumeState,
                      maxObservedChanging := w'.ro.maxObservedChanging)
    && |w'.ro.stages| == |w.ro.stages|
    && (forall i :: 0 <= i < |w.ro.stages| ==> TunedStage(w.ro.stages[i], w'.ro.stages[i]))
  }

  ghost predicate Settled(st: Stage) {
    forall j :: 0 <= j < |st.targets| ==> st.targets[j].state.Terminal()
  }

  ghost predicate NoneRollingBack(ro: Rollout) {
    forall i, j :: 0 <= i < |ro.stages| && 0 <= j < |ro.stages[i].targets| ==>
      !ro.stages[i].targets[j].state.TRollingBack?
  }

  predicate BeforeRollback(state: RolloutState) { state.Forward() || state.Aborting? }

  /** The stage at the cursor, if any, has ended. */
  predicate CursorEnded(ro: Rollout) { ro.cursor < |ro.stages| ==> ro.stages[ro.cursor].state.Terminal() }

  ghost predicate CanMoveRollout(w: World, to: RolloutState) {
    && LegalRollout(w.ro.state, to) && !to.RollingBack?
    && (to.Completed? ==> BeforeRollback(w.ro.state) && w.ro.cursor >= |w.ro.stages|)
    && (to.Failed? ==> if BeforeRollback(w.ro.state) then CursorEnded(w.ro) else NoneRollingBack(w.ro))
    && (to.Retired? ==> w.ro.state.Failed? || w.ro.state.Completed?)
    && (to.Paused? ==> w.ro.resumeState == w.ro.state)
  }

  ghost predicate CanMoveStage(w: World, s: nat, to: StageState) {
    && w.HasStage(s) && LegalStage(w.ro.stages[s].state, to)
    && match to
       case StArmed | StRunning | StGated | StFailed => s == w.ro.cursor && BeforeRollback(w.ro.state)
       case StSoaking => s == w.ro.cursor && BeforeRollback(w.ro.state) && Settled(w.ro.stages[s])
       case StAborted => s == w.ro.cursor && w.ro.state.Aborting?
       case StSkipped => w.ro.state.Aborting? && (s == w.ro.cursor || (s > w.ro.cursor && CursorEnded(w.ro)))
       case StRolledBack => w.ro.state.RollingBack? && NoneRollingBack(w.ro)
       case StPending | StBlocked | StAdvancing | StSucceeded => false
  }

  function DoMoveStage(w: World, s: nat, to: StageState): World
    requires w.HasStage(s)
  {
    var moved := PutStage(w, s, w.ro.stages[s].(state := to));
    moved.(ro := moved.ro.(revision := w.ro.revision + 1))
  }

  ghost predicate CanSetGate(w: World, s: nat, kind: GateKind) {
    && w.HasStage(s) && s == w.ro.cursor && BeforeRollback(w.ro.state) && !w.ro.stages[s].state.StPending?
    && (kind.EntryGate? || ((kind.EvidenceGate? || kind.AdvanceGate?) && Settled(w.ro.stages[s])))
  }

  function DoSetGate(w: World, s: nat, kind: GateKind): World
    requires w.HasStage(s)
  {
    PutStage(w, s, w.ro.stages[s].(pendingGate := w.nextId, pendingGateKind := kind)).(nextId := w.nextId + 1)
  }

  function DoClearGate(w: World, s: nat): World
    requires w.HasStage(s)
  {
    PutStage(w, s, w.ro.stages[s].(pendingGate := 0))
  }

  ghost predicate CanComplete(w: World, s: nat) {
    && w.HasStage(s) && s == w.ro.cursor && BeforeRollback(w.ro.state) && Settled(w.ro.stages[s])
    && var state := w.ro.stages[s].state;
       state.StRunning? || state.StGated? || state.StSoaking?
  }

  /** Through advancing to succeeded, and the cursor moves on. */
  function DoComplete(w: World, s: nat): World
    requires w.HasStage(s)
  {
    var moved := DoMoveStage(DoMoveStage(w, s, StAdvancing), s, StSucceeded);
    moved.(ro := moved.ro.(cursor := moved.ro.cursor + 1))
  }

  ghost predicate CanBegin(w: World) {
    LegalRollout(w.ro.state, RollingBack) && BeforeRollback(w.ro.state) && CursorEnded(w.ro)
  }

  function MarkedStages(stages: seq<Stage>): seq<Stage> {
    seq(|stages|, i requires 0 <= i < |stages| => MarkStage(stages[i]))
  }

  function DoBegin(w: World): World {
    var r := PutState(w, RollingBack);
    r.(ro := r.ro.(stages := MarkedStages(r.ro.stages)))
  }

  // ----- beginnings -----

  ghost predicate UntouchedTarget(x: Target) {
    x.state.Pending? && x.attemptsCreated == 0 && x.epoch == 0 && x.currentAttempt == 0
  }

  ghost predicate Untouched(st: Stage) {
    forall j :: 0 <= j < |st.targets| ==> UntouchedTarget(st.targets[j])
  }

  ghost predicate Earlier(stages: seq<Stage>, i: nat, id: nat) {
    exists j :: 0 <= j < i && j < |stages| && stages[j].id == id
  }

  /** Predecessors come earlier in the execution order. */
  ghost predicate Topological(stages: seq<Stage>) {
    forall i, k :: 0 <= i < |stages| && 0 <= k < |stages[i].predecessors| ==>
      Earlier(stages, i, stages[i].predecessors[k])
  }

  /** The stages of a validated plan before anything happened to them. */
  ghost predicate Planned(stages: seq<Stage>) {
    && (forall i, j :: 0 <= i < j < |stages| ==> stages[i].id != stages[j].id)
    && Topological(stages)
    && (forall i :: 0 <= i < |stages| ==>
          && StageOk(stages[i]) && Untouched(stages[i])
          && stages[i].state.StPending? && stages[i].pendingGate == 0 && stages[i].policy.maxAttempts >= 1)
  }

  /** A new generation of these stages; one that was given up half-way leaves the rollout's state as it was. */
  function Renewed(ro: Rollout, generation: nat, stages: seq<Stage>, whole: bool): Rollout {
    if whole then
      Rollout(ro.id, generation, ro.revision + 1, Validated, Validated, stages, 0, 0, ro.maxObservedChanging)
    else ro.(generation := generation, stages := stages, cursor := 0, outstanding := 0)
  }

  ghost predicate CanRenew(w: World, stages: seq<Stage>) {
    (w.ro.state.Failed? || w.ro.state.Completed?) && Planned(stages)
  }

  function DoRenew(w: World, stages: seq<Stage>, whole: bool): World {
    w.(ro := Renewed(w.ro, w.nextId, stages, whole), nextId := w.nextId + 1)
  }

  // ----- evidence on its way -----

  /**
   * The executor reports about attempts it was given and names their own generation, stage and target.
   * It may lie about anything else, and deliver late, repeatedly and in any order.
   */
  ghost predicate Honest(env: Env, w: World, rec: Record) {
    && rec.attempt < w.nextId && rec in env.heard
    && (rec.attempt in w.at ==>
          var a := w.at[rec.attempt];
          && rec.generation == a.generation && rec.stage == a.stage && rec.target == a.target
          && (env.confined && ClassOf(rec.kind).Compensation? && Current(w, rec.attempt) && !a.Finished() ==>
                forall s: nat, t: nat :: Names(w.ro, a, s, t) ==> w.ro.stages[s].targets[t].state.TRollingBack?))
  }

  function DoDeliver(w: World, rec: Record): World { w.(inbox := w.inbox + [rec]) }

  // ----- the step relation -----

  ghost predicate Enabled(env: Env, w: World, act: Act) {
    match act
    case See(id, sequence) => CanSee(w, id, sequence)
    case Request(id) => CanRequest(w, id)
    case Lose(s, t, id) => LiveOn(w, id, s, t)
    case Observe(stages) => CanObserve(w, stages)
    case Finish(s, t, id, cause) => CanFinish(env, w, s, t, id, cause)
    case Send(s, t, step, _) => CanSend(w, s, t, step)
    case Refuse(s, t, _) => w.HasTarget(s, t)
    case GiveUp(s, t) => CanGiveUp(w, s, t)
    case Others(to) => OthersOnly(w, to) && to.inbox == w.inbox
    case Tune(to) => Tuned(w, to)
    case MoveRollout(state) => CanMoveRollout(w, state)
    case MoveStage(s, into) => CanMoveStage(w, s, into)
    case SetGate(s, kind) => CanSetGate(w, s, kind)
    case ClearGate(s) => w.HasStage(s)
    case Complete(s) => CanComplete(w, s)
    case Begin => CanBegin(w)
    case Renew(stages, _) => CanRenew(w, stages)
    case Deliver(rec) => Honest(env, w, rec)
  }

  ghost function Do(env: Env, w: World, act: Act): World
    requires Enabled(env, w, act)
  {
    match act
    case See(id, sequence) => DoSee(w, id, sequence)
    case Request(id) => DoRequest(w, id)
    case Lose(s, t, id) => DoLose(w, s, t, id)
    case Observe(stages) => DoObserve(w, stages)
    case Finish(s, t, id, cause) => DoFinish(w, s, t, id, cause)
    case Send(s, t, step, now) => DoSend(w, s, t, step, now)
    case Refuse(s, t, now) => DoRefuse(w, s, t, now)
    case GiveUp(s, t) => DoGiveUp(w, s, t)
    case Others(to) => to
    case Tune(to) => to
    case MoveRollout(state) => PutState(w, state)
    case MoveStage(s, into) => DoMoveStage(w, s, into)
    case SetGate(s, kind) => DoSetGate(w, s, kind)
    case ClearGate(s) => DoClearGate(w, s)
    case Complete(s) => DoComplete(w, s)
    case Begin => DoBegin(w)
    case Renew(stages, whole) => DoRenew(w, stages, whole)
    case Deliver(rec) => DoDeliver(w, rec)
  }

  ghost predicate Runs(env: Env, w: World, acts: seq<Act>, w': World)
    decreases |acts|
  {
    if acts == [] then w' == w
    else Enabled(env, w, acts[0]) && Runs(env, Do(env, w, acts[0]), acts[1..], w')
  }

  /** Some run of steps leads from one world to the other. */
  ghost predicate Leads(env: Env, w: World, w': World) {
    exists acts :: Runs(env, w, acts, w')
  }

  lemma LeadsNowhere(env: Env, w: World)
    ensures Leads(env, w, w)
  {
    assert Runs(env, w, [], w);
  }

  lemma LeadsOne(env: Env, w: World, act: Act)
    requires Enabled(env, w, act)
    ensures Leads(env, w, Do(env, w, act))
  {
    assert [act][1..] == [];
    assert Runs(env, Do(env, w, act), [], Do(env, w, act));
    assert Runs(env, w, [act], Do(env, w, act));
  }

  lemma {:induction false} RunsJoin(env: Env, w: World, a: seq<Act>, mid: World, b: seq<Act>, w': World)
    requires Runs(env, w, a, mid) && Runs(env, mid, b, w')
    ensures Runs(env, w, a + b, w')
    decreases |a|
  {
    if a == [] {
      assert a + b == b;
    } else {
      RunsJoin(env, Do(env, w, a[0]), a[1..], mid, b, w');
      assert (a + b)[1..] == a[1..] + b;
    }
  }

  lemma LeadsThen(env: Env, w: World, mid: World, w': World)
    requires Leads(env, w, mid) && Leads(env, mid, w')
    ensures Leads(env, w, w')
  {
    var a :| Runs(env, w, a, mid);
    var b :| Runs(env, mid, b, w');
    RunsJoin(env, w, a, mid, b, w');
  }
}
