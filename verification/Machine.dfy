/**
 * The orchestration state machine of one rollout: evidence, dispatch, deadlines, gates, cancellation,
 * compensation and operator commands, as functions from one world to the next.
 *
 * The orchestrator runs without a journal, so persisting always succeeds. Evidence and dispatch answers
 * come from outside: `accept(a)` says whether the adapter takes attempt `a`, `stops(a)` whether a cancel
 * request for it is answered.
 */
module Machine {
  import opened Lifecycle
  import opened Rollouts
  import opened Gates
  import opened Dispatch

  datatype EvidenceKind =
    | DispatchAccepted | ExecutionProgress | ExecutionCompleted | ExecutionFailed | HealthSample
    | RollbackReported | RollbackFailureReported | VerificationPassed | VerificationFailed
    | CancellationAcknowledged

  datatype EvidenceClass = Acceptance | Execution | Telemetry | Compensation | Verification | Cancellation

  function ClassOf(kind: EvidenceKind): EvidenceClass {
    match kind
    case DispatchAccepted => Acceptance
    case ExecutionProgress | ExecutionCompleted | ExecutionFailed => Execution
    case HealthSample => Telemetry
    case RollbackReported | RollbackFailureReported => Compensation
    case VerificationPassed | VerificationFailed => Verification
    case CancellationAcknowledged => Cancellation
  }

  /** One report. `wellFormed` stands for the record's own field validation. */
  datatype Record = Record(
    wellFormed: bool, rollout: nat, generation: nat, stage: nat, target: nat, attempt: nat, epoch: nat,
    incarnation: nat, kind: EvidenceKind, outcome: Outcome, sequence: nat, observedAt: int, live: bool,
    healthSource: nat, verifier: nat)

  datatype World = World(
    cfg: Config, ro: Rollout, at: map<nat, Attempt>, order: seq<nat>, nextId: nat, inbox: seq<Record>,
    halted: bool)
  {
    predicate HasStage(s: nat) { s < |ro.stages| }
    predicate HasTarget(s: nat, t: nat) { s < |ro.stages| && t < |ro.stages[s].targets| }
  }

  /** The world after an operation, and whether the operation reported success. */
  datatype Result = Result(w: World, ok: bool)

  datatype Fence = Fence(generation: Option<nat>, revision: Option<nat>)

  function Less(n: nat): nat { if n > 0 then n - 1 else 0 }

  // ----- in-place updates -----

  function PutStage(w: World, s: nat, st: Stage): World
    requires w.HasStage(s)
  {
    w.(ro := w.ro.(stages := w.ro.stages[s := st]))
  }

  function PutTarget(st: Stage, t: nat, x: Target): Stage
    requires t < |st.targets|
  {
    st.(targets := st.targets[t := x])
  }

  /** What a report or a deadline makes of a stage's counters, of one target and of one attempt. */
  datatype Verdict = Verdict(st: Stage, x: Target, a: Attempt)

  /** An attempt of target `t` stops being outstanding: attempt, target, stage counters and count together. */
  function Conclude(w: World, s: nat, t: nat, id: nat, v: Verdict): World
    requires w.HasTarget(s, t)
  {
    var st := v.st.(targets := w.ro.stages[s].targets[t := v.x]);
    w.(ro := w.ro.(stages := w.ro.stages[s := st], outstanding := Less(w.ro.outstanding)), at := w.at[id := v.a])
  }

  function PutState(w: World, to: RolloutState): World {
    w.(ro := w.ro.(state := to, revision := w.ro.revision + 1))
  }

  function Transition(w: World, to: RolloutState): Result {
    if w.ro.state == to then Result(w, true)
    else if !LegalRollout(w.ro.state, to) then Result(w, false)
    else Result(PutState(w, to), true)
  }

  function StageTransition(w: World, s: nat, to: StageState): Result
    requires w.HasStage(s)
  {
    var st := w.ro.stages[s];
    if st.state == to then Result(w, true)
    else if !LegalStage(st.state, to) then Result(w, false)
    else
      var moved := PutStage(w, s, st.(state := to));
      Result(moved.(ro := moved.ro.(revision := w.ro.revision + 1)), true)
  }

  // ----- evidence -----

  datatype Disposition =
    | Accepted | Duplicate | OutOfOrder | StaleAttempt | StaleGeneration | StaleIncarnation
    | UnknownAttempt | Expired | Malformed

  function Admit(w: World, rec: Record, now: int): Disposition {
    var s := FindStage(w.ro.stages, rec.stage);
    if !rec.wellFormed then Malformed
    else if rec.rollout != w.ro.id then UnknownAttempt
    else if rec.generation != w.ro.generation then StaleGeneration
    else if !w.HasStage(s) then Malformed
    else if !w.HasTarget(s, FindTarget(w.ro.stages[s].targets, rec.target)) then Malformed
    else if rec.attempt !in w.at then UnknownAttempt
    else
      var live, klass, policy := w.at[rec.attempt], ClassOf(rec.kind), w.ro.stages[s].policy;
      var maxAge := if policy.evidenceMaxAge == 0 then w.cfg.defaultMaxAge else policy.evidenceMaxAge;
      if rec.incarnation != w.cfg.incarnation && (klass.Telemetry? || klass.Acceptance? || klass.Cancellation?)
      then StaleIncarnation
      else if rec.epoch != live.epoch then StaleAttempt
      else if rec.sequence == live.highestSequence then Duplicate
      else if rec.sequence < live.highestSequence then OutOfOrder
      else if live.Finished() then StaleAttempt
      else if !klass.Telemetry? && !Fresh(rec.observedAt, now, maxAge, w.cfg.maxFutureSkew) then Expired
      else Accepted
  }

  /** The executor confirmed it stopped. */
  function CancellationVerdict(st: Stage, x: Target, a: Attempt): Verdict {
    Verdict(st.(cancelledTotal := st.cancelledTotal + 1),
            x.(currentAttempt := 0, state := if x.state.Dispatched? || x.state.Unknown? then Cancelled else x.state),
            a.(completed := true, state := Cancelled, outcome := OutInconclusive))
  }

  function RetryOrExhaust(st: Stage, x: Target): Target {
    if x.attemptsCreated < st.policy.maxAttempts then x.(state := Pending, currentAttempt := 0)
    else if LegalTarget(x.state, Exhausted) then x.(state := Exhausted)
    else x
  }

  function FailureVerdict(st: Stage, x: Target, a: Attempt, at: int): Verdict {
    Verdict(st.(failedTotal := st.failedTotal + 1),
            RetryOrExhaust(st, x.(state := TFailed, outcome := OutFailed, completedAt := at)),
            a.(state := TFailed))
  }

  /** The only path that can complete a target. */
  function TerminalVerdict(st: Stage, x: Target, a: Attempt, rec: Record): Verdict {
    var done := a.(completed := true, outcome := rec.outcome);
    if a.cancelledEpoch != 0 then
      Verdict(st.(cancelledTotal := st.cancelledTotal + 1), x.(state := Cancelled, outcome := OutInconclusive),
              done.(state := Cancelled))
    else if x.currentAttempt != rec.attempt then
      Verdict(st, x, done.(state := Unknown))
    else if rec.outcome.OutSucceeded? && rec.kind.ExecutionCompleted? then
      Verdict(st.(succeededTotal := st.succeededTotal + 1),
              x.(state := Succeeded, outcome := OutSucceeded, completedAt := rec.observedAt),
              done.(state := Succeeded))
    else FailureVerdict(st, x, done, rec.observedAt)
  }

  /** The outcome, not the reported kind, decides whether the compensating action took effect. */
  function CompensationVerdict(st: Stage, x: Target, a: Attempt, rec: Record): Verdict {
    var done := a.(completed := true, outcome := rec.outcome);
    if !rec.outcome.OutSucceeded? then
      Verdict(st.(rollbackFailedTotal := st.rollbackFailedTotal + 1), x.(state := RollbackFailed, currentAttempt := 0),
              done.(state := RollbackFailed))
    else if x.rollbackStep + 1 < |st.policy.compensation| then
      Verdict(st, x.(rollbackStep := x.rollbackStep + 1), done.(state := RolledBack))
    else
      Verdict(st.(rolledBackTotal := st.rolledBackTotal + 1),
              x.(rollbackStep := x.rollbackStep + 1, state := RolledBack, currentAttempt := 0),
              done.(state := RolledBack))
  }

  function ApplyVerification(w: World, rec: Record, s: nat, t: nat): World
    requires w.HasTarget(s, t)
  {
    var st := w.ro.stages[s];
    PutStage(w, s, PutTarget(st, t, st.targets[t].(verifiedAt := rec.observedAt, verifier := rec.verifier,
                                                   verificationPassed := rec.kind.VerificationPassed?)))
  }

  /** The newest sequence an attempt has shown is remembered before anything else. */
  function Seen(w: World, rec: Record): World
    requires rec.attempt in w.at
  {
    w.(at := w.at[rec.attempt := w.at[rec.attempt].(highestSequence := rec.sequence)])
  }

  function ApplyEvidence(w: World, rec: Record): World {
    var s := FindStage(w.ro.stages, rec.stage);
    if !w.HasStage(s) then w
    else
      var st, t := w.ro.stages[s], FindTarget(w.ro.stages[s].targets, rec.target);
      if !w.HasTarget(s, t) || rec.attempt !in w.at then w
      else
        var seen, id := Seen(w, rec), rec.attempt;
        match ClassOf(rec.kind)
        case Telemetry => seen
        case Acceptance => seen
        case Cancellation => Conclude(seen, s, t, id, CancellationVerdict(st, st.targets[t], seen.at[id]))
        case Execution =>
          if !rec.kind.ExecutionCompleted? && !rec.kind.ExecutionFailed? then seen
          else if st.targets[t].state.TRollingBack? then
            Conclude(seen, s, t, id, CompensationVerdict(st, st.targets[t], seen.at[id], rec))
          else Conclude(seen, s, t, id, TerminalVerdict(st, st.targets[t], seen.at[id], rec))
        case Compensation => Conclude(seen, s, t, id, CompensationVerdict(st, st.targets[t], seen.at[id], rec))
        case Verification => ApplyVerification(seen, rec, s, t)
  }

  function HealthOf(x: Target, rec: Record): Target {
    var seen := x.(lastHealthyAt := rec.observedAt, healthSource := rec.healthSource, originLive := rec.live);
    if rec.outcome.OutSucceeded? then
      seen.(healthy := true, consecutiveHealthy := x.consecutiveHealthy + 1,
            healthySince := if x.healthySince == 0 then rec.observedAt else x.healthySince)
    else seen.(healthy := false, consecutiveHealthy := 0, healthySince := 0)
  }

  function HealthIn(st: Stage, rec: Record): Stage {
    var t := FindTarget(st.targets, rec.target);
    if t == |st.targets| then st else PutTarget(st, t, HealthOf(st.targets[t], rec))
  }

  /** Telemetry is routed by target through every stage that holds it. */
  function ApplyTelemetry(w: World, rec: Record, now: int): World {
    if !Fresh(rec.observedAt, now, w.cfg.defaultMaxAge, w.cfg.maxFutureSkew) then w
    else w.(ro := w.ro.(stages := seq(|w.ro.stages|,
                                     i requires 0 <= i < |w.ro.stages| => HealthIn(w.ro.stages[i], rec))))
  }

  function Ingest(w: World, rec: Record, now: int): World {
    if ClassOf(rec.kind).Telemetry? then ApplyTelemetry(w, rec, now)
    else if Admit(w, rec, now).Accepted? then ApplyEvidence(w, rec)
    else w
  }

  function Drain(w: World, batch: seq<Record>, now: int): World
    decreases |batch|
  {
    if batch == [] then w else Drain(Ingest(w, batch[0], now), batch[1..], now)
  }

  // ----- dispatch -----

  /** Drops finished attempts from the front of the order while the table is over its bound. */
  function Trim(at: map<nat, Attempt>, order: seq<nat>, bound: nat): (map<nat, Attempt>, seq<nat>)
    decreases |order|
  {
    if |order| <= bound then (at, order)
    else if order[0] in at && at[order[0]].Finished() then Trim(at - {order[0]}, order[1..], bound)
    else (at, order)
  }

  function NoteAttempt(w: World, id: nat, a: Attempt): World {
    var order := if id in w.at then w.order else w.order + [id];
    var (at', order') := Trim(w.at[id := a], order, 2 * w.cfg.maxConcurrentAttempts + 1);
    w.(at := at', order := order')
  }

  /** The executor took the work: target, counters and table record a new attempt under its epoch. */
  function Accept(w: World, s: nat, t: nat, rollbackStep: nat, epoch: nat, now: int): World
    requires w.HasTarget(s, t)
  {
    var st, id := w.ro.stages[s], w.nextId;
    var x := st.targets[t].(lastAttempt := id, dispatchedAt := now, lastChangeAt := now, epoch := epoch,
                            attemptsCreated := st.targets[t].attemptsCreated + 1, currentAttempt := id,
                            state := if rollbackStep == 0 then Dispatched else TRollingBack);
    var a := Attempt(w.ro.id, w.ro.generation, st.id, x.id, epoch, w.cfg.incarnation,
                     now + st.policy.attemptDeadline, Dispatched, false, OutInconclusive, 0, 0);
    var w1 := PutStage(w, s, PutTarget(st, t, x).(attemptsTotal := st.attemptsTotal + 1,
                                                  dispatchedTotal := st.dispatchedTotal + 1));
    NoteAttempt(w1.(ro := w1.ro.(outstanding := w.ro.outstanding + 1), nextId := id + 1), id, a)
  }

  /** A zero `rollbackStep` is forward work; otherwise the attempt compensates step `rollbackStep - 1`. */
  function CreateAndDispatch(w: World, s: nat, t: nat, rollbackStep: nat, epoch: nat, now: int,
                             accept: nat -> bool): World
    requires w.HasTarget(s, t)
  {
    if !w.cfg.hasExecution then w
    else if accept(w.nextId) then Accept(w, s, t, rollbackStep, epoch, now)
    else
      var st := w.ro.stages[s];
      var x := st.targets[t].(lastAttempt := w.nextId, dispatchedAt := now, lastChangeAt := now);
      PutStage(w, s, PutTarget(st, t, x)).(nextId := w.nextId + 1)
  }

  function DispatchEntry(w: World, s: nat, e: Entry, now: int, accept: nat -> bool): World
    requires w.HasStage(s)
  {
    var t := FindTarget(w.ro.stages[s].targets, e.target);
    if PrimaryAction(w.ro.stages[s]).None? || !w.HasTarget(s, t) then w
    else CreateAndDispatch(w, s, t, 0, e.epoch, now, accept)
  }

  function DispatchBatch(w: World, s: nat, batch: seq<Entry>, now: int, accept: nat -> bool): (r: World)
    requires w.HasStage(s)
    ensures |r.ro.stages| == |w.ro.stages|
    decreases |batch|
  {
    if batch == [] then w else DispatchBatch(DispatchEntry(w, s, batch[0], now, accept), s, batch[1..], now, accept)
  }

  function DispatchStage(w: World, s: nat, now: int, accept: nat -> bool): World
    requires w.HasStage(s)
  {
    var batch := PlanDispatch(w.ro.stages, w.ro.stages[s], w.cfg);
    var sent := DispatchBatch(w, s, batch, now, accept);
    var changing, st := ChangingCount(sent.ro.stages), sent.ro.stages[s];
    var marked := PutStage(sent, s, st.(maxObservedChanging := Max(st.maxObservedChanging, changing)));
    marked.(ro := marked.ro.(maxObservedChanging := Max(sent.ro.maxObservedChanging, changing)))
  }

  // ----- cancellation -----

  /** Marks the live attempt of every target from `i` on as cancelled; stops at the first unanswered request. */
  function CancelInFlight(w: World, s: nat, i: nat, stops: nat -> bool): Result
    requires w.HasStage(s) && i <= |w.ro.stages[s].targets|
    decreases |w.ro.stages[s].targets| - i
  {
    if i == |w.ro.stages[s].targets| then Result(w, true)
    else
      var id := w.ro.stages[s].targets[i].currentAttempt;
      if id == 0 || id !in w.at || w.at[id].Finished() then CancelInFlight(w, s, i + 1, stops)
      else
        var w1 := w.(at := w.at[id := w.at[id].(cancelledEpoch := w.at[id].epoch)]);
        if w.cfg.hasExecution && !stops(id) then Result(w1, false)
        else CancelInFlight(w1, s, i + 1, stops)
  }

  // ----- failure and rollback -----

  predicate HasCompensation(stages: seq<Stage>) {
    exists i :: 0 <= i < |stages| && stages[i].policy.rollbackSupported && stages[i].policy.compensation != []
  }

  function FailRollout(w: World): Result {
    if w.ro.state.Terminal() then Result(w, true)
    else
      var r := if w.ro.state.Paused? then Transition(w, Running) else Result(w, true);
      if !r.ok then r else Transition(r.w, Failed)
  }

  function MarkTarget(x: Target): Target {
    if x.state.Succeeded? || x.state.TFailed? then x.(state := TRollingBack, rollbackStep := 0, currentAttempt := 0)
    else x
  }

  function MarkStage(st: Stage): Stage {
    if st.state.StPending? || st.state.StSkipped? || !st.policy.rollbackSupported then st
    else st.(targets := seq(|st.targets|, i requires 0 <= i < |st.targets| => MarkTarget(st.targets[i])))
  }

  function BeginRollback(w: World): Result {
    var r := if w.ro.state.RollingBack? then Result(w, true) else Transition(w, RollingBack);
    if !r.ok then r
    else
      var stages := r.w.ro.stages;
      Result(r.w.(ro := r.w.ro.(stages := seq(|stages|, i requires 0 <= i < |stages| => MarkStage(stages[i])))), true)
  }

  function FailStage(w: World, s: nat): Result
    requires w.HasStage(s)
  {
    var r := StageTransition(w, s, StFailed);
    if !r.ok then r
    else if HasCompensation(r.w.ro.stages) then BeginRollback(r.w)
    else FailRollout(r.w)
  }

  /** Dispatches the next compensation step of one target, unless its current attempt is still live. */
  function RunRollback(w: World, s: nat, t: nat, now: int, accept: nat -> bool): World
    requires w.HasTarget(s, t)
  {
    var st := w.ro.stages[s];
    var x := st.targets[t];
    if x.currentAttempt != 0 && x.currentAttempt in w.at && !w.at[x.currentAttempt].Finished() then w
    else if CompensationAction(st, x.rollbackStep).None? then
      PutStage(w, s, PutTarget(st, t, x.(state := RollbackFailed, currentAttempt := 0))
                     .(rollbackFailedTotal := st.rollbackFailedTotal + 1))
    else CreateAndDispatch(w, s, t, x.rollbackStep + 1, x.epoch + 1, now, accept)
  }

  function RollBackTarget(w: World, s: nat, t: nat, now: int, accept: nat -> bool): World
    requires w.HasTarget(s, t)
  {
    if w.ro.stages[s].targets[t].state.TRollingBack? then RunRollback(w, s, t, now, accept) else w
  }

  function RollBackTargets(w: World, s: nat, t: nat, now: int, accept: nat -> bool): (r: World)
    requires w.HasStage(s) && t <= |w.ro.stages[s].targets|
    ensures |r.ro.stages| == |w.ro.stages|
    decreases |w.ro.stages[s].targets| - t
  {
    if t == |w.ro.stages[s].targets| then w
    else RollBackTargets(RollBackTarget(w, s, t, now, accept), s, t + 1, now, accept)
  }

  function RollBackStages(w: World, s: nat, now: int, accept: nat -> bool): World
    requires s <= |w.ro.stages|
    decreases |w.ro.stages| - s
  {
    if s == |w.ro.stages| then w
    else RollBackStages(RollBackTargets(w, s, 0, now, accept), s + 1, now, accept)
  }

  predicate StillRollingBack(st: Stage) {
    !st.state.StPending? && !st.state.StSkipped? &&
    exists i :: 0 <= i < |st.targets| && st.targets[i].state.TRollingBack?
  }

  function SettleStages(w: World, s: nat): Result
    requires s <= |w.ro.stages|
    decreases |w.ro.stages| - s
  {
    if s == |w.ro.stages| then Result(w, true)
    else
      var r := StageTransition(w, s, StRolledBack);
      if !r.ok then r else SettleStages(r.w, s + 1)
  }

  function FinishRollback(w: World): Result {
    if exists s :: 0 <= s < |w.ro.stages| && StillRollingBack(w.ro.stages[s]) then Result(w, true)
    else
      var r := SettleStages(w, 0);
      if !r.ok then r else FailRollout(r.w)
  }

  // ----- stage progress -----

  function OpenGate(w: World, s: nat, kind: GateKind): World
    requires w.HasStage(s)
  {
    var w1 := PutStage(w, s, w.ro.stages[s].(pendingGate := w.nextId, pendingGateKind := kind))
             .(nextId := w.nextId + 1);
    var r := StageTransition(w1, s, StGated);
    if !r.ok then w1.(halted := true)
    else if LegalRollout(r.w.ro.state, Gated) then Transition(r.w, Gated).w
    else r.w
  }

  datatype EntryCheck = Ready | NotReady | Refused | Missing

  /** Looks at the predecessors in declared order until one decides. */
  function CheckPredecessors(stages: seq<Stage>, st: Stage, predecessors: seq<nat>): EntryCheck {
    if predecessors == [] then Ready
    else
      var p := FindStage(stages, predecessors[0]);
      if p == |stages| then Missing
      else if stages[p].state.StSucceeded? then CheckPredecessors(stages, st, predecessors[1..])
      else if stages[p].state.Terminal() then
        if st.policy.requirePredecessorsSucceeded then Refused
        else CheckPredecessors(stages, st, predecessors[1..])
      else NotReady
  }

  function BeginStage(w: World, s: nat): Result
    requires w.HasStage(s)
  {
    var st := w.ro.stages[s];
    match CheckPredecessors(w.ro.stages, st, st.predecessors)
    case Missing => Result(w, false)
    case Refused => FailRollout(w)
    case NotReady => Result(w, true)
    case Ready =>
      var r := if st.state.StPending? then StageTransition(w, s, StArmed) else Result(w, true);
      if !r.ok then r
      else if st.state.StPending? && st.policy.entryGate.Manual? && st.pendingGate == 0 then
        Result(OpenGate(r.w, s, EntryGate), true)
      else
        var run := StageTransition(r.w, s, StRunning);
        if !run.ok || run.w.ro.state.Running? then run else Transition(run.w, Running)
  }

  /** Past its gates: through advancing to succeeded, and on to the next stage or to completion. */
  function PassGates(w: World, s: nat): Result
    requires w.HasStage(s)
  {
    var r1 := StageTransition(w, s, StAdvancing);
    if !r1.ok then r1
    else
      var r2 := StageTransition(r1.w, s, StSucceeded);
      if !r2.ok then r2
      else
        var moved := r2.w.(ro := r2.w.ro.(cursor := r2.w.ro.cursor + 1));
        Transition(moved, if moved.ro.cursor >= |moved.ro.stages| then Completed else Advancing)
  }

  function CompleteStage(w: World, s: nat, now: int, approved: bool): Result
    requires w.HasStage(s)
  {
    var st := w.ro.stages[s];
    if !EvidenceGateOpen(st, now, w.cfg) && !approved then
      if st.policy.evidenceGate.mode.Manual? then Result(OpenGate(w, s, EvidenceGate), true) else FailStage(w, s)
    else if !AdvanceGateOpen(st) && !approved then
      if st.policy.advanceGate.Manual? then Result(OpenGate(w, s, AdvanceGate), true) else Result(w, true)
    else PassGates(w, s)
  }

  /** An overdue attempt is failed by the runtime, or cancelled if a cancel was already requested. */
  function ExpiryVerdict(st: Stage, x: Target, a: Attempt, now: int): Verdict {
    var done := a.(completed := true, outcome := OutInconclusive);
    var late := x.(currentAttempt := 0, completedAt := now);
    if a.cancelledEpoch != 0 then
      Verdict(st.(cancelledTotal := st.cancelledTotal + 1), late.(state := Cancelled), done.(state := Cancelled))
    else FailureVerdict(st, late, done, now)
  }

  predicate Overdue(w: World, x: Target, now: int) {
    && x.state.Dispatched? && x.currentAttempt != 0
    && x.currentAttempt in w.at && !w.at[x.currentAttempt].Finished()
    && w.at[x.currentAttempt].deadline != 0 && now > w.at[x.currentAttempt].deadline
  }

  function ExpireTarget(w: World, s: nat, t: nat, now: int): World
    requires w.HasTarget(s, t)
  {
    var x := w.ro.stages[s].targets[t];
    if !Overdue(w, x, now) then w
    else Conclude(w, s, t, x.currentAttempt, ExpiryVerdict(w.ro.stages[s], x, w.at[x.currentAttempt], now))
  }

  function ExpireAttempts(w: World, s: nat, t: nat, now: int): (r: World)
    requires w.HasStage(s) && t <= |w.ro.stages[s].targets|
    ensures |r.ro.stages| == |w.ro.stages|
    decreases |w.ro.stages[s].targets| - t
  {
    if t == |w.ro.stages[s].targets| then w else ExpireAttempts(ExpireTarget(w, s, t, now), s, t + 1, now)
  }

  predicate CanaryBatchGood(st: Stage, now: int, cfg: Config) {
    && (forall i :: 0 <= i < |st.targets| && st.targets[i].attemptsCreated > 0 ==> st.targets[i].state.Succeeded?)
    && (st.policy.canaryRequiresHealthGate ==> HealthGateOpen(st, now, cfg))
  }

  predicate CanaryExhausted(st: Stage) {
    exists i :: 0 <= i < |st.targets| && st.targets[i].attemptsCreated > 0 && st.targets[i].state.Exhausted?
  }

  predicate CanaryDue(st: Stage) { CanaryActive(st) && st.dispatchedTotal >= st.policy.canarySize }

  function StageBudget(st: Stage): nat {
    Budget(st.policy.failureBudgetTargets, st.policy.failureBudgetFraction, |st.targets|)
  }

  function StartSoak(w: World, s: nat, now: int): Result
    requires w.HasStage(s)
  {
    var r := StageTransition(PutStage(w, s, w.ro.stages[s].(soakStartedAt := now)), s, StSoaking);
    if !r.ok then r
    else if LegalRollout(r.w.ro.state, Soaking) then Transition(r.w, Soaking)
    else r
  }

  /** The steps after deadlines and the failure budget: soak and gates, health hold, or dispatch. */
  function Proceed(w: World, s: nat, now: int, accept: nat -> bool): Result
    requires w.HasStage(s)
  {
    var st := w.ro.stages[s];
    var soak := st.policy.evidenceGate.soak;
    if Count(st.targets, IsTerminal) == |st.targets| then
      if soak != 0 && st.soakStartedAt == 0 then StartSoak(w, s, now)
      else if soak != 0 && now - st.soakStartedAt < soak then Result(w, true)
      else CompleteStage(w, s, now, false)
    else if st.succeededTotal > 0 && !HealthGateOpen(st, now, w.cfg) then Result(w, true)
    else Result(DispatchStage(w, s, now, accept), true)
  }

  /** A stage's tick after its deadlines: failure budget, canary, then the rest. */
  function AfterDeadlines(w: World, s: nat, now: int, accept: nat -> bool): Result
    requires w.HasStage(s)
  {
    var st := w.ro.stages[s];
    if Count(st.targets, IsFailed) > StageBudget(st) then FailStage(w, s)
    else if CanaryDue(st) && CanaryBatchGood(st, now, w.cfg) then
      Proceed(PutStage(w, s, st.(canaryCleared := true)), s, now, accept)
    else if CanaryDue(st) && CanaryExhausted(st) then FailStage(w, s)
    else Proceed(w, s, now, accept)
  }

  function RunStage(w: World, s: nat, now: int, accept: nat -> bool): Result
    requires w.HasStage(s)
  {
    AfterDeadlines(ExpireAttempts(w, s, 0, now), s, now, accept)
  }

  function StepCursor(w: World): World { w.(ro := w.ro.(cursor := w.ro.cursor + 1)) }

  /** One tick of one rollout that admits work. */
  function AdvanceForward(w: World, now: int, accept: nat -> bool): Result {
    var s := w.ro.cursor;
    if !w.HasStage(s) then Transition(w, Completed)
    else
      match w.ro.stages[s].state
      case StPending => BeginStage(w, s)
      case StBlocked => Result(w, true)
      case StArmed => StageTransition(w, s, StRunning)
      case StRunning | StSoaking => RunStage(w, s, now, accept)
      case StGated => Result(w, true)
      case StAdvancing => CompleteStage(w, s, now, true)
      case StSucceeded =>
        var moved := StepCursor(w);
        Transition(moved, if moved.ro.cursor >= |moved.ro.stages| then Completed else Advancing)
      case StFailed | StAborted =>
        if HasCompensation(w.ro.stages) then BeginRollback(w) else FailRollout(w)
      case StRolledBack | StSkipped => Result(StepCursor(w), true)
  }

  /** A failed operation stops every later tick. */
  function Halt(r: Result): World { if r.ok then r.w else r.w.(halted := true) }

  function Advance(w: World, now: int, accept: nat -> bool): World {
    if w.ro.state.RollingBack? then Halt(FinishRollback(RollBackStages(w, 0, now, accept)))
    else if w.ro.state.AdmitsDispatch() then Halt(AdvanceForward(w, now, accept))
    else w
  }

  function Tick(w: World, now: int, accept: nat -> bool): World {
    if w.halted then w
    else Advance(Drain(w.(inbox := []), w.inbox, now), now, accept)
  }

  // ----- reconciliation -----

  datatype Fate = FateCompleted | FateFailed | FateNotStarted | FateInProgress | FateUnknown

  datatype Answer = Answer(attempt: nat, fate: Fate)

  function ReconciledRecord(id: nat, a: Attempt, fate: Fate, now: int): Record {
    Record(true, a.rollout, a.generation, a.stage, a.target, id, a.epoch, a.incarnation,
           if fate.FateCompleted? then ExecutionCompleted else ExecutionFailed,
           if fate.FateCompleted? then OutSucceeded else OutFailed,
           a.highestSequence + 1, now, true, 0, 0)
  }

  /** The executor never began the effect: the target becomes dispatchable again. */
  function ReleaseVerdict(st: Stage, x: Target, a: Attempt): Verdict {
    Verdict(st,
            x.(currentAttempt := 0, state := if x.state.Dispatched? || x.state.Unknown? then Pending else x.state),
            a.(completed := true, state := Cancelled, outcome := OutInconclusive))
  }

  function ReconcileOne(w: World, answer: Answer, now: int): World {
    if answer.attempt !in w.at then w
    else
      var a := w.at[answer.attempt];
      var s := FindStage(w.ro.stages, a.stage);
      if !w.HasStage(s) then w
      else
        var st := w.ro.stages[s];
        var t := FindTarget(st.targets, a.target);
        if !w.HasTarget(s, t) then w
        else
          var x := st.targets[t];
          match answer.fate
          case FateCompleted | FateFailed =>
            var rec := ReconciledRecord(answer.attempt, a, answer.fate, now);
            if Admit(w, rec, now).Accepted? then ApplyEvidence(w, rec) else w
          case FateNotStarted => Conclude(w, s, t, answer.attempt, ReleaseVerdict(st, x, a))
          case FateInProgress => w
          case FateUnknown =>
            var state := if x.state.Dispatched? then Unknown else x.state;
            PutStage(w, s, PutTarget(st, t, x.(state := state)))
            .(at := w.at[answer.attempt := a.(state := Unknown)])
  }

  function Reconcile(w: World, answers: seq<Answer>, now: int): World
    decreases |answers|
  {
    if answers == [] then w else Reconcile(ReconcileOne(w, answers[0], now), answers[1..], now)
  }

  // ----- commands -----

  predicate Fenced(ro: Rollout, f: Fence) {
    && (f.generation.Some? ==> f.generation.value == ro.generation)
    && (f.revision.Some? ==> f.revision.value == ro.revision)
  }

  function FreezeCohorts(w: World, s: nat): Result
    requires s <= |w.ro.stages|
    decreases |w.ro.stages| - s
  {
    if s == |w.ro.stages| then Result(w, true)
    else
      var st := w.ro.stages[s];
      if st.frozen || st.targets == [] then Result(w, false)
      else FreezeCohorts(PutStage(w, s, st.(frozen := true)), s + 1)
  }

  function Arm(w: World, f: Fence): Result {
    if !Fenced(w.ro, f) || (!w.ro.state.Validated? && !w.ro.state.Created?) then Result(w, false)
    else
      var r := FreezeCohorts(w, 0);
      if !r.ok then r else Transition(r.w, Armed)
  }

  function Start(w: World, f: Fence): Result {
    if !Fenced(w.ro, f) || !w.ro.state.Armed? || w.ro.cursor >= |w.ro.stages| then Result(w, false)
    else if exists i :: 0 <= i < |w.ro.stages| && !w.ro.stages[i].frozen then Result(w, false)
    else Transition(w, Running)
  }

  function Pause(w: World, f: Fence, stops: nat -> bool): Result {
    if !Fenced(w.ro, f) || !w.ro.state.CanPause() then Result(w, false)
    else
      var r := Transition(w.(ro := w.ro.(resumeState := w.ro.state)), Paused);
      var s := w.ro.cursor;
      if !r.ok || !w.HasStage(s) || w.ro.stages[s].policy.pauseInFlight.LetFinish? then r
      else CancelInFlight(r.w, FindStage(w.ro.stages, w.ro.stages[s].id), 0, stops)
  }

  function Resume(w: World, f: Fence): Result {
    if !Fenced(w.ro, f) || !w.ro.state.Paused? || !LegalRollout(Paused, w.ro.resumeState) then Result(w, false)
    else Transition(w, w.ro.resumeState)
  }

  /** A stage that has not begun is skipped; one at work has its attempts cancelled and is aborted. */
  function AbortStage(w: World, s: nat, stops: nat -> bool): (r: Result)
    requires w.HasStage(s)
    ensures |r.w.ro.stages| == |w.ro.stages|
  {
    var state := w.ro.stages[s].state;
    if state.StPending? || state.StBlocked? then StageTransition(w, s, StSkipped)
    else if state.Terminal() then Result(w, true)
    else
      var c := CancelInFlight(w, s, 0, stops);
      CancelKeepsStages(w, s, 0, stops);
      if !c.ok then c else StageTransition(c.w, s, StAborted)
  }

  function AbortStages(w: World, s: nat, stops: nat -> bool): (r: Result)
    requires s <= |w.ro.stages|
    decreases |w.ro.stages| - s
  {
    if s == |w.ro.stages| then Result(w, true)
    else
      var r := AbortStage(w, s, stops);
      if !r.ok then r else AbortStages(r.w, s + 1, stops)
  }

  lemma {:induction false} CancelKeepsStages(w: World, s: nat, i: nat, stops: nat -> bool)
    requires w.HasStage(s) && i <= |w.ro.stages[s].targets|
    ensures CancelInFlight(w, s, i, stops).w.ro == w.ro
    decreases |w.ro.stages[s].targets| - i
  {
    if i < |w.ro.stages[s].targets| {
      var id := w.ro.stages[s].targets[i].currentAttempt;
      if id == 0 || id !in w.at || w.at[id].Finished() {
        CancelKeepsStages(w, s, i + 1, stops);
      } else {
        CancelKeepsStages(w.(at := w.at[id := w.at[id].(cancelledEpoch := w.at[id].epoch)]), s, i + 1, stops);
      }
    }
  }

  function Abort(w: World, f: Fence, stops: nat -> bool): Result {
    if !Fenced(w.ro, f) || w.ro.state.Terminal() || w.ro.state.Aborting? || w.ro.state.RollingBack? then
      Result(w, false)
    else
      var r := Transition(w, Aborting);
      if !r.ok then r
      else
        var aborted := AbortStages(r.w, 0, stops);
        if !aborted.ok then aborted
        else if HasCompensation(w.ro.stages) then BeginRollback(aborted.w)
        else FailRollout(aborted.w)
  }

  /** The first stage holding this pending gate, or the number of stages. */
  function FindGate(stages: seq<Stage>, gate: nat): (s: nat)
    ensures s <= |stages|
    ensures s < |stages| ==> stages[s].pendingGate == gate != 0
    ensures forall i :: 0 <= i < s ==> !(stages[i].pendingGate == gate != 0)
  {
    if stages == [] then 0
    else if stages[0].pendingGate == gate != 0 then 0
    else
      assert forall i :: 0 < i < |stages| ==> stages[i] == stages[1..][i - 1];
      1 + FindGate(stages[1..], gate)
  }

  function ApproveGate(w: World, gate: nat, f: Fence, now: int): Result {
    var s := FindGate(w.ro.stages, gate);
    if !Fenced(w.ro, f) || !w.HasStage(s) then Result(w, false)
    else
      var open := PutStage(w, s, w.ro.stages[s].(pendingGate := 0));
      match w.ro.stages[s].pendingGateKind
      case EntryGate => BeginStage(open, s)
      case EvidenceGate | AdvanceGate => CompleteStage(open, s, now, true)
      case HealthGate => StageTransition(open, s, StRunning)
      case RollbackGate => BeginRollback(open)
  }

  function Retire(w: World, f: Fence): Result {
    if !Fenced(w.ro, f) || (!w.ro.state.Failed? && !w.ro.state.Completed?) then Result(w, false)
    else Transition(w, Retired)
  }

  /** How many stages in order get their whole cohort from the inventory, before the first that does not. */
  function FirstUnfit(fits: nat -> bool, i: nat, n: nat): (k: nat)
    requires i <= n
    ensures i <= k <= n
    ensures k < n ==> !fits(k)
    decreases n - i
  {
    if i == n || !fits(i) then i else FirstUnfit(fits, i + 1, n)
  }

  function Materialised(renewed: seq<Stage>, fits: nat -> bool): seq<Stage> {
    renewed[..FirstUnfit(fits, 0, |renewed|)]
  }

  /**
   * `renewed` are the plan's stages against the current inventory, and `fits(i)` tells whether the cohort of stage `i`
   * can be taken whole. The first that cannot ends the command, and the stages before it stay: under the new
   * generation, in the state the rollout was in.
   */
  function Regenerate(w: World, f: Fence, renewed: seq<Stage>, fits: nat -> bool): Result {
    if !Fenced(w.ro, f) || (!w.ro.state.Failed? && !w.ro.state.Completed?) then Result(w, false)
    else
      var stages := Materialised(renewed, fits);
      var begun := w.ro.(generation := w.nextId, stages := stages, cursor := 0, outstanding := 0);
      var next := w.(ro := begun, nextId := w.nextId + 1);
      if |stages| < |renewed| then Result(next, false)
      else
        var validated := begun.(revision := w.ro.revision + 1, state := Validated, resumeState := Validated);
        Result(next.(ro := validated), true)
  }
}
