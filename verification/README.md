# Rollout Fabric: a verified model

Rollout Fabric drives changes through fleets of targets. A single-threaded controller decides what may change,
a journal lets it survive crashes, a framed transport and a process adapter carry work to worker processes, and
workers run effects on threads. This project models those parts in Dafny and proves what each of them keeps, over
every run and for every input. `dafny verify dfyconfig.toml` checks all of it.

## What is modelled

**Orchestration** (`src/orchestrator*.cpp`, `src/rollout.cpp`, `src/lifecycle.cpp`). `Machine` gives every command,
evidence record, deadline, gate, retry, cancellation and compensation as a function from one world to the next, with
the source's branches, early exits and partial effects. `Orchestration.Orchestrator` is the same machine as a class
whose methods update its fields in loops; each method is proved to leave exactly the world the function names, and
every command, tick and reconciliation to stay among the worlds the guarantees are about (`Endurance`).
`Steps` breaks the machine into eighteen small steps. `Evidence`, `Operations` and `Commands` prove that each operation
is a run of enabled steps, so an invariant kept by the steps (`Accounting`, `Shape`/`Invariance`, `History`,
`Provenance`, `Moves`) holds in every world any run reaches (`Reachable`). `Guarantees` states what follows.
`Recovery` and `Restart` take over a rollout from a snapshot and carry the invariants through any number of restarts,
so most guarantees hold for a rollout's whole life. `Turns`, `Strandings` and `Rollbacks` say which rollouts no command,
report, tick or restart ever gets any further. `Witnesses` and `Completions` give closed runs into the worlds where an
operation fails. `Dispatch`, `Radius` and `Gates` hold the planner, the blast radius and the gate evaluations.

The executor is an adversary: its records arrive duplicated, reordered, late or never, and may lie about outcomes. It
is trusted for three things only, all explicit in `Steps.Env` and `Steps.Honest`: a record is about an attempt that was
dispatched and names that attempt's generation, stage and target (`Guarantees.BooksNeedIdentity` shows exactly why);
compensation evidence is sent only for attempts that compensate, where a theorem asks for `confined`; and no
reconciliation releases an attempt, where a theorem asks for `!releases`.

**Journal** (`src/journal.cpp`, opening in `src/controller.cpp`). `Journal` encodes, parses and replays with short
reads; `JournalRuns` runs any number of sessions that claim, append, tear at any byte, crash, reopen and compact;
`Opening` folds the records into what a controller remembers. Checksums are uninterpreted functions.

**Transport** (`src/transport.cpp`): `Frames`, whole-stream decoding and the incremental decoder.

**Plan ordering** (`src/plan.cpp`): `PlanOrder`, the worklist algorithm against acyclicity and determinacy, and
`Planning`, which hands its order to the orchestrator.

**Process adapter** (`src/process_adapter.cpp`): `Routing`, index-keyed routes under erasure and renumbering.

**Worker** (`src/worker.cpp`): `WorkerEffects`, the reactor and its effect threads as interleaved events over one
completion queue.

**Arithmetic and formats**: `Exact` (`src/codec.cpp`, `src/policy.cpp`), `Utf8` (`src/codec.cpp`), `Calendar` and
`Instants` (`src/time.cpp`), `Digests` (`src/digest.cpp`), `Json`, `JsonText` and `JsonBounds` (`src/json.cpp`).

Identifiers are opaque numbers, and zero is the nil identifier and the nil timestamp. Attempts count as finished when
their state is terminal, as `include/rollout_fabric/attempt.hpp` defines it. Several rollouts share one controller: what
happens to the others is the step `Others`, which may file and forget their attempts and use up identifiers.

## Where the code does less than it says

Each of these is a theorem below, with the exact condition under which the stronger reading holds.

- Finishing a rollback passes over no pending or skipped stage although it has a guard for them, so it completes only
  if the stage that stopped the rollout is the last one (`Guarantees.RollbackFinishesIff`). Otherwise, once nothing is
  left to undo, the rollout stays rolling back for good unless an operator approves the stale entry gate of a stage that
  demands its predecessors' success (`Rollbacks.RollbackIsStuckIff`, `Witnesses.AbortNeverFinishes`).
- An abort whose cancel request is not answered leaves the rollout aborting for good (`Strandings.AbortStrandsIff`,
  `Strandings.DesertedForever`, `Witnesses.UnansweredAbort`).
- A regeneration refused for a cohort has already replaced the stages, so a completed rollout may have pending ones
  (`Guarantees.CompletedIsComplete`, `Guarantees.RegenerationIsWholeIff`, `Completions.RefusedRegeneration`). One that
  succeeds with an empty cohort can never be armed, nor leave its state in any other way (`Strandings.ArmedIff`,
  `Completions.RefusedArm`).
- A soaking stage cannot be gated: a shut manual gate after a soak halts the controller
  (`Guarantees.ManualGateAfterSoakHaltsIff`, `Guarantees.GateHaltsIff`, `Witnesses.SoakedGateHalts`).
- Approving a gate of a paused rollout un-pauses it if stages remain, and otherwise completes the last stage, is refused,
  and leaves the rollout past its end: resumed into a gated state, it is moved by no tick and no evidence
  (`Guarantees.ApprovalSucceedsIff`, `Guarantees.FinalApprovalWhilePaused`, `Witnesses.FinalApprovalIsLost`).
- The limits on domains, racks, pods and sites, and on the number of domains changing at once, bind single admissions,
  not batches (`Radius.DimensionLimitsHoldIff`, `Radius.DomainCountHoldsIff`, `Witnesses.DomainIsOverrun`,
  `Witnesses.DomainsAreOverrun`).
- A terminal report that names another target of its rollout breaks the accounting (`Guarantees.BooksNeedIdentity`,
  `Witnesses.MisdirectedReport`), and compensation evidence for a target that is not rolling back can leave the legal
  table (`Guarantees.CompensationIsLegalIff`, `Witnesses.UntimelyCompensation`).
- A restart forgets cancellations, so a cancelled attempt may yet succeed (`Restart.CancellationIsForgotten`,
  `Witnesses.CancelledSucceedsAfterRestart`), revives the ended attempt of a target caught between two compensation
  steps (`Restart.RestoredLiveIff`, `Witnesses.EndedAttemptRevives`), and forgets that a stage demands verification,
  because snapshots do not store it and its default is off (`include/rollout_fabric/plan.hpp:83`), so that its evidence
  gate opens with nothing verified (`Restart.VerificationIsForgotten`, `Witnesses.VerificationIsSkipped`).
- A worker answers "not started" for an effect it has evicted, and for every attempt it suppressed as a repetition, even
  while the effect for its key is running: exactly when its table holds the key under another attempt with a live thread
  (`WorkerEffects.NotStartedIff`, `WorkerEffects.AskedKeyBegan`, `WorkerEffects.NotStartedWhileWorkingIff`,
  `WorkerEffects.SuppressedIsToldNotStarted`).
- A routed fence submitted twice for reconciliation is asked about twice and counted twice, so the reconciliation fails
  although every answer arrives (`Routing.AskedOnceIff`, `Routing.RepetitionFailsReconcile`).
- A crash inside the very first header leaves a journal that no reopening accepts (`JournalRuns.TornHeaderIsFatal`), and
  a short first read is taken for corruption (`Journal.Replay`).
- A hasher finished twice hashes, the second time, the empty message padded as if it had the length of everything fed in
  before (`Digests.Sha256.Finish`).
- Timestamps accept the 30th of February (`Instants.PastMonthEnds`), and dates before 1677 or after 2262 are accepted
  although the arithmetic overflows (`Instants.OverflowsIff`).

## Model

| member | source | states |
|---|---|---|
| Guarantees.OutstandingIsExact | src/orchestrator_advance.cpp:75-367 | In every world reached, restarts included, `outstanding_attempts` is the number of unfinished attempts of the generation; each of them is the current attempt of its own target, under that target's epoch, and that target is dispatched, unknown or rolling back; no target has two |
| Guarantees.ReportsMatch | src/orchestrator_advance.cpp:262-324 | A report that passes admission is about the current attempt of the target it names and the counter it lowers is positive, so the mismatch branch and the saturating decrements never act |
| Guarantees.BooksNeedIdentity | src/orchestrator_advance.cpp:262-324 | For a terminal report on a live attempt nobody cancelled (its target not rolling back) the books stay balanced if and only if the report names the attempt's own stage and target: why the executor must be honest about identity |
| Witnesses.MisdirectedReport | src/orchestrator_advance.cpp:262-324 | A closed run after which a report under the right attempt, naming the target of another stage, is admitted and unbalances the books |
| Guarantees.PredecessorsSettleFirst | src/orchestrator_advance.cpp:435-521 | Before any rollback, restarts included, a target that was ever attempted has all its stage's predecessors earlier in the order, succeeded, with every target terminal |
| Guarantees.CompletedIsComplete | src/orchestrator_advance.cpp:872-978 | A completed rollout has nothing outstanding, and every stage succeeded with every target terminal if and only if its cursor is past the last stage; otherwise a new generation was given up half-way and no stage of it has begun |
| Guarantees.RegenerationIsWholeIff | src/orchestrator.cpp:912-1022 | A new generation is made whole exactly when every cohort can be taken whole; else the command is refused with the old stages gone, the stages before the first unfit one in their place, and the old rollout state |
| Completions.RefusedRegeneration | src/orchestrator.cpp:943-982 | A closed run of a two-stage rollout to completion, and a regeneration refused at the second cohort: still completed, with one pending stage under a new generation |
| Strandings.ArmedIff | src/orchestrator.cpp:506-563 | A rollout that has not begun can be armed if and only if no cohort is empty or frozen already; once an arm is refused for its cohorts, no event and no restart ever gets it out of validated |
| Completions.RefusedArm | src/orchestrator.cpp:532-537 | A closed run into a regenerated rollout with an empty second cohort: the refused arm leaves the first frozen, and nothing that may follow takes the rollout out of validated |
| Strandings.AbortStrandsIff | src/orchestrator.cpp:715-796 | An abort its state allows is refused, and leaves the rollout aborting, if and only if a cancel request for an attempt in flight is not answered |
| Strandings.DesertedForever | src/orchestrator.cpp:715-796 | A rollout left so stays aborting in its generation through all events, approvals and restarts |
| Witnesses.UnansweredAbort | src/orchestrator.cpp:715-796 | A closed run into such an abort, and that it is never over |
| Guarantees.LimitsHold | src/orchestrator_dispatch.cpp:182-284 | Over all runs with retries, refusals and restarts, targets changing anywhere stay within the current stage's concurrency, per-stage and global limits, and until the canary clears at most `canary_size` distinct targets were ever attempted |
| Guarantees.AttemptsAreBounded | src/orchestrator_advance.cpp:223-260 | Unless a reconciliation released an attempt, a target's epoch equals its number of attempts and never exceeds `max_attempts_per_target`; a pending target has an attempt to spare |
| Guarantees.SuccessWasReported | src/orchestrator_advance.cpp:262-324 | A succeeded target was reported so: the executor sent a successful completion record with exactly its generation, stage, identity, epoch and current attempt |
| Guarantees.CancelledNeverSucceeds | src/orchestrator_advance.cpp:685-717 | Once an attempt is cancelled, wherever any run leads neither it nor a target whose current attempt it is has succeeded |
| Guarantees.ReplayIsIgnored | src/orchestrator.cpp:1119-1261 | A record accepted once, or any non-telemetry record with no higher sequence for the same attempt, changes nothing at any later point of any run |
| Guarantees.DrainIgnoresOutdated | src/orchestrator.cpp:1088-1113 | Inserting an outdated record anywhere in a batch of pending evidence leaves the world the batch leads to unchanged |
| Guarantees.SequencesRise | src/orchestrator.cpp:1204-1237 | Along any run an attempt's highest sequence never goes down and a finished attempt never becomes unfinished |
| Guarantees.AcceptedRaises | src/orchestrator.cpp:1119-1261 | Every accepted record raises the highest sequence of its attempt strictly, to its own, and touches no other attempt |
| Guarantees.RollbackIsConfined | src/orchestrator_advance.cpp:754-818 | A rollout that is not rolling back has no target rolling back, and no target ever rests in failed |
| Guarantees.RollbackAccounts | src/orchestrator_advance.cpp:754-865 | With compensation evidence confined to attempts that compensate: to the end of the generation each begun stage that supports rollback accounts for every target that had succeeded, as rolling back, rolled back, or failed to roll back |
| Guarantees.RollbackFinishesIff | src/orchestrator_advance.cpp:820-865 | When nothing is still rolling back, finishing succeeds if and only if the stopping stage is the last one and was not skipped; otherwise the pending or skipped stage conflicts, the controller halts and the rollout stays rolling back (the guard at 846 has an empty body) |
| Rollbacks.RollbackIsStuckIff | src/orchestrator_advance.cpp:820-865 | A rollback with nothing left to undo that does not finish stays rolling back through all events and restarts, if and only if no stage holds the stale entry gate of a stage that demands its predecessors' success; approving such a gate after a tick fails the rollout |
| Rollbacks.GateNamesOneStage | src/orchestrator_advance.cpp:373-393 | Gate identifiers are unique among pending gates, so an approval names at most one stage |
| Witnesses.AbortNeverFinishes | src/orchestrator_advance.cpp:820-865 | A closed run: the first of two stages is aborted, the second skipped, nothing is left to undo; the next tick halts, and through all events and restarts the rollout stays rolling back |
| Guarantees.SettlesIff | src/orchestrator_advance.cpp:843-865 | The settling loop succeeds exactly when every stage is rolled back already or may legally become so |
| Guarantees.GateHaltsIff | src/orchestrator_advance.cpp:373-393 | Opening a gate halts the controller exactly when the stage is soaking: a soaking stage cannot be gated |
| Guarantees.ManualGateAfterSoakHaltsIff | src/orchestrator_advance.cpp:980-1194 | A tick of a stage that has soaked long enough, within its failure budget and with its canary in order, halts the controller if and only if the first shut gate it comes to is manual; the stage is left soaking |
| Witnesses.SoakedGateHalts | src/orchestrator_advance.cpp:373-393 | A closed run into a soaking stage behind a manual evidence gate whose next tick halts the controller |
| Guarantees.ApprovalSucceedsIff | src/orchestrator.cpp:798-869 | Approving an evidence or advance gate always completes its stage and moves the cursor; it is reported a success if and only if the rollout is running, gated, soaking or advancing, or aborting at the last stage, or paused before it: then the pause is over |
| Guarantees.FinalApprovalWhilePaused | src/orchestrator.cpp:798-869 | Approving the final gate of a paused rollout completes its last stage yet is refused; resuming takes the rollout, past its last stage, back to the state it was paused in |
| Guarantees.PastTheEndCompletesIff | src/orchestrator_advance.cpp:1200-1310 | Past its last stage a rollout is completed by the next tick if and only if its state admits work |
| Guarantees.OnlyOperatorsMove | src/orchestrator.cpp:1054-1113 | Whatever evidence, ticks, reconciliations and inventories arrive, a rollout that neither admits work nor rolls back keeps its generation, state and cursor and each stage its state and gate |
| Witnesses.FinalApprovalIsLost | src/orchestrator.cpp:798-869 | A closed run: gated, paused, approved and refused, resumed; from there no tick and no evidence ever moves the rollout |
| Guarantees.CompensationIsLegalIff | src/orchestrator_advance.cpp:326-367 | Compensation evidence moves a changing target along the legal table exactly when it is rolling back, or the evidence is a success with a further compensation step to go |
| Witnesses.UntimelyCompensation | src/orchestrator_advance.cpp:326-367 | A closed run after which a report of failed compensation for forward work is admitted and makes a target transition the table forbids |
| Moves.StepMoves | src/orchestrator_advance.cpp:223-260 | If compensation evidence is confined to targets rolling back, every net change of a target by one step is in the legal table although failed to pending is written directly; a pending target is attempted only while the rollout admits work, and each accepted attempt takes one epoch |
| Moves.NothingNewAfterwards | src/orchestrator.cpp:715-796 | After an abort, a stage failure or the end of the rollout, a pending target stays pending and is never attempted in that generation |
| Moves.CompensationIsConserved | src/orchestrator_advance.cpp:326-367 | Once a rollback has begun every stage keeps its number of rolling-back, rolled-back and rollback-failed targets to the end of the generation |
| Moves.RollbackMarksSucceeded | src/orchestrator_advance.cpp:754-796 | A rollback marks exactly the succeeded targets of begun stages that support it |
| Moves.GenerationGrows | src/orchestrator.cpp:912-1022 | Generations never go down along a run, so a generation left behind never comes back |
| Lifecycle.ForwardIsNeverReentered | src/lifecycle.cpp:94-153 | No chain of legal rollout transitions leads from aborting, rolling back or an end state back to forward execution |
| Restart.EnduringIsSolid | src/orchestrator_recovery.cpp:164-272 | In every world reached from a new rollout through any number of restarts, each from a snapshot of some world the run before it reached, all invariants hold but the record of how successes were earned |
| Restart.RestartKeepsSolid | src/orchestrator_recovery.cpp:164-272 | Taking over a snapshot keeps accounting, phase structure, limits, caps and numbering |
| Restart.RestoredBalances | src/orchestrator_recovery.cpp:221-263 | After a restart the outstanding counter is the number of rebuilt attempts, all of them in flight and each the current one of its target |
| Restart.LiveSurvives | src/orchestrator_recovery.cpp:221-263 | Every attempt in flight is in flight again after a restart under the same identifier, epoch, generation, stage and target; cancellation requests and sequence numbers are forgotten |
| Restart.RestoredLiveIff | src/orchestrator_recovery.cpp:221-263 | A restart brings back exactly the attempts in flight if and only if no target waits between two attempts, as between compensation steps; otherwise the ended attempt is revived and counted |
| Witnesses.EndedAttemptRevives | src/orchestrator_recovery.cpp:221-263 | A closed run into a world between two compensation steps with nothing in flight, where any restart brings an ended attempt back to life |
| Restart.CancellationIsForgotten | src/orchestrator_recovery.cpp:235-260 | A report of success makes a target succeed exactly when its attempt was not cancelled; after a restart it always does |
| Witnesses.CancelledSucceedsAfterRestart | src/orchestrator_recovery.cpp:235-260 | A closed run into a pause that cancels the attempt at work: reported done, its target is cancelled, but succeeds if a restart came in between |
| Restart.VerificationIsForgotten | src/rollout.cpp:87-144 | A snapshot does not store that a stage demands verification: after a restart the evidence gate asks for everything else only, and answers as before if and only if no verification was demanded, or enough was verified, or the gate was shut anyway |
| Witnesses.VerificationIsSkipped | src/rollout.cpp:87-144 | A closed run into a soaking stage whose evidence gate is shut for want of verification and open after any restart |
| Endurance.RestartEndures | src/orchestrator_recovery.cpp:164-272 | A blank controller that takes over the snapshot of a world reached through any number of restarts stands in such a world again |
| Endurance.EventEndures | src/orchestrator.cpp:1054-1113 | Every command, tick, delivery and reconciliation the environment allows takes a world reached through any number of restarts to such a world, by enabled steps |
| Restart.LifeKeepsSolid | src/orchestrator_recovery.cpp:164-272 | Induction over lives: runs and restarts in any alternation |
| Recovery.RunKeepsRestorable | src/orchestrator_advance.cpp:527-633 | Along every run no two targets share a current attempt, and a target with an attempt in flight has an action to rebuild it with |
| Reachable.EventIsSteps | src/orchestrator.cpp:1054-1113 | Every command, tick, delivery and reconciliation, from any world satisfying the invariants, is a finite run of small enabled steps |
| Reachable.RunIsSteps | src/orchestrator.cpp:1054-1113 | Any run of events is a run of small steps, and every invariant holds wherever it arrives |
| Reachable.FreshIsSound | src/orchestrator.cpp:358-500 | A newly created rollout satisfies every invariant |
| History.StepKeepsInv | src/orchestrator_advance.cpp:75-367 | Every enabled step keeps the whole invariant: books, shape, inbox honesty and resumability |
| Accounting.StepKeepsBooks | src/orchestrator_advance.cpp:75-367 | Every enabled step keeps attempts, targets and the outstanding counter balanced |
| Accounting.VerdictIsSound | src/orchestrator_advance.cpp:262-367 | For the current attempt of a target every verdict (report, compensation, deadline, cancellation, release) ends the attempt, keeps its epoch and never lets a cancelled attempt succeed |
| Invariance.StepKeepsShape | src/orchestrator_advance.cpp:435-521 | Every enabled step keeps the phase structure: succeeded and settled stages before the cursor, pending and untouched ones after it, limits, canary and attempt caps |
| Provenance.StepKeepsEarned | src/orchestrator_advance.cpp:262-324 | No step makes a target succeed except a completion report on its uncancelled current attempt |
| Provenance.VerdictEarns | src/orchestrator_advance.cpp:262-324 | A verdict lets a target succeed only as a successful completion report matching its current attempt, which nobody cancelled |
| Evidence.IngestGoes | src/orchestrator.cpp:1088-1113 | Admitting and applying any honest record, whatever its kind, is a run of enabled steps |
| Operations.DispatchStageGoes | src/orchestrator_advance.cpp:635-679 | Planning and sending a batch, with any acceptances and refusals, is a run of enabled steps |
| Operations.RunStageGoes | src/orchestrator_advance.cpp:980-1194 | Driving the current stage, deadlines, canary, failure budget, soak and gates included, is a run of enabled steps |
| Operations.RollBackStagesGoes | src/orchestrator_advance.cpp:798-818 | One rollback pass over all stages is a run of enabled steps |
| Operations.FinishRollbackGoes | src/orchestrator_advance.cpp:820-865 | Finishing a rollback, successfully or not, is a run of enabled steps |
| Operations.CheckMeans | src/orchestrator_advance.cpp:435-470 | The predecessor check refuses only when a predecessor ended without success and is ready when all succeeded |
| Operations.TickGoes | src/orchestrator.cpp:1054-1082 | A whole tick is a run of enabled steps |
| Commands.PauseGoes | src/orchestrator.cpp:607-667 | Pausing, with in-flight attempts finishing or stopped, is a run of enabled steps |
| Commands.ResumeGoes | src/orchestrator.cpp:669-713 | Resuming is a run of enabled steps |
| Commands.AbortGoes | src/orchestrator.cpp:715-796 | Aborting, even when a stage transition fails half-way, is a run of enabled steps |
| Commands.ApproveGateGoes | src/orchestrator.cpp:798-869 | Approving a gate, a stale one included, is a run of enabled steps |
| Commands.RegenerateGoes | src/orchestrator.cpp:912-1022 | Starting a new generation of a validated plan, or giving it up at the first cohort that cannot be taken whole, is an enabled step |
| Evidence.ReconcileGoes | src/orchestrator_recovery.cpp:278-421 | Reconciling the outstanding attempts of the current generation is a run of enabled steps |
| Dispatch.PlanIsWithinLimits | src/orchestrator_dispatch.cpp:182-284 | A planned batch holds distinct pending targets in identifier order under their next epoch and, with those changing already, stays within batch size, concurrency, per-stage and global limits and the canary |
| Dispatch.BuildPlan | src/orchestrator_dispatch.cpp:182-284 | The planning loop computes the specified plan |
| Radius.UsageIsTotal | src/orchestrator_dispatch.cpp:30-66 | What is measured around a candidate is the number of changing targets sharing its domain, rack, pod and site, and the set of changing domains |
| Radius.MeasureUsage | src/orchestrator_dispatch.cpp:30-66 | The measuring loop computes the specified usage |
| Radius.AdmissionLeavesRoom | src/orchestrator_dispatch.cpp:108-180 | An admitted candidate found a free place along every dimension it has, and in the number of failure domains changing at once |
| Radius.DomainsAreThose | src/orchestrator_dispatch.cpp:30-66 | The measured set of changing domains is the same around every candidate: those with a changing target |
| Radius.DimensionLimitsHoldIff | src/orchestrator_dispatch.cpp:243-282 | Whatever the executor accepts, one tick keeps a failure domain, rack, pod or site within its limit if and only if no more entries are planned there than it has room for; a full one is planned nothing; a plan of one entry never overruns |
| Radius.DomainCountHoldsIff | src/orchestrator_dispatch.cpp:108-180 | Whatever the executor accepts, one tick keeps the number of changing failure domains within its limit if and only if the changing and the planned domains together do; a plan of one entry never overruns |
| Radius.DomainCountIsOverrun | src/orchestrator_dispatch.cpp:243-282 | A concrete stage and inventory for which one batch plans two failure domains although one may change at a time |
| Radius.DomainLimitIsOverrun | src/orchestrator_dispatch.cpp:243-282 | For a concrete stage and inventory one batch plans two targets of a domain limited to one |
| Witnesses.DomainIsOverrun | src/orchestrator_dispatch.cpp:243-282 | A closed run whose next tick puts two targets of a domain limited to one in change |
| Witnesses.DomainsAreOverrun | src/orchestrator_dispatch.cpp:243-282 | A closed run whose next tick puts two failure domains in change although one may change at a time |
| Gates.AdvanceGateIsRational | src/orchestrator_gates.cpp:255-307 | The advance gate opens exactly when nothing is pending and the healthy-fraction and failure-budget tests hold as exact rational comparisons |
| Gates.BudgetIsRational | src/orchestrator.cpp:38-43 | The failure budget by 64-bit floor equals the rational bound |
| Gates.EvidenceGateMeans | src/orchestrator_gates.cpp:132-253 | An open evidence gate means the soak has elapsed, every target is succeeded, cancelled or rolled back, and under full coverage each one is verified |
| Gates.EvidenceGateIsRational | src/orchestrator_gates.cpp:132-253 | The evidence gate opens exactly when the soak has elapsed, every target ended well and, if demanded, enough are verified: all of them, or the minimum number and the fraction as an exact rational comparison |
| Gates.SnapshotIsOldest | src/orchestrator_advance.cpp:25-67 | A stage's health view is as old as its stalest observation and live only if all are |
| Rollouts.SearchTarget | src/rollout.cpp:247-267 | The binary search over a canonical cohort finds the target a scan finds, present or absent |
| Rollouts.CountTargets | src/rollout.cpp:269-332 | The counting loops compute the number of targets satisfying a predicate |
| Rollouts.CountChanging | src/rollout.cpp:366-372 | The rollout-wide count is the sum over its stages |
| Orchestration.Orchestrator.ApplyEvidence | src/orchestrator_advance.cpp:75-156 | Updates attempt, target, stage counters and outstanding count in place to exactly the specified world |
| Orchestration.Orchestrator.DrainPending | src/orchestrator.cpp:1088-1113 | Empties the inbox first, then takes every record in order |
| Orchestration.Orchestrator.NoteAttempt | src/orchestrator.cpp:299-317 | Files the attempt and forgets only finished ones from the front while over the bound |
| Orchestration.Orchestrator.CreateAndDispatch | src/orchestrator_advance.cpp:527-633 | Accepted: new attempt under a fresh identifier and next epoch; refused: identifier used up and three target fields left changed |
| Orchestration.Orchestrator.DispatchStage | src/orchestrator_advance.cpp:635-679 | Sends the planned batch entry by entry and keeps the high-water marks |
| Orchestration.Orchestrator.CancelInFlight | src/orchestrator_advance.cpp:685-717 | Requests a stop for every live attempt of the stage and gives up at the first unanswered request |
| Orchestration.Orchestrator.BeginRollback | src/orchestrator_advance.cpp:754-796 | Marks every succeeded target of the begun, supporting stages in place |
| Orchestration.Orchestrator.RollBackStages | src/orchestrator_advance.cpp:798-818 | Sends the next compensation step for every idle rolling-back target, bypassing the planner |
| Orchestration.Orchestrator.FinishRollback | src/orchestrator_advance.cpp:820-865 | Ends the rollback as specified, conflicts included |
| Orchestration.Orchestrator.BeginStage | src/orchestrator_advance.cpp:435-521 | Checks predecessors, opens a manual entry gate or runs the stage |
| Orchestration.Orchestrator.CompleteStage | src/orchestrator_advance.cpp:872-978 | Evaluates both gates, then advances, holds or fails as specified |
| Orchestration.Orchestrator.RunStage | src/orchestrator_advance.cpp:980-1194 | Drives one stage as specified |
| Orchestration.Orchestrator.Advance | src/orchestrator_advance.cpp:1200-1310 | Drives the rollout through its state as specified |
| Orchestration.Orchestrator.OnEvidence | src/orchestrator_recovery.cpp:30-37 | Queues a report for the next tick, or drops it over the bound; a world reached through any number of restarts is left for such a world |
| Orchestration.Orchestrator.Tick | src/orchestrator.cpp:1054-1082 | Drains evidence, then advances, as specified; a world reached through any number of restarts is left, by enabled steps, for such a world |
| Orchestration.Orchestrator.Reconcile | src/orchestrator_recovery.cpp:278-421 | Applies each answer as specified; with answers the executor may give, guarantees survive as for a tick |
| Orchestration.Orchestrator.Restore | src/orchestrator_recovery.cpp:164-272 | Refuses or adopts a snapshot in loops over stages and targets, as specified; adopted by a blank controller, the snapshot of a world reached through any number of restarts continues as such a world |
| Orchestration.Orchestrator.Arm | src/orchestrator.cpp:506-563 | Freezes every cohort in order or stops at the first it cannot, as specified; guarantees survive |
| Orchestration.Orchestrator.Pause | src/orchestrator.cpp:607-667 | Remembers the state, pauses and stops attempts in flight, as specified; guarantees survive |
| Orchestration.Orchestrator.Abort | src/orchestrator.cpp:715-796 | Cancels, skips and aborts stages as specified, stopping at the first conflict; guarantees survive |
| Orchestration.Orchestrator.ApproveGate | src/orchestrator.cpp:798-869 | Opens the named gate as specified; guarantees survive |
| Orchestration.Orchestrator.Regenerate | src/orchestrator.cpp:912-1022 | Bumps the generation, clears the stages and materialises them one by one, stopping at the first that does not fit, as specified; with a validated plan, guarantees survive |
| Exact.MultiplyWideIsExact | src/codec.cpp:16-32 | The limb computation in 64-bit registers is the true 128-bit product |
| Exact.CompareProductsIsTrueOrder | src/codec.cpp:34-71 | The comparison orders the true products of any four 64-bit values |
| Exact.ApplyFloorIsExact | src/policy.cpp:97-113 | The floor is exact for every 64-bit value and nothing wraps |
| Exact.ApplyCeilIsExact | src/policy.cpp:115-125 | The ceiling is exact although both products it compares may wrap |
| Exact.SatisfiedByIsRational | src/policy.cpp:127-136 | The threshold test is the rational comparison, for an empty population only a zero threshold holds |
| Utf8.IsValidUtf8 | src/codec.cpp:73-122 | Accepts a byte string if and only if it encodes Unicode scalar values, each in its shortest form |
| Utf8.WellFormedStep | src/codec.cpp:73-122 | Reading one scalar value off the front decides nothing about the rest |
| Utf8.FrontFindsScalar | src/json.cpp:47-67 | An encoded code point is found again at the front of any text |
| PlanOrder.Validate | src/plan.cpp:322-381 | Accepts if and only if identifiers are distinct, predecessors are other known stages and the graph has no cycle; the order holds every stage once with predecessors first, foremost available stage always next |
| PlanOrder.OrderIsDetermined | src/plan.cpp:348-381 | Two plans with the same set of stages get the same order whatever the declaration order |
| PlanOrder.OrderedIsAcyclic | src/plan.cpp:322-381 | An order with predecessors first excludes cycles |
| PlanOrder.StuckHasCycle | src/plan.cpp:362-381 | Stages left when nothing is ready contain a cycle |
| PlanOrder.Release | src/plan.cpp:362-381 | Placing a stage lowers each successor's indegree by its number of edges and readies exactly those that reach zero |
| PlanOrder.Sort | src/plan.cpp:348-361 | The ready list is kept ascending by the tie-break and loses nobody |
| Planning.OrderIsTopological | src/plan.cpp:348-381 | Stages materialised in a complete order are distinct with every predecessor earlier: what the orchestrator starts from |
| Planning.StoredOrderIsDetermined | src/plan.cpp:533-547 | A stored order is accepted only if it is the one order the plan requires |
| Journal.EncodedFront | src/journal.cpp:588-617 | A whole encoded record is recognised and reads back field by field whatever follows it |
| Journal.TornNeedsMore | src/journal.cpp:387-423 | A record cut at any byte is never taken for a record nor for corruption |
| Journal.HeaderReadsBack | src/journal.cpp:332-379 | The file header reads back |
| Journal.ParseLog | src/journal.cpp:425-546 | Parsing a log of counted records followed by any torn piece finds exactly the records and where they end |
| Journal.Consume | src/journal.cpp:425-546 | Takes whole records off what has been read until more bytes are needed or replay ends, promising the same result as the whole file |
| Journal.Replay | src/journal.cpp:425-546 | For any sequence of short reads replay terminates and recovers what parsing the whole file does; only a short first read is refused as corrupt |
| JournalRuns.RecoversExactly | src/journal.cpp:739-832 | Reopening a kept file finds exactly the fully written records and where the torn tail begins |
| JournalRuns.TornHeaderIsFatal | src/journal.cpp:345-379 | A crash inside the very first header leaves a file no reopening accepts, unless nothing at all was written |
| JournalRuns.EveryRunRecovers | src/journal.cpp:739-967 | However many sessions claim, append, tear at any byte, crash and compact: the file reopens to exactly the written records in order, sequences count from one, the journal keeps its identifier (and its whole header until it is compacted), and claimed epochs strictly increase |
| JournalRuns.PutKeeps | src/journal.cpp:834-876 | One append, complete or cut, adds the record or a torn tail and nothing else |
| JournalRuns.RenumberKeeps | src/journal.cpp:878-932 | Compaction renumbers what it keeps from one under the compacting epoch |
| JournalRuns.ClaimKeepsInv | src/controller.cpp:408-425 | Opening claims an epoch above every recorded one before anything else is written |
| JournalRuns.JournalWriter.Open | src/journal.cpp:739-832 | Truncates the torn tail, keeps every whole record and continues after the last one, whatever the short reads after the header |
| JournalRuns.JournalWriter.Append | src/journal.cpp:834-876 | Appends the next record, refuses one over a limit, or leaves a torn tail at the cut |
| JournalRuns.JournalWriter.Rewrite | src/journal.cpp:878-932 | The success path leaves a header with the same identifier, current versions and a new creation time, then the kept records renumbered and a closing marker |
| Opening.AppendIsAtomic | src/journal.cpp:834-876 | After any history of sessions an append cut at any byte is either remembered in full by the next opening or changes nothing of what it remembers |
| Opening.NextClaimIsNew | src/controller.cpp:408-425 | The epoch the next controller claims is above every epoch any earlier session recorded or claimed |
| Opening.NewestWins | src/controller.cpp:427-471 | A rollout some record tells about is rebuilt as the newest such record tells it |
| Opening.RebuiltWasTold | src/controller.cpp:427-471 | Nothing is rebuilt that no record tells about |
| Opening.RefusedIff | src/controller.cpp:427-471 | A journal is refused exactly when one of its stored inventories, plans or rollouts cannot be read |
| Opening.Fold | src/controller.cpp:427-471 | The folding loop, with its early refusals, computes the specified memory |
| Opening.HighestEpoch | src/controller.cpp:408-415 | The loop finds the highest epoch any record carries |
| Frames.ChunksAgree | src/transport.cpp:184-286 | Decoding two pieces in turn is decoding their concatenation: frames, remainder and latch |
| Frames.RoundTrip | src/transport.cpp:158-182 | Concatenated encodings of valid frames decode to exactly those frames with a clean end |
| Frames.RestIsStuck | src/transport.cpp:184-286 | What a decoder keeps cannot be decoded any further |
| Frames.DecodeFront | src/transport.cpp:184-286 | The first header decides: refused at once, or one frame taken and decoding continues after it |
| Frames.FrameDecoder.Feed | src/transport.cpp:184-286 | Feeding any chunk continues the decoding of the whole stream: same frames, buffer, latch and count |
| Frames.FrameDecoder.Fail | src/transport.cpp:288-296 | The first failure latches and clears the buffer |
| Frames.FrameDecoder.ExpectCleanEnd | src/transport.cpp:298-308 | The stream may end only between frames and without a failure |
| Routing.DropCarriers | src/process_adapter.cpp:1188-1268 | Dropping a connection: other attempts keep their connection although indices move; its own move to a usable connection of the same worker and incarnation or vanish when there is none; nobody gains a route |
| Routing.DropPendings | src/process_adapter.cpp:1188-1268 | Unanswered reconciles keep their connection; those of the dropped one are answered, all unknown |
| Routing.PickWorkerFinds | src/process_adapter.cpp:239-262 | The round-robin walk finds a connection with room whenever one exists |
| Routing.DispatchRoutes | src/process_adapter.cpp:283-347 | An accepted dispatch is carried by a usable connection with room, every other attempt keeps its carrier, and unavailable means nobody had room or the send broke |
| Routing.HelloKeepsInv | src/process_adapter.cpp:497-573 | A worker announcing itself ends with one usable connection at most, and no route changes |
| Routing.ReconcileReaches | src/process_adapter.cpp:811-1033 | Every fence is answered unknown or asked of the very connection that carried it, whatever is dropped on the way |
| Routing.AskedAsOften | src/process_adapter.cpp:811-882 | A connection is asked about each fence it carries exactly as often as the fence was submitted, and about no other |
| Routing.AskedOnceIff | src/process_adapter.cpp:811-882 | Every fence is asked about at most once if and only if no routed fence was submitted twice |
| Routing.RepetitionFailsReconcile | src/process_adapter.cpp:826-1033 | When every fence is answered with a known fate, the reconciliation is reported a success if and only if no routed fence was submitted twice: the repetition is counted, but answered once |
| Routing.RepeatedFenceIsAskedTwice | src/process_adapter.cpp:811-882 | One routed fence submitted twice is asked about twice, and fully answered the reconciliation still fails |
| Routing.RunKeepsInv | src/process_adapter.cpp:194-1268 | Through any run connections know their index, usable ones have distinct workers, and every route and open request names an existing connection |
| Routing.ProcessAdapter.PickWorker | src/process_adapter.cpp:239-262 | The loop computes the specified choice |
| Routing.ProcessAdapter.GroupFences | src/process_adapter.cpp:811-882 | The grouping loop leaves for each connection its fences in the order and number submitted, the unrouted ones as unknown, and the expected number of answers |
| Routing.ProcessAdapter.Dispatch | src/process_adapter.cpp:283-347 | Leaves exactly the specified table and outcome |
| Routing.ProcessAdapter.HandleHello | src/process_adapter.cpp:497-573 | Closes older connections in a loop and takes on the identity, as specified |
| Routing.ProcessAdapter.DropConnection | src/process_adapter.cpp:1188-1268 | Re-keys routes, settles requests, erases and renumbers in place, as specified |
| WorkerEffects.KeyStartsOnce | src/worker.cpp:700-847 | In every reachable state a retained idempotency key never starts a second effect |
| WorkerEffects.OneThreadPerKey | src/worker.cpp:700-847 | At most one thread works for a key at any moment and its effect is retained |
| WorkerEffects.CancelledStaysSilent | src/worker.cpp:851-970 | A cancelled effect never publishes a terminal outcome, however its thread ends |
| WorkerEffects.OneOutcome | src/worker.cpp:640-688 | All terminal reports about an effect, replays included, tell the same outcome |
| WorkerEffects.ReconcileAgrees | src/worker.cpp:974-1010 | Reconciliation about an attempt a terminal report was sent to: the reported outcome if the effect is that attempt's own and retained, else not started, as for every attempt that was sent another one's outcome |
| WorkerEffects.CompletedIsRecorded | src/worker.cpp:974-1010 | Completed is answered exactly for effects recorded as successful, in progress exactly while the effect's thread lives or its end waits in the queue, never completed for a cancelled one |
| WorkerEffects.NotStartedIff | src/worker.cpp:974-1010 | Of all attempts ever dispatched, suppressed and refused ones included, exactly those that the worker did not take, or has forgotten, are told they never started |
| WorkerEffects.AskedKeyBegan | src/worker.cpp:725-1010 | Of every attempt the worker took or suppressed an effect had begun for its key: that nothing was done for the key is never true of it |
| WorkerEffects.WorkedForIff | src/worker.cpp:700-847 | Some thread works for a key exactly when the effect the table holds under it has a live thread |
| WorkerEffects.NotStartedWhileWorkingIff | src/worker.cpp:974-1010 | An attempt is told it never started while a thread works for its key if and only if the table holds that key under another attempt whose thread is alive |
| WorkerEffects.SuppressedIsToldNotStarted | src/worker.cpp:725-775 | A closed run: a second attempt under a held key is suppressed and told it never started while the effect for its key is running |
| WorkerEffects.TableIsBounded | src/worker.cpp:612-633 | The table never holds more than max(max_idempotency_entries, capacity) entries |
| WorkerEffects.EvictStepKeeps | src/worker.cpp:612-633 | One pass forgets one finished effect or finds every effect running |
| WorkerEffects.RunKeepsInv | src/worker.cpp:488-1010 | Every interleaving of frames, effect-thread steps and drains keeps the table's invariant |
| WorkerEffects.Worker.EvictIfNeeded | src/worker.cpp:612-633 | The loop forgets as specified |
| WorkerEffects.Worker.HandleDispatch | src/worker.cpp:700-847 | Leaves exactly the specified state and acknowledgement |
| WorkerEffects.Worker.DrainCompletions | src/worker.cpp:851-930 | Handles everything queued so far, in order |
| WorkerEffects.Worker.HandleCancel | src/worker.cpp:934-970 | Leaves exactly the specified state and answer |
| WorkerEffects.Worker.HandleReconcile | src/worker.cpp:974-1010 | Answers every attempt asked about, in order |
| Calendar.DateRoundTrip | src/time.cpp:14-45 | Every valid date is found again from its day number |
| Calendar.DayRoundTrip | src/time.cpp:14-45 | Every day number, negative ones included, is found again from its date, and that date is in the calendar |
| Calendar.DaysCount | src/time.cpp:14-24 | The epoch is day zero and the next calendar day has the next number, which fixes the function |
| Instants.InstantRoundTrip | src/time.cpp:84-202 | Parsing a rendered instant returns it floored to the millisecond, before the epoch too; in the first partial second of the 64-bit range, and only there, the parser's arithmetic overflows |
| Instants.StampOverflowsIff | src/time.cpp:118-202 | An accepted date and time in whole seconds of universal time overflows 64-bit nanoseconds exactly when it lies before 1677-09-21T00:12:44 or after 2262-04-11T23:47:16 |
| Instants.OverflowsIff | src/time.cpp:118-202 | Any text, with any fraction and zone, overflows exactly when it is accepted and its date and time, taken to universal time, lie outside that range, the last second cut at .854775807 |
| Instants.StorableIsPrintable | src/time.cpp:84-116 | Every such instant renders with a four-digit year |
| Instants.PastMonthEnds | src/time.cpp:118-202 | A date outside the calendar is accepted exactly when its day runs past its month's end but not past 31 |
| Instants.MidnightParses | src/time.cpp:118-202 | Midnight of any date: refused for fields out of range, the instant of its day number within the 64-bit range, overflowed beyond it; the check is on the fields, not on the calendar |
| Instants.ParseFixed | src/time.cpp:47-62 | The digit loop computes the specified number or refuses |
| Instants.ParseFraction | src/time.cpp:140-158 | The fraction loop computes the specified nanoseconds |
| Digests.Hash | src/digest.cpp:132-204 | However a message is cut into updates, the digest is that of the message padded as in section 5.1.1 of FIPS 180-4, block by block |
| Digests.Sha256.Update | src/digest.cpp:132-158 | Absorbs the data after the message so far; after a finish it starts a new message |
| Digests.Sha256.Finish | src/digest.cpp:174-204 | Pads with the original length and outputs the digest; the padding loop terminates; a second finish hashes the empty message under the byte count left behind by the first |
| Digests.BlocksContinue | src/digest.cpp:132-158 | Absorbing after a message is absorbing after what it left unfinished |
| Digests.PaddedIsWhole | src/digest.cpp:174-204 | Padding gives whole blocks and none shorter would do |
| Digests.OnlyOnePadding | src/digest.cpp:174-204 | The loop meets eight bytes short of a block exactly at the number of zeros required |
| Digests.BitLength | src/digest.cpp:174-204 | The length field describes the message although the byte counter wraps |
| Digests.TableIsShifting | src/digest.cpp:39-49 | Shifting is linear, so a table over the low byte does eight shifts at once |
| Digests.Crc32 | src/digest.cpp:230-236 | The table-driven loop computes the bit-by-bit checksum |
| Json.RoundTrip | src/json.cpp:92-111 | Parsing the compact or pretty text of any in-bounds value with distinct keys returns that value, whatever strings, integers and depth |
| Json.ReadsBack | src/json.cpp:137-549 | A written value reads back as itself whatever follows it |
| Json.NumberReadsBack | src/json.cpp:189-226 | Every 64-bit integer, the smallest included, reads back |
| Json.StringReadsBack | src/json.cpp:245-477 | Every string within bounds reads back through its escapes |
| JsonBounds.AcceptedFits | src/json.cpp:137-429 | Whatever the reader accepts is within the bounds: depth, members, elements, string length, 64-bit integers, distinct keys |
| JsonBounds.AcceptedRoundTrips | src/json.cpp:682-691 | An accepted document written in either form is read back as the same value |
| JsonText.JsonReader.ParseDocument | src/json.cpp:92-111 | The reader with its moving position accepts and rejects exactly as specified |
| JsonText.JsonReader.ParseString | src/json.cpp:245-334 | The string loop reads exactly the specified characters and stops right after the quote |
| JsonText.JsonReader.ParseNumber | src/json.cpp:189-226 | The digit loop with its overflow check reads exactly the specified number |
| JsonText.JsonReader.ParseArray | src/json.cpp:395-429 | The element loop reads exactly the specified array |
| JsonText.JsonReader.ParseObject | src/json.cpp:336-393 | The member loop reads exactly the specified object |
| JsonText.JsonWriter.WriteValue | src/json.cpp:481-549 | Appends exactly the specified text to the buffer |
| JsonText.JsonWriter.WriteEscapedString | src/json.cpp:436-477 | Appends exactly the specified escapes |
| JsonText.WriteThenRead | src/json.cpp:682-691 | Writing any in-bounds value and reading the text again gives that value |

## Left out

- Journalling inside the orchestrator: persisting a transition always succeeds in `Machine`, so its rollback of a failed append is not modelled.
- Several rollouts of one controller advance one at a time; the others are an environment step, not copies of the machine.
- Cohort selection: which targets a selector takes from the inventory, and whether a cohort fits its limit, are given to creation and regeneration.
- Telemetry probing, decision records, rationale texts, idempotency-key history and adapter event logs: they decide nothing here.
- Authority checks of commands and field validation of records: independent guards that only refuse more.
- Guarantees.SuccessWasReported: one incarnation only; a snapshot drops the attempt of a succeeded target. Cancellation and duplicate suppression are per incarnation too.
- Restart: the new controller adopts one rollout into an empty attempt table; digests and plan validity are one given answer.
- Reconciliation: each live attempt of the current generation is answered at most once; answers about older generations are not modelled.
- Overflow of 32-bit counters and epochs: counters are unbounded except in `Exact`, in the SHA-256 length and in instants, where an overflow is reported as such and not followed further.
- Liveness: attempts that compensate have no deadline, so nothing promises that a rollback ends.
- Stages, targets and attempts are values held in the orchestrator's fields; references into vectors and their invalidation are not modelled. Likewise connections, effects and pending requests.
- Record numbering at the top of its 64-bit field: bounded by the size limit of the file; the top of the epoch field is assumed not to be reached.
- Failure paths of `rewrite` and an append that fails without a crash: only the success path and the crash are modelled.
- Compaction: what the orchestrator chooses to keep, and when; any list of records it may write is covered.
- File handles, locks, sync and directory renames; files are byte strings, and a crash keeps some prefix of the last write.
- `scan_journal` that stops at a snapshot.
- Process adapter: the bound on the number of fences in one reconciliation.
- Process adapter: encoding and queueing of frames is an outcome given from outside; health samples, timeouts and shutdown are left out.
- Routing.HelloKeepsInv: `in_flight` is not compared with the number of routes, because rerouting and a repeated hello do not maintain it.
- Worker: fault-injection flags, channel failures, heartbeat and health messages; effect threads are abstract and may finish in any order.
- Message, plan, inventory and rollout codecs, `ByteWriter` and `ByteReader`: long, field by field, without interaction.
- JSON errors carry only their kind, not the position and text of the message.
- JSON numbers are written by a recursive function where the source calls the standard library.
- Rendering of timestamps is a function; only the digit and fraction loops of parsing run as loops.
- Simulator adapters, command line, daemons, sockets, reports.
