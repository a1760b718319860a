/** The orchestrator as the object it is: fields updated in place, loops over stages, targets and records. */
module Orchestration {
  import opened Lifecycle
  import opened Rollouts
  import opened Gates
  import opened Dispatch
  import opened Machine
  import Reachable
  import Endurance
  import Recovery

  class Orchestrator {
    var cfg: Config
    var ro: Rollout
    var at: map<nat, Attempt>
    var order: seq<nat>
    var nextId: nat
    var inbox: seq<Record>
    var halted: bool

    /** The abstract value every method is specified by. */
    ghost function State(): World
      reads this
    {
      World(cfg, ro, at, order, nextId, inbox, halted)
    }

    constructor (w: World)
      ensures State() == w
    {
      cfg, ro, at, order, nextId, inbox, halted := w.cfg, w.ro, w.at, w.order, w.nextId, w.inbox, w.halted;
    }

    // ----- in-place updates -----

    method SetStage(s: nat, st: Stage)
      requires s < |ro.stages|
      modifies this`ro
      ensures State() == Machine.PutStage(old(State()), s, st)
    {
      ro := ro.(stages := ro.stages[s := st]);
    }

    method MoveTo(to: RolloutState) returns (ok: bool)
      modifies this`ro
      ensures Result(State(), ok) == Machine.Transition(old(State()), to)
    {
      if ro.state == to {
        return true;
      }
      if !LegalRollout(ro.state, to) {
        return false;
      }
      ro := ro.(state := to, revision := ro.revision + 1);
      ok := true;
    }

    method MoveStageTo(s: nat, to: StageState) returns (ok: bool)
      requires s < |ro.stages|
      modifies this`ro
      ensures Result(State(), ok) == Machine.StageTransition(old(State()), s, to)
    {
      if ro.stages[s].state == to {
        return true;
      }
      if !LegalStage(ro.stages[s].state, to) {
        return false;
      }
      ro := ro.(stages := ro.stages[s := ro.stages[s].(state := to)], revision := ro.revision + 1);
      ok := true;
    }

    /** Attempt, target, stage counters and outstanding count change together. */
    method Settle(s: nat, t: nat, id: nat, v: Verdict)
      requires s < |ro.stages| && t < |ro.stages[s].targets|
      modifies this`ro, this`at
      ensures State() == Machine.Conclude(old(State()), s, t, id, v)
    {
      at := at[id := v.a];
      var targets := ro.stages[s].targets[t := v.x];
      ro := ro.(stages := ro.stages[s := v.st.(targets := targets)],
                outstanding := if ro.outstanding > 0 then ro.outstanding - 1 else 0);
    }

    // ----- evidence -----

    method ApplyEvidence(rec: Record)
      modifies this`ro, this`at
      ensures State() == Machine.ApplyEvidence(old(State()), rec)
    {
      var s := FindStage(ro.stages, rec.stage);
      if s == |ro.stages| {
        return;
      }
      var st := ro.stages[s];
      var t := FindTarget(st.targets, rec.target);
      if t == |st.targets| || rec.attempt !in at {
        return;
      }
      at := at[rec.attempt := at[rec.attempt].(highestSequence := rec.sequence)];
      var x, a := st.targets[t], at[rec.attempt];
      match Machine.ClassOf(rec.kind) {
        case Telemetry =>
        case Acceptance =>
        case Cancellation =>
          Settle(s, t, rec.attempt, Machine.CancellationVerdict(st, x, a));
        case Execution =>
          if rec.kind.ExecutionCompleted? || rec.kind.ExecutionFailed? {
            if x.state.TRollingBack? {
              Settle(s, t, rec.attempt, Machine.CompensationVerdict(st, x, a, rec));
            } else {
              Settle(s, t, rec.attempt, Machine.TerminalVerdict(st, x, a, rec));
            }
          }
        case Compensation =>
          Settle(s, t, rec.attempt, Machine.CompensationVerdict(st, x, a, rec));
        case Verification =>
          SetStage(s, st.(targets := st.targets[t := x.(verifiedAt := rec.observedAt, verifier := rec.verifier,
                                                        verificationPassed := rec.kind.VerificationPassed?)]));
      }
    }

    /** Routes a health sample to every stage that holds its target. */
    method ApplyTelemetry(rec: Record, now: int)
      modifies this`ro
      ensures State() == Machine.ApplyTelemetry(old(State()), rec, now)
    {
      if !Fresh(rec.observedAt, now, cfg.defaultMaxAge, cfg.maxFutureSkew) {
        return;
      }
      ghost var before := ro;
      for i := 0 to |ro.stages|
        invariant ro == before.(stages := ro.stages) && |ro.stages| == |before.stages|
        invariant forall k :: 0 <= k < i ==> ro.stages[k] == Machine.HealthIn(before.stages[k], rec)
        invariant forall k :: i <= k < |ro.stages| ==> ro.stages[k] == before.stages[k]
      {
        var st := ro.stages[i];
        var t := FindTarget(st.targets, rec.target);
        if t < |st.targets| {
          SetStage(i, st.(targets := st.targets[t := Machine.HealthOf(st.targets[t], rec)]));
        }
      }
      assert ro.stages == Machine.ApplyTelemetry(old(State()), rec, now).ro.stages;
    }

    method Receive(rec: Record, now: int)
      modifies this`ro, this`at
      ensures State() == Machine.Ingest(old(State()), rec, now)
    {
      if Machine.ClassOf(rec.kind).Telemetry? {
        ApplyTelemetry(rec, now);
        return;
      }
      var disposition := Machine.Admit(World(cfg, ro, at, order, nextId, inbox, halted), rec, now);
      if disposition.Accepted? {
        ApplyEvidence(rec);
      }
    }

    /** Evidence waits for the next tick, or is dropped when too much waits already. */
    method OnEvidence(rec: Record, limit: nat)
      modifies this`inbox
      ensures inbox == if |old(inbox)| >= limit then old(inbox) else old(inbox) + [rec]
      ensures Endurance.Endures(old(State()), Reachable.OnEvidence(rec), State())
    {
      hide Endurance.Endures;
      Endurance.EvidenceEndures(State(), rec);
      if |inbox| < limit {
        inbox := inbox + [rec];
      }
    }

    /** Empties the inbox first, so that nothing arriving meanwhile can re-enter. */
    method DrainPending(now: int)
      modifies this`ro, this`at, this`inbox
      ensures State() == Machine.Drain(old(State()).(inbox := []), old(inbox), now)
    {
      var batch := inbox;
      inbox := [];
      ghost var final := Machine.Drain(State(), batch, now);
      for i := 0 to |batch|
        invariant inbox == []
        invariant Machine.Drain(State(), batch[i..], now) == final
      {
        assert batch[i..][0] == batch[i] && batch[i..][1..] == batch[i + 1..];
        Receive(batch[i], now);
      }
    }

    // ----- dispatch -----

    /** Files a new attempt and drops finished ones from the front while the table is over its bound. */
    method NoteAttempt(id: nat, a: Attempt)
      modifies this`at, this`order
      ensures State() == Machine.NoteAttempt(old(State()), id, a)
    {
      if id !in at {
        order := order + [id];
      }
      at := at[id := a];
      var bound := 2 * cfg.maxConcurrentAttempts + 1;
      ghost var final := Machine.Trim(at, order, bound);
      while |order| > bound && order[0] in at && at[order[0]].Finished()
        invariant Machine.Trim(at, order, bound) == final
        decreases |order|
      {
        at := at - {order[0]};
        order := order[1..];
      }
    }

    /** A refusal leaves the identifier used up and three fields of the target behind. */
    method RecordRefusal(s: nat, t: nat, now: int)
      requires s < |ro.stages| && t < |ro.stages[s].targets|
      modifies this`ro, this`nextId
      ensures var st := old(ro.stages[s]);
              var x := st.targets[t].(lastAttempt := old(nextId), dispatchedAt := now, lastChangeAt := now);
              State() == Machine.PutStage(old(State()), s, Machine.PutTarget(st, t, x)).(nextId := old(nextId) + 1)
    {
      var st := ro.stages[s];
      var x := st.targets[t].(lastAttempt := nextId, dispatchedAt := now, lastChangeAt := now);
      SetStage(s, st.(targets := st.targets[t := x]));
      nextId := nextId + 1;
    }

    method CreateAndDispatch(s: nat, t: nat, rollbackStep: nat, epoch: nat, now: int, accept: nat -> bool)
      requires s < |ro.stages| && t < |ro.stages[s].targets|
      modifies this`ro, this`at, this`order, this`nextId
      ensures State() == Machine.CreateAndDispatch(old(State()), s, t, rollbackStep, epoch, now, accept)
    {
      if !cfg.hasExecution {
        return;
      }
      if !accept(nextId) {
        RecordRefusal(s, t, now);
        return;
      }
      RecordDispatch(s, t, rollbackStep, epoch, now);
    }

    method RecordDispatch(s: nat, t: nat, rollbackStep: nat, epoch: nat, now: int)
      requires s < |ro.stages| && t < |ro.stages[s].targets|
      modifies this`ro, this`at, this`order, this`nextId
      ensures State() == Machine.Accept(old(State()), s, t, rollbackStep, epoch, now)
    {
      var id, st := nextId, ro.stages[s];
      nextId := nextId + 1;
      var x := st.targets[t].(lastAttempt := id, dispatchedAt := now, lastChangeAt := now, epoch := epoch,
                              attemptsCreated := st.targets[t].attemptsCreated + 1, currentAttempt := id,
                              state := if rollbackStep == 0 then Dispatched else TRollingBack);
      SetStage(s, st.(targets := st.targets[t := x], attemptsTotal := st.attemptsTotal + 1,
                      dispatchedTotal := st.dispatchedTotal + 1));
      ro := ro.(outstanding := ro.outstanding + 1);
      NoteAttempt(id, Attempt(ro.id, ro.generation, st.id, x.id, epoch, cfg.incarnation,
                              now + st.policy.attemptDeadline, Dispatched, false, OutInconclusive, 0, 0));
    }

    method DispatchStage(s: nat, now: int, accept: nat -> bool)
      requires s < |ro.stages|
      modifies this`ro, this`at, this`order, this`nextId
      ensures State() == Machine.DispatchStage(old(State()), s, now, accept)
    {
      var batch := BuildPlan(ro.stages, ro.stages[s], cfg);
      SendBatch(s, batch, now, accept);
      var changing := CountChanging(ro.stages);
      var st := ro.stages[s];
      SetStage(s, st.(maxObservedChanging := Max(st.maxObservedChanging, changing)));
      ro := ro.(maxObservedChanging := Max(ro.maxObservedChanging, changing));
    }

    method SendBatch(s: nat, batch: seq<Entry>, now: int, accept: nat -> bool)
      requires s < |ro.stages|
      modifies this`ro, this`at, this`order, this`nextId
      ensures State() == Machine.DispatchBatch(old(State()), s, batch, now, accept)
    {
      ghost var final := Machine.DispatchBatch(State(), s, batch, now, accept);
      for i := 0 to |batch|
        invariant s < |ro.stages|
        invariant Machine.DispatchBatch(State(), s, batch[i..], now, accept) == final
      {
        assert batch[i..][0] == batch[i] && batch[i..][1..] == batch[i + 1..];
        SendEntry(s, batch[i], now, accept);
      }
    }

    method SendEntry(s: nat, e: Entry, now: int, accept: nat -> bool)
      requires s < |ro.stages|
      modifies this`ro, this`at, this`order, this`nextId
      ensures State() == Machine.DispatchEntry(old(State()), s, e, now, accept)
      ensures |ro.stages| == |old(ro.stages)|
    {
      var t := FindTarget(ro.stages[s].targets, e.target);
      if PrimaryAction(ro.stages[s]).None? || t == |ro.stages[s].targets| {
        return;
      }
      CreateAndDispatch(s, t, 0, e.epoch, now, accept);
    }

    // ----- cancellation, failure, rollback -----

    /** Asks the executor to stop every live attempt of the stage; gives up at the first unanswered request. */
    method CancelInFlight(s: nat, stops: nat -> bool) returns (ok: bool)
      requires s < |ro.stages|
      modifies this`at
      ensures Result(State(), ok) == Machine.CancelInFlight(old(State()), s, 0, stops)
    {
      ghost var final := Machine.CancelInFlight(State(), s, 0, stops);
      for i := 0 to |ro.stages[s].targets|
        invariant Machine.CancelInFlight(State(), s, i, stops) == final
      {
        var id := ro.stages[s].targets[i].currentAttempt;
        if id == 0 || id !in at || at[id].Finished() {
          continue;
        }
        at := at[id := at[id].(cancelledEpoch := at[id].epoch)];
        if cfg.hasExecution && !stops(id) {
          return false;
        }
      }
      ok := true;
    }

    method FailRollout() returns (ok: bool)
      modifies this`ro
      ensures Result(State(), ok) == Machine.FailRollout(old(State()))
    {
      if ro.state.Terminal() {
        return true;
      }
      if ro.state.Paused? {
        ok := MoveTo(Running);
        if !ok {
          return;
        }
      }
      ok := MoveTo(Failed);
    }

    /** Marks every succeeded target of one stage for compensation. */
    method MarkStage(s: nat)
      requires s < |ro.stages|
      modifies this`ro
      ensures ro == old(ro).(stages := old(ro.stages)[s := Machine.MarkStage(old(ro.stages[s]))])
    {
      var st := ro.stages[s];
      var ts := st.targets;
      if st.state.StPending? || st.state.StSkipped? || !st.policy.rollbackSupported {
        return;
      }
      for t := 0 to |ts|
        invariant |ts| == |st.targets|
        invariant forall k :: 0 <= k < t ==> ts[k] == Machine.MarkTarget(st.targets[k])
        invariant forall k :: t <= k < |ts| ==> ts[k] == st.targets[k]
      {
        if ts[t].state.Succeeded? || ts[t].state.TFailed? {
          ts := ts[t := ts[t].(state := TRollingBack, rollbackStep := 0, currentAttempt := 0)];
        }
      }
      assert ts == Machine.MarkStage(st).targets;
      SetStage(s, st.(targets := ts));
    }

    method BeginRollback() returns (ok: bool)
      modifies this`ro
      ensures Result(State(), ok) == Machine.BeginRollback(old(State()))
    {
      ok := true;
      if !ro.state.RollingBack? {
        ok := MoveTo(RollingBack);
        if !ok {
          return;
        }
      }
      ghost var before := ro;
      for s := 0 to |ro.stages|
        invariant ro == before.(stages := ro.stages) && |ro.stages| == |before.stages|
        invariant forall k :: 0 <= k < s ==> ro.stages[k] == Machine.MarkStage(before.stages[k])
        invariant forall k :: s <= k < |ro.stages| ==> ro.stages[k] == before.stages[k]
      {
        MarkStage(s);
      }
      assert ro.stages ==
             seq(|before.stages|, i requires 0 <= i < |before.stages| => Machine.MarkStage(before.stages[i]));
    }

    method FailStage(s: nat) returns (ok: bool)
      requires s < |ro.stages|
      modifies this`ro
      ensures Result(State(), ok) == Machine.FailStage(old(State()), s)
    {
      ok := MoveStageTo(s, StFailed);
      if !ok {
        return;
      }
      if Machine.HasCompensation(ro.stages) {
        ok := BeginRollback();
      } else {
        ok := FailRollout();
      }
    }

    method RunRollback(s: nat, t: nat, now: int, accept: nat -> bool)
      requires s < |ro.stages| && t < |ro.stages[s].targets|
      modifies this`ro, this`at, this`order, this`nextId
      ensures State() == Machine.RunRollback(old(State()), s, t, now, accept)
    {
      var st := ro.stages[s];
      var x := st.targets[t];
      if x.currentAttempt != 0 && x.currentAttempt in at && !at[x.currentAttempt].Finished() {
        return;
      }
      if CompensationAction(st, x.rollbackStep).None? {
        SetStage(s, st.(targets := st.targets[t := x.(state := RollbackFailed, currentAttempt := 0)],
                        rollbackFailedTotal := st.rollbackFailedTotal + 1));
        return;
      }
      CreateAndDispatch(s, t, x.rollbackStep + 1, x.epoch + 1, now, accept);
    }

    method RollBackTarget(s: nat, t: nat, now: int, accept: nat -> bool)
      requires s < |ro.stages| && t < |ro.stages[s].targets|
      modifies this`ro, this`at, this`order, this`nextId
      ensures State() == Machine.RollBackTarget(old(State()), s, t, now, accept)
      ensures |ro.stages| == |old(ro.stages)| && |ro.stages[s].targets| == |old(ro.stages[s].targets)|
    {
      if ro.stages[s].targets[t].state.TRollingBack? {
        RunRollback(s, t, now, accept);
      }
    }

    method RollBackTargets(s: nat, now: int, accept: nat -> bool)
      requires s < |ro.stages|
      modifies this`ro, this`at, this`order, this`nextId
      ensures State() == Machine.RollBackTargets(old(State()), s, 0, now, accept)
    {
      ghost var final := Machine.RollBackTargets(State(), s, 0, now, accept);
      var n := |ro.stages[s].targets|;
      for t := 0 to n
        invariant s < |ro.stages| && |ro.stages[s].targets| == n
        invariant Machine.RollBackTargets(State(), s, t, now, accept) == final
      {
        RollBackTarget(s, t, now, accept);
      }
    }

    method RollBackStages(now: int, accept: nat -> bool)
      modifies this`ro, this`at, this`order, this`nextId
      ensures State() == Machine.RollBackStages(old(State()), 0, now, accept)
    {
      ghost var final := Machine.RollBackStages(State(), 0, now, accept);
      var n := |ro.stages|;
      for s := 0 to n
        invariant |ro.stages| == n
        invariant Machine.RollBackStages(State(), s, now, accept) == final
      {
        RollBackTargets(s, now, accept);
      }
    }

    method FinishRollback() returns (ok: bool)
      modifies this`ro
      ensures Result(State(), ok) == Machine.FinishRollback(old(State()))
    {
      for s := 0 to |ro.stages|
        invariant forall k :: 0 <= k < s ==> !Machine.StillRollingBack(ro.stages[k])
      {
        if Machine.StillRollingBack(ro.stages[s]) {
          return true;
        }
      }
      ok := SettleStages();
      if ok {
        ok := FailRollout();
      }
    }

    method SettleStages() returns (ok: bool)
      modifies this`ro
      ensures Result(State(), ok) == Machine.SettleStages(old(State()), 0)
    {
      ghost var final := Machine.SettleStages(State(), 0);
      var n := |ro.stages|;
      for s := 0 to n
        invariant |ro.stages| == n
        invariant Machine.SettleStages(State(), s) == final
      {
        ok := MoveStageTo(s, StRolledBack);
        if !ok {
          return;
        }
      }
      ok := true;
    }

    // ----- stage progress -----

    method OpenGate(s: nat, kind: GateKind)
      requires s < |ro.stages|
      modifies this`ro, this`nextId, this`halted
      ensures State() == Machine.OpenGate(old(State()), s, kind)
    {
      SetStage(s, ro.stages[s].(pendingGate := nextId, pendingGateKind := kind));
      nextId := nextId + 1;
      var ok := MoveStageTo(s, StGated);
      if !ok {
        halted := true;
      } else if LegalRollout(ro.state, Gated) {
        ok := MoveTo(Gated);
      }
    }

    method BeginStage(s: nat) returns (ok: bool)
      requires s < |ro.stages|
      modifies this`ro, this`nextId, this`halted
      ensures Result(State(), ok) == Machine.BeginStage(old(State()), s)
    {
      var st := ro.stages[s];
      var check := CheckPredecessors(s);
      match check {
        case Missing => return false;
        case Refused => ok := FailRollout(); return;
        case NotReady => return true;
        case Ready =>
      }
      if st.state.StPending? {
        ok := MoveStageTo(s, StArmed);
        if !ok {
          return;
        }
        if st.policy.entryGate.Manual? && st.pendingGate == 0 {
          OpenGate(s, EntryGate);
          return true;
        }
      }
      ok := MoveStageTo(s, StRunning);
      if ok && !ro.state.Running? {
        ok := MoveTo(Running);
      }
    }

    method CheckPredecessors(s: nat) returns (check: EntryCheck)
      requires s < |ro.stages|
      ensures check == Machine.CheckPredecessors(ro.stages, ro.stages[s], ro.stages[s].predecessors)
    {
      var st := ro.stages[s];
      for k := 0 to |st.predecessors|
        invariant Machine.CheckPredecessors(ro.stages, st, st.predecessors[k..]) ==
                  Machine.CheckPredecessors(ro.stages, st, st.predecessors)
      {
        assert st.predecessors[k..][0] == st.predecessors[k] && st.predecessors[k..][1..] == st.predecessors[k + 1..];
        var p := FindStage(ro.stages, st.predecessors[k]);
        if p == |ro.stages| {
          return Missing;
        }
        if ro.stages[p].state.StSucceeded? {
          continue;
        }
        if !ro.stages[p].state.Terminal() {
          return NotReady;
        }
        if st.policy.requirePredecessorsSucceeded {
          return Refused;
        }
      }
      check := Ready;
    }

    /** An unsatisfied evidence gate waits for the operator when it is manual, and fails the stage otherwise. */
    method HoldForEvidence(s: nat) returns (ok: bool)
      requires s < |ro.stages|
      modifies this`ro, this`nextId, this`halted
      ensures Result(State(), ok) ==
              if old(ro.stages)[s].policy.evidenceGate.mode.Manual?
              then Result(Machine.OpenGate(old(State()), s, EvidenceGate), true)
              else Machine.FailStage(old(State()), s)
    {
      if ro.stages[s].policy.evidenceGate.mode.Manual? {
        OpenGate(s, EvidenceGate);
        ok := true;
      } else {
        ok := FailStage(s);
      }
    }

    method HoldForAdvance(s: nat)
      requires s < |ro.stages|
      modifies this`ro, this`nextId, this`halted
      ensures State() == if old(ro.stages)[s].policy.advanceGate.Manual?
                         then Machine.OpenGate(old(State()), s, AdvanceGate) else old(State())
    {
      if ro.stages[s].policy.advanceGate.Manual? {
        OpenGate(s, AdvanceGate);
      }
    }

    method CompleteStage(s: nat, now: int, approved: bool) returns (ok: bool)
      requires s < |ro.stages|
      modifies this`ro, this`nextId, this`halted
      ensures Result(State(), ok) == Machine.CompleteStage(old(State()), s, now, approved)
    {
      var evidence := approved || EvidenceGateOpen(ro.stages[s], now, cfg);
      var advance := approved || AdvanceGateOpen(ro.stages[s]);
      if !evidence {
        ok := HoldForEvidence(s);
      } else if !advance {
        HoldForAdvance(s);
        ok := true;
      } else {
        ok := PassGates(s);
      }
    }

    method PassGates(s: nat) returns (ok: bool)
      requires s < |ro.stages|
      modifies this`ro
      ensures Result(State(), ok) == Machine.PassGates(old(State()), s)
    {
      hide Machine.Transition, LegalStage, LegalRollout;
      ok := MoveStageTo(s, StAdvancing);
      if !ok {
        return;
      }
      ok := MoveStageTo(s, StSucceeded);
      if !ok {
        return;
      }
      ro := ro.(cursor := ro.cursor + 1);
      ok := MoveTo(if ro.cursor >= |ro.stages| then Completed else Advancing);
    }

    /** Fails or cancels every dispatched attempt of the stage that is past its deadline. */
    method ExpireAttempts(s: nat, now: int)
      requires s < |ro.stages|
      modifies this`ro, this`at
      ensures State() == Machine.ExpireAttempts(old(State()), s, 0, now)
    {
      ghost var final := Machine.ExpireAttempts(State(), s, 0, now);
      var n := |ro.stages[s].targets|;
      for t := 0 to n
        invariant s < |ro.stages| && |ro.stages[s].targets| == n
        invariant Machine.ExpireAttempts(State(), s, t, now) == final
      {
        ExpireTarget(s, t, now);
      }
    }

    method ExpireTarget(s: nat, t: nat, now: int)
      requires s < |ro.stages| && t < |ro.stages[s].targets|
      modifies this`ro, this`at
      ensures State() == Machine.ExpireTarget(old(State()), s, t, now)
      ensures |ro.stages| == |old(ro.stages)| && |ro.stages[s].targets| == |old(ro.stages[s].targets)|
    {
      var st := ro.stages[s];
      var x := st.targets[t];
      if !x.state.Dispatched? || x.currentAttempt == 0 {
        return;
      }
      if x.currentAttempt !in at || at[x.currentAttempt].Finished() {
        return;
      }
      var a := at[x.currentAttempt];
      if a.deadline == 0 || now <= a.deadline {
        return;
      }
      Settle(s, t, x.currentAttempt, Machine.ExpiryVerdict(st, x, a, now));
    }

    method StartSoak(s: nat, now: int) returns (ok: bool)
      requires s < |ro.stages|
      modifies this`ro
      ensures Result(State(), ok) == Machine.StartSoak(old(State()), s, now)
    {
      SetStage(s, ro.stages[s].(soakStartedAt := now));
      ok := MoveStageTo(s, StSoaking);
      if ok && LegalRollout(ro.state, Soaking) {
        ok := MoveTo(Soaking);
      }
    }

    method Proceed(s: nat, now: int, accept: nat -> bool) returns (ok: bool)
      requires s < |ro.stages|
      modifies this
      ensures Result(State(), ok) == Machine.Proceed(old(State()), s, now, accept)
    {
      var st := ro.stages[s];
      var settled := CountTargets(st.targets, IsTerminal);
      if settled == |st.targets| {
        var soak := st.policy.evidenceGate.soak;
        if soak != 0 && st.soakStartedAt == 0 {
          ok := StartSoak(s, now);
        } else if soak != 0 && now - st.soakStartedAt < soak {
          ok := true;
        } else {
          ok := CompleteStage(s, now, false);
        }
        return;
      }
      if st.succeededTotal == 0 || HealthGateOpen(st, now, cfg) {
        DispatchStage(s, now, accept);
      }
      ok := true;
    }

    method RunStage(s: nat, now: int, accept: nat -> bool) returns (ok: bool)
      requires s < |ro.stages|
      modifies this
      ensures Result(State(), ok) == Machine.RunStage(old(State()), s, now, accept)
    {
      ghost var w := State();
      ExpireAttempts(s, now);
      assert s < |ro.stages| by { assert State() == Machine.ExpireAttempts(w, s, 0, now); }
      ok := AfterDeadlines(s, now, accept);
    }

    method AfterDeadlines(s: nat, now: int, accept: nat -> bool) returns (ok: bool)
      requires s < |ro.stages|
      modifies this
      ensures Result(State(), ok) == Machine.AfterDeadlines(old(State()), s, now, accept)
    {
      var st := ro.stages[s];
      var failed := CountTargets(st.targets, IsFailed);
      if failed > Machine.StageBudget(st) {
        ok := FailStage(s);
        return;
      }
      if Machine.CanaryDue(st) {
        if Machine.CanaryBatchGood(st, now, cfg) {
          SetStage(s, st.(canaryCleared := true));
        } else if Machine.CanaryExhausted(st) {
          ok := FailStage(s);
          return;
        }
      }
      ok := Proceed(s, now, accept);
    }

    // ----- ticks -----

    method AdvanceForward(now: int, accept: nat -> bool) returns (ok: bool)
      modifies this
      ensures Result(State(), ok) == Machine.AdvanceForward(old(State()), now, accept)
    {
      ok := true;
      var s := ro.cursor;
      if s >= |ro.stages| {
        ok := MoveTo(Completed);
        return;
      }
      match ro.stages[s].state {
        case StPending => ok := BeginStage(s);
        case StBlocked =>
        case StArmed => ok := MoveStageTo(s, StRunning);
        case StRunning => ok := RunStage(s, now, accept);
        case StSoaking => ok := RunStage(s, now, accept);
        case StGated =>
        case StAdvancing => ok := CompleteStage(s, now, true);
        case StSucceeded =>
          ro := ro.(cursor := ro.cursor + 1);
          ok := MoveTo(if ro.cursor >= |ro.stages| then Completed else Advancing);
        case StFailed => ok := EndRollout();
        case StAborted => ok := EndRollout();
        case StRolledBack => ro := ro.(cursor := ro.cursor + 1);
        case StSkipped => ro := ro.(cursor := ro.cursor + 1);
      }
    }

    method EndRollout() returns (ok: bool)
      modifies this`ro
      ensures Result(State(), ok) ==
              if Machine.HasCompensation(old(ro.stages)) then Machine.BeginRollback(old(State()))
              else Machine.FailRollout(old(State()))
    {
      if Machine.HasCompensation(ro.stages) {
        ok := BeginRollback();
      } else {
        ok := FailRollout();
      }
    }

    method Advance(now: int, accept: nat -> bool)
      modifies this
      ensures State() == Machine.Advance(old(State()), now, accept)
    {
      var ok := true;
      if ro.state.RollingBack? {
        RollBackStages(now, accept);
        ok := FinishRollback();
      } else if ro.state.AdmitsDispatch() {
        ok := AdvanceForward(now, accept);
      }
      if !ok {
        halted := true;
      }
    }

    method Tick(now: int, accept: nat -> bool)
      modifies this
      ensures State() == Machine.Tick(old(State()), now, accept)
      ensures Endurance.Endures(old(State()), Reachable.OnTick(now, accept), State())
    {
      hide Endurance.Endures;
      Endurance.TickEndures(State(), now, accept);
      if halted {
        return;
      }
      DrainPending(now);
      Advance(now, accept);
    }

    // ----- reconciliation -----

    method ReconcileOne(answer: Answer, now: int)
      modifies this`ro, this`at
      ensures State() == Machine.ReconcileOne(old(State()), answer, now)
    {
      var id := answer.attempt;
      if id !in at {
        return;
      }
      var a := at[id];
      var s := FindStage(ro.stages, a.stage);
      if s == |ro.stages| {
        return;
      }
      var st := ro.stages[s];
      var t := FindTarget(st.targets, a.target);
      if t == |st.targets| {
        return;
      }
      var x := st.targets[t];
      match answer.fate {
        case FateCompleted => Believe(Machine.ReconciledRecord(id, a, answer.fate, now), now);
        case FateFailed => Believe(Machine.ReconciledRecord(id, a, answer.fate, now), now);
        case FateNotStarted => Settle(s, t, id, Machine.ReleaseVerdict(st, x, a));
        case FateInProgress =>
        case FateUnknown =>
          SetStage(s, st.(targets := st.targets[t := x.(state := if x.state.Dispatched? then Unknown else x.state)]));
          at := at[id := a.(state := Unknown)];
      }
    }

    /** An answer is evidence like any other: admitted first, then applied. */
    method Believe(rec: Record, now: int)
      modifies this`ro, this`at
      ensures State() == if Machine.Admit(old(State()), rec, now).Accepted?
                         then Machine.ApplyEvidence(old(State()), rec)
                         else old(State())
    {
      var disposition := Machine.Admit(World(cfg, ro, at, order, nextId, inbox, halted), rec, now);
      if disposition.Accepted? {
        ApplyEvidence(rec);
      }
    }

    method Reconcile(answers: seq<Answer>, now: int)
      modifies this`ro, this`at
      ensures State() == Machine.Reconcile(old(State()), answers, now)
      ensures Endurance.Endures(old(State()), Reachable.OnReconcile(answers, now), State())
    {
      hide Endurance.Endures;
      Endurance.ReconcileEndures(State(), answers, now);
      ghost var final := Machine.Reconcile(State(), answers, now);
      for i := 0 to |answers|
        invariant Machine.Reconcile(State(), answers[i..], now) == final
      {
        assert answers[i..][0] == answers[i] && answers[i..][1..] == answers[i + 1..];
        ReconcileOne(answers[i], now);
      }
    }

    // ----- commands -----

    method Arm(f: Fence) returns (ok: bool)
      modifies this`ro
      ensures Result(State(), ok) == Machine.Arm(old(State()), f)
      ensures Endurance.Endures(old(State()), Reachable.OnArm(f), State())
    {
      hide Endurance.Endures;
      Endurance.ArmEndures(State(), f);
      if !Machine.Fenced(ro, f) || (!ro.state.Validated? && !ro.state.Created?) {
        return false;
      }
      ok := FreezeCohorts();
      if ok {
        ok := MoveTo(Armed);
      }
    }

    method FreezeCohorts() returns (ok: bool)
      modifies this`ro
      ensures Result(State(), ok) == Machine.FreezeCohorts(old(State()), 0)
    {
      ghost var final := Machine.FreezeCohorts(State(), 0);
      var n := |ro.stages|;
      for s := 0 to n
        invariant |ro.stages| == n
        invariant Machine.FreezeCohorts(State(), s) == final
      {
        if ro.stages[s].frozen || ro.stages[s].targets == [] {
          return false;
        }
        SetStage(s, ro.stages[s].(frozen := true));
      }
      ok := true;
    }

    method Start(f: Fence) returns (ok: bool)
      modifies this`ro
      ensures Result(State(), ok) == Machine.Start(old(State()), f)
      ensures Endurance.Endures(old(State()), Reachable.OnStart(f), State())
    {
      hide Endurance.Endures;
      Endurance.StartEndures(State(), f);
      if !Machine.Fenced(ro, f) || !ro.state.Armed? || ro.cursor >= |ro.stages| {
        return false;
      }
      for i := 0 to |ro.stages|
        invariant forall k :: 0 <= k < i ==> ro.stages[k].frozen
      {
        if !ro.stages[i].frozen {
          return false;
        }
      }
      ok := MoveTo(Running);
    }

    method Pause(f: Fence, stops: nat -> bool) returns (ok: bool)
      modifies this`ro, this`at
      ensures Result(State(), ok) == Machine.Pause(old(State()), f, stops)
      ensures Endurance.Endures(old(State()), Reachable.OnPause(f, stops), State())
    {
      hide Endurance.Endures;
      Endurance.PauseEndures(State(), f, stops);
      if !Machine.Fenced(ro, f) || !ro.state.CanPause() {
        return false;
      }
      ro := ro.(resumeState := ro.state);
      ok := MoveTo(Paused);
      if !ok || ro.cursor >= |ro.stages| || ro.stages[ro.cursor].policy.pauseInFlight.LetFinish? {
        return;
      }
      ok := CancelInFlight(FindStage(ro.stages, ro.stages[ro.cursor].id), stops);
    }

    method Resume(f: Fence) returns (ok: bool)
      modifies this`ro
      ensures Result(State(), ok) == Machine.Resume(old(State()), f)
      ensures Endurance.Endures(old(State()), Reachable.OnResume(f), State())
    {
      hide Endurance.Endures;
      Endurance.ResumeEndures(State(), f);
      if !Machine.Fenced(ro, f) || !ro.state.Paused? || !LegalRollout(Paused, ro.resumeState) {
        return false;
      }
      ok := MoveTo(ro.resumeState);
    }

    method AbortStage(s: nat, stops: nat -> bool) returns (ok: bool)
      requires s < |ro.stages|
      modifies this`ro, this`at
      ensures Result(State(), ok) == Machine.AbortStage(old(State()), s, stops)
    {
      var state := ro.stages[s].state;
      if state.StPending? || state.StBlocked? {
        ok := MoveStageTo(s, StSkipped);
      } else if state.Terminal() {
        ok := true;
      } else {
        ok := CancelInFlight(s, stops);
        if ok {
          ok := MoveStageTo(s, StAborted);
        }
      }
    }

    method AbortStages(stops: nat -> bool) returns (ok: bool)
      modifies this`ro, this`at
      ensures Result(State(), ok) == Machine.AbortStages(old(State()), 0, stops)
    {
      hide Machine.AbortStage;
      ghost var final := Machine.AbortStages(State(), 0, stops);
      var n := |ro.stages|;
      for s := 0 to n
        invariant |ro.stages| == n
        invariant Machine.AbortStages(State(), s, stops) == final
      {
        ghost var next := Machine.AbortStage(State(), s, stops);
        assert final == if next.ok then Machine.AbortStages(next.w, s + 1, stops) else next;
        ok := AbortStage(s, stops);
        if !ok {
          return;
        }
      }
      ok := true;
    }

    method Abort(f: Fence, stops: nat -> bool) returns (ok: bool)
      modifies this`ro, this`at
      ensures Result(State(), ok) == Machine.Abort(old(State()), f, stops)
      ensures Endurance.Endures(old(State()), Reachable.OnAbort(f, stops), State())
    {
      hide Endurance.Endures;
      Endurance.AbortEndures(State(), f, stops);
      if !Machine.Fenced(ro, f) || ro.state.Terminal() || ro.state.Aborting? || ro.state.RollingBack? {
        return false;
      }
      var compensated := Machine.HasCompensation(ro.stages);
      ok := MoveTo(Aborting);
      if !ok {
        return;
      }
      ok := AbortStages(stops);
      if !ok {
        return;
      }
      if compensated {
        ok := BeginRollback();
      } else {
        ok := FailRollout();
      }
    }

    method ApproveGate(gate: nat, f: Fence, now: int) returns (ok: bool)
      modifies this
      ensures Result(State(), ok) == Machine.ApproveGate(old(State()), gate, f, now)
      ensures Endurance.Endures(old(State()), Reachable.OnApprove(gate, f, now), State())
    {
      hide Endurance.Endures;
      Endurance.ApproveGateEndures(State(), gate, f, now);
      var s := Machine.FindGate(ro.stages, gate);
      if !Machine.Fenced(ro, f) || s == |ro.stages| {
        return false;
      }
      var kind := ro.stages[s].pendingGateKind;
      SetStage(s, ro.stages[s].(pendingGate := 0));
      match kind {
        case EntryGate => ok := BeginStage(s);
        case EvidenceGate => ok := CompleteStage(s, now, true);
        case AdvanceGate => ok := CompleteStage(s, now, true);
        case HealthGate => ok := MoveStageTo(s, StRunning);
        case RollbackGate => ok := BeginRollback();
      }
    }

    method Retire(f: Fence) returns (ok: bool)
      modifies this`ro
      ensures Result(State(), ok) == Machine.Retire(old(State()), f)
      ensures Endurance.Endures(old(State()), Reachable.OnRetire(f), State())
    {
      hide Endurance.Endures;
      Endurance.RetireEndures(State(), f);
      if !Machine.Fenced(ro, f) || (!ro.state.Failed? && !ro.state.Completed?) {
        return false;
      }
      ok := MoveTo(Retired);
    }

    method Regenerate(f: Fence, renewed: seq<Stage>, fits: nat -> bool) returns (ok: bool)
      modifies this`ro, this`nextId
      ensures Result(State(), ok) == Machine.Regenerate(old(State()), f, renewed, fits)
      ensures Endurance.Endures(old(State()), Reachable.OnRegenerate(f, renewed, fits), State())
    {
      hide Endurance.Endures;
      Endurance.RegenerateEndures(State(), f, renewed, fits);
      if !Machine.Fenced(ro, f) || (!ro.state.Failed? && !ro.state.Completed?) {
        return false;
      }
      ro := ro.(generation := nextId, stages := [], cursor := 0, outstanding := 0);
      nextId := nextId + 1;
      ghost var begun := ro;
      for i := 0 to |renewed|
        invariant ro == begun.(stages := renewed[..i]) && nextId == old(nextId) + 1
        invariant Machine.FirstUnfit(fits, 0, |renewed|) == Machine.FirstUnfit(fits, i, |renewed|)
      {
        if !fits(i) {
          assert Machine.Materialised(renewed, fits) == renewed[..i];
          return false;
        }
        ro := ro.(stages := ro.stages + [renewed[i]]);
        assert renewed[..i] + [renewed[i]] == renewed[..i + 1];
      }
      assert Machine.Materialised(renewed, fits) == renewed[..|renewed|];
      ro := ro.(revision := ro.revision + 1, state := Validated, resumeState := Validated);
      ok := true;
    }

    // ----- taking over after a restart -----

    method RestoreTarget(s: nat, t: nat, previous: nat)
      requires s < |ro.stages| && t < |ro.stages[s].targets|
      modifies this`ro, this`at, this`order
      ensures State() == Recovery.RestoreTarget(old(State()), s, t, previous)
      ensures |ro.stages| == |old(ro.stages)| && |ro.stages[s].targets| == |old(ro.stages[s].targets)|
    {
      var st := ro.stages[s];
      var x := st.targets[t];
      if x.currentAttempt != 0 && x.state.Changing() && Recovery.NextAction(st, x).Some? {
        NoteAttempt(x.currentAttempt, Recovery.RebuiltAttempt(ro, previous, st, x));
        ro := ro.(outstanding := ro.outstanding + 1);
      } else {
        SetStage(s, Machine.PutTarget(st, t, x.(currentAttempt := 0)));
      }
    }

    method RestoreTargets(s: nat, previous: nat)
      requires s < |ro.stages|
      modifies this`ro, this`at, this`order
      ensures State() == Recovery.RestoreTargets(old(State()), s, 0, previous)
    {
      hide Recovery.RestoreTarget;
      ghost var final := Recovery.RestoreTargets(State(), s, 0, previous);
      var n := |ro.stages[s].targets|;
      for t := 0 to n
        invariant s < |ro.stages| && |ro.stages[s].targets| == n
        invariant Recovery.RestoreTargets(State(), s, t, previous) == final
      {
        RestoreTarget(s, t, previous);
      }
    }

    /** Whether every cohort of a snapshot is frozen. */
    method AllFrozen(stages: seq<Stage>) returns (frozen: bool)
      ensures frozen <==> forall i :: 0 <= i < |stages| ==> stages[i].frozen
    {
      for i := 0 to |stages|
        invariant forall k :: 0 <= k < i ==> stages[k].frozen
      {
        if !stages[i].frozen {
          return false;
        }
      }
      frozen := true;
    }

    /** Adopts a snapshot: refuses it, or rebuilds the attempts of its changing targets. */
    method Restore(rollout: Rollout, previous: nat, planHolds: bool) returns (ok: bool)
      modifies this`ro, this`at, this`order
      ensures Result(State(), ok) == Recovery.Restore(old(State()), rollout, previous, planHolds)
      ensures ok ==> Endurance.Continues(old(State()), rollout, State())
    {
      hide Endurance.Continues;
      Endurance.RestoreContinues(State(), rollout, previous, planHolds);
      if rollout.id == 0 || !planHolds {
        return false;
      }
      var frozen := AllFrozen(rollout.stages);
      if !frozen && !rollout.state.Terminal() {
        return false;
      }
      if ro.id == rollout.id && ro.revision >= rollout.revision {
        return false;
      }
      hide Recovery.RestoreTargets;
      ro := rollout.(outstanding := 0);
      ghost var final := Recovery.RestoreStages(State(), 0, previous);
      var n := |ro.stages|;
      for s := 0 to n
        invariant |ro.stages| == n
        invariant Recovery.RestoreStages(State(), s, previous) == final
      {
        RestoreTargets(s, previous);
      }
      ok := true;
    }
  }
}
