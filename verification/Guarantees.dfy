/** What an operator may rely on in every world a run can reach, mostly through any number of restarts. */
module Guarantees {
  import opened Lifecycle
  import opened Rollouts
  import opened Gates
  import opened Dispatch
  import opened Machine
  import opened Books
  import opened Steps
  import opened Shape
  import opened Invariance
  import opened History
  import opened Evidence
  import opened Operations
  import opened Commands
  import opened Provenance
  import opened Moves
  import opened Reachable
  import opened Recovery
  import opened Restart
  import Accounting

  // ----- attempts -----

  /** Target `t` of stage `s` is at work on attempt `id`, its current one, under that attempt's epoch. */
  ghost predicate WorksOn(w: World, id: nat, s: nat, t: nat) {
    && id in w.at && Names(w.ro, w.at[id], s, t)
    && var x := w.ro.stages[s].targets[t];
       x.currentAttempt == id && x.epoch == w.at[id].epoch && x.state.Changing()
  }

  /** Unfinished attempts and targets at work match one to one, and the outstanding counter is their number. */
  lemma OutstandingIsExact(env: Env, w: World)
    requires Enduring(env, w)
    ensures w.ro.outstanding == |LiveSet(w)|
    ensures forall id :: id in LiveSet(w) ==> exists s: nat, t: nat :: WorksOn(w, id, s, t)
    ensures forall id, id', s: nat, t: nat ::
              id in LiveSet(w) && id' in LiveSet(w) && Names(w.ro, w.at[id], s, t) && Names(w.ro, w.at[id'], s, t) ==>
                id == id'
  {
    hide Enduring;
    EnduringIsSolid(env, w);
    forall id | id in LiveSet(w) ensures exists s: nat, t: nat :: WorksOn(w, id, s, t) {
      var s, t := LiveIsHoused(w, id);
      Accounting.LiveOnIsCurrent(w, id, s, t);
      assert WorksOn(w, id, s, t);
    }
    forall id, id', s: nat, t: nat |
      id in LiveSet(w) && id' in LiveSet(w) && Names(w.ro, w.at[id], s, t) && Names(w.ro, w.at[id'], s, t)
      ensures id == id'
    {
      OneLiveAttemptPerTarget(w, id, id', s, t);
    }
  }

  /** An admitted report is about the current attempt of its target, and the counter it lowers is positive. */
  lemma ReportsMatch(env: Env, w: World, rec: Record, now: int)
    requires Enduring(env, w) && Honest(env, w, rec) && Admit(w, rec, now).Accepted?
    ensures var s := FindStage(w.ro.stages, rec.stage);
            var t := FindTarget(w.ro.stages[s].targets, rec.target);
            && WorksOn(w, rec.attempt, s, t) && w.ro.outstanding > 0
  {
    hide Enduring;
    EnduringIsSolid(env, w);
    var s := FindStage(w.ro.stages, rec.stage);
    var t := FindTarget(w.ro.stages[s].targets, rec.target);
    AdmittedIsLive(env, w, rec, now, s, t);
    Accounting.LiveOnIsCurrent(w, rec.attempt, s, t);
  }

  // ----- order -----

  /** No target is ever attempted before every target of every predecessor stage has settled. */
  lemma PredecessorsSettleFirst(env: Env, w: World, i: nat, t: nat, k: nat)
    requires Enduring(env, w) && BeforeRollback(w.ro.state) && w.HasTarget(i, t)
    requires w.ro.stages[i].targets[t].attemptsCreated > 0 && k < |w.ro.stages[i].predecessors|
    ensures var p := FindStage(w.ro.stages, w.ro.stages[i].predecessors[k]);
            p < i && w.ro.stages[p].state.StSucceeded? && Settled(w.ro.stages[p])
  {
    hide Enduring;
    EnduringIsSolid(env, w);
    PredecessorIsEarlier(w.ro.stages, i, k);
    assert i > w.ro.cursor ==> Ahead(w.ro, w.ro.stages[i]);
    assert Untouched(w.ro.stages[i]) ==> UntouchedTarget(w.ro.stages[i].targets[t]);
    assert Behind(w.ro.stages[FindStage(w.ro.stages, w.ro.stages[i].predecessors[k])]);
  }

  /**
   * A completed rollout has nothing outstanding, and every stage of it succeeded, with all its targets settled, if
   * and only if its cursor is past the last stage. Otherwise a new generation was given up half-way, and no stage
   * of it has begun.
   */
  lemma CompletedIsComplete(env: Env, w: World)
    requires Enduring(env, w) && w.ro.state.Completed?
    ensures w.ro.outstanding == 0
    ensures (forall i :: 0 <= i < |w.ro.stages| ==> w.ro.stages[i].state.StSucceeded?) <==> w.ro.cursor >= |w.ro.stages|
    ensures w.ro.cursor >= |w.ro.stages| ==> forall i :: 0 <= i < |w.ro.stages| ==> Settled(w.ro.stages[i])
    ensures w.ro.cursor < |w.ro.stages| ==> forall i :: 0 <= i < |w.ro.stages| ==> NotBegun(w.ro.stages[i])
  {
    hide Enduring;
    EnduringIsSolid(env, w);
    forall i | 0 <= i < |w.ro.stages|
      ensures if w.ro.cursor >= |w.ro.stages| then Behind(w.ro.stages[i]) else NotBegun(w.ro.stages[i])
    {
      assert AllBehind(w.ro) || NoneBegun(w.ro);
    }
    if id :| id in LiveSet(w) {
      var s, t := LiveIsHoused(w, id);
      Accounting.LiveOnIsCurrent(w, id, s, t);
    } else {
      assert LiveSet(w) == {};
    }
  }

  /** A new generation is given up half-way exactly when some cohort cannot be taken whole; the old one is gone. */
  lemma RegenerationIsWholeIff(w: World, f: Fence, renewed: seq<Stage>, fits: nat -> bool)
    requires Fenced(w.ro, f) && (w.ro.state.Failed? || w.ro.state.Completed?)
    ensures var r := Regenerate(w, f, renewed, fits);
            && (r.ok <==> forall i :: 0 <= i < |renewed| ==> fits(i))
            && r.w.ro.generation == w.nextId && r.w.ro.stages <= renewed
            && r.w.ro.state == if r.ok then Validated else w.ro.state
  {
    UnfitIsFirst(fits, 0, |renewed|);
  }

  lemma {:induction false} UnfitIsFirst(fits: nat -> bool, i: nat, n: nat)
    requires i <= n
    ensures forall k :: i <= k < FirstUnfit(fits, i, n) ==> fits(k)
    decreases n - i
  {
    if i < n && fits(i) {
      UnfitIsFirst(fits, i + 1, n);
    }
  }

  // ----- limits -----

  lemma OnlyCursorChanges(ro: Rollout)
    requires Phased(ro) && BeforeRollback(ro.state) && ro.cursor < |ro.stages|
    ensures ChangingCount(ro.stages) == Count(ro.stages[ro.cursor].targets, IsChanging)
  {
    forall i | 0 <= i < |ro.stages| && i != ro.cursor ensures Count(ro.stages[i].targets, IsChanging) == 0 {
      assert i < ro.cursor ==> Behind(ro.stages[i]);
      assert i > ro.cursor ==> Ahead(ro, ro.stages[i]);
      assert forall j :: 0 <= j < |ro.stages[i].targets| ==>
          (Untouched(ro.stages[i]) ==> UntouchedTarget(ro.stages[i].targets[j]));
      CountNone(ro.stages[i].targets, IsChanging);
    }
    ChangingCountOnly(ro.stages, ro.cursor);
  }

  /**
   * In forward execution the targets changing anywhere in the rollout stay within the concurrency,
   * per-stage and global limits of the stage at the cursor, and until its canary clears at most
   * `canarySize` distinct targets have ever been attempted.
   */
  lemma LimitsHold(env: Env, w: World)
    requires Enduring(env, w) && BeforeRollback(w.ro.state) && w.ro.cursor < |w.ro.stages|
    ensures var st := w.ro.stages[w.ro.cursor];
            && ChangingCount(w.ro.stages) <= st.policy.maxConcurrency
            && ChangingCount(w.ro.stages) <= st.policy.radius.perStage
            && ChangingCount(w.ro.stages) <= st.policy.radius.global
            && (CanaryActive(st) ==> Count(st.targets, IsAttempted) <= st.policy.canarySize)
  {
    hide Enduring;
    EnduringIsSolid(env, w);
    OnlyCursorChanges(w.ro);
  }

  /** Unless a reconciliation released an attempt, forward attempts never exceed the policy's number. */
  lemma AttemptsAreBounded(env: Env, w: World, s: nat, t: nat)
    requires Enduring(env, w) && !env.releases && w.HasTarget(s, t)
    requires !Compensating(w.ro.stages[s].targets[t])
    ensures var st, x := w.ro.stages[s], w.ro.stages[s].targets[t];
            && x.epoch == x.attemptsCreated <= st.policy.maxAttempts
            && (x.state.Pending? ==> x.attemptsCreated < st.policy.maxAttempts)
  {
    hide Enduring;
    EnduringIsSolid(env, w);
    assert CapTarget(w.ro.stages[s].policy, w.ro.stages[s].targets[t]);
  }

  // ----- success -----

  /**
   * A succeeded target was reported so: some completion record names exactly its generation, stage,
   * identity, epoch and current attempt.
   */
  lemma SuccessWasReported(env: Env, w: World, s: nat, t: nat)
    requires Attained(env, w) && w.HasTarget(s, t) && w.ro.stages[s].targets[t].state.Succeeded?
    ensures exists rec :: rec in env.heard && Completes(rec, w.ro.generation, w.ro.stages[s], w.ro.stages[s].targets[t])
  {
    AttainedIsSound(env, w);
    assert EarnedTarget(env, w, w.ro.stages[s], w.ro.stages[s].targets[t]);
  }

  /** Once an attempt is cancelled, no later evidence makes it or its target succeed. */
  lemma CancelledNeverSucceeds(env: Env, w: World, id: nat, w': World)
    requires Sound(env, w) && Current(w, id) && w.at[id].cancelledEpoch != 0
    requires Leads(env, w, w') && Current(w', id)
    ensures w'.at[id].cancelledEpoch == w.at[id].cancelledEpoch && !w'.at[id].state.Succeeded?
    ensures forall s: nat, t: nat :: w'.HasTarget(s, t) && w'.ro.stages[s].targets[t].currentAttempt == id ==>
              !w'.ro.stages[s].targets[t].state.Succeeded?
  {
    var acts :| Runs(env, w, acts, w');
    RunKeepsInv(env, w, acts, w');
    StepsKeepSound(env, w, acts, w');
    assert AttemptOk(w'.ro, id, w'.at[id]);
    forall s: nat, t: nat | w'.HasTarget(s, t) && w'.ro.stages[s].targets[t].currentAttempt == id
      ensures !w'.ro.stages[s].targets[t].state.Succeeded?
    {
      assert EarnedTarget(env, w', w'.ro.stages[s], w'.ro.stages[s].targets[t]);
    }
  }

  // ----- duplicates, reordering and lateness -----

  /** The attempt is gone for good, or has already shown this sequence number or a higher one. */
  ghost predicate Outdated(w: World, rec: Record) {
    && !ClassOf(rec.kind).Telemetry? && rec.attempt < w.nextId
    && (rec.attempt in w.at ==> rec.sequence <= w.at[rec.attempt].highestSequence)
  }

  lemma OutdatedIsIgnored(w: World, rec: Record, now: int)
    requires Outdated(w, rec)
    ensures Ingest(w, rec, now) == w
  {
  }

  lemma AcceptedIsOutdated(env: Env, w: World, rec: Record, now: int)
    requires Inv(env, w) && Honest(env, w, rec) && Admit(w, rec, now).Accepted? && !ClassOf(rec.kind).Telemetry?
    ensures Outdated(Ingest(w, rec, now), rec)
  {
    var s := FindStage(w.ro.stages, rec.stage);
    var t := FindTarget(w.ro.stages[s].targets, rec.target);
    if Finishing(rec) {
      AdmittedIsLive(env, w, rec, now, s, t);
      ApplyFinishing(w, rec, s, t);
      var seen := DoSee(w, rec.attempt, rec.sequence);
      VerdictKeepsSequence(seen.ro.stages[s], seen.ro.stages[s].targets[t], seen.at[rec.attempt],
                           CauseOf(rec, w.ro.stages[s].targets[t]));
    }
  }

  /**
   * A record that was accepted once, or any record with no higher sequence for the same attempt, changes
   * nothing at any later point of any run.
   */
  lemma ReplayIsIgnored(env: Env, w: World, rec: Record, now: int, w': World, again: Record, later: int)
    requires Inv(env, w) && Honest(env, w, rec) && Admit(w, rec, now).Accepted? && !ClassOf(rec.kind).Telemetry?
    requires Leads(env, Ingest(w, rec, now), w')
    requires again.attempt == rec.attempt && again.sequence <= rec.sequence && !ClassOf(again.kind).Telemetry?
    ensures Ingest(w', again, later) == w'
  {
    var w1 := Ingest(w, rec, now);
    IngestGoes(env, w, rec, now);
    AcceptedIsOutdated(env, w, rec, now);
    LeadsKeepsInv(env, w1, w');
    OutdatedIsIgnored(w', again, later);
  }

  /** The highest sequence an attempt has shown never goes down, and a finished attempt stays finished. */
  lemma SequencesRise(env: Env, w: World, w': World, id: nat)
    requires Inv(env, w) && Leads(env, w, w') && id in w.at && id in w'.at && id < w.nextId
    ensures w'.at[id].highestSequence >= w.at[id].highestSequence
    ensures w.at[id].Finished() ==> w'.at[id].Finished()
  {
    LeadsKeepsInv(env, w, w');
  }

  /** Every accepted record strictly raises the highest sequence of its attempt, and touches no other attempt. */
  lemma AcceptedRaises(w: World, rec: Record, now: int)
    requires Admit(w, rec, now).Accepted? && !ClassOf(rec.kind).Telemetry?
    ensures var w' := Ingest(w, rec, now);
            && w'.at.Keys == w.at.Keys && rec.attempt in w.at
            && w'.at[rec.attempt].highestSequence == rec.sequence > w.at[rec.attempt].highestSequence
            && forall id :: id in w.at && id != rec.attempt ==> w'.at[id] == w.at[id]
  {
    var s := FindStage(w.ro.stages, rec.stage);
    var t := FindTarget(w.ro.stages[s].targets, rec.target);
    var seen := DoSee(w, rec.attempt, rec.sequence);
    assert seen == Seen(w, rec);
    if Finishing(rec) {
      ApplyFinishing(w, rec, s, t);
      VerdictKeepsSequence(seen.ro.stages[s], seen.ro.stages[s].targets[t], seen.at[rec.attempt],
                           CauseOf(rec, w.ro.stages[s].targets[t]));
      hide VerdictFor, ApplyEvidence;
    }
  }

  /** Dropping an outdated record from a batch changes nothing. */
  lemma {:induction false} DrainIgnoresOutdated(env: Env, w: World, a: seq<Record>, rec: Record,
                                            b: seq<Record>, now: int)
    requires Inv(env, w) && Outdated(w, rec) && (forall k :: 0 <= k < |a| ==> Honest(env, w, a[k]))
    ensures Drain(w, a + [rec] + b, now) == Drain(w, a + b, now)
    decreases |a|
  {
    hide Inv, Ingest, Honest;
    if a == [] {
      OutdatedIsIgnored(w, rec, now);
      assert (a + [rec] + b)[1..] == b && a + b == b;
    } else {
      var w1 := Ingest(w, a[0], now);
      IngestGoes(env, w, a[0], now);
      LeadsKeepsInv(env, w, w1);
      forall k | 0 <= k < |a[1..]| ensures Honest(env, w1, a[1..][k]) {
        GoHonest(env, w, w1, a[k + 1]);
      }
      DrainIgnoresOutdated(env, w1, a[1..], rec, b, now);
      assert (a + [rec] + b)[1..] == a[1..] + [rec] + b && (a + b)[1..] == a[1..] + b;
    }
  }

  // ----- rollback -----

  /** Only a rollout that is rolling back has targets rolling back, and no target rests in failed. */
  lemma RollbackIsConfined(env: Env, w: World)
    requires Enduring(env, w)
    ensures !w.ro.state.RollingBack? ==> NoneRollingBack(w.ro)
    ensures forall s, t :: 0 <= s < |w.ro.stages| && 0 <= t < |w.ro.stages[s].targets| ==>
              !w.ro.stages[s].targets[t].state.TFailed?
  {
    hide Enduring;
    EnduringIsSolid(env, w);
    forall s, t | 0 <= s < |w.ro.stages| && 0 <= t < |w.ro.stages[s].targets|
      ensures SaneTarget(w.ro.state, w.ro.stages[s], w.ro.stages[s].targets[t])
    {
    }
    if !w.ro.state.RollingBack? { NoneBefore(w.ro); }
  }

  /**
   * From the start of a rollback to the end of the generation each begun stage that supports it accounts
   * for every target that had succeeded: rolling back, rolled back, or failed to roll back.
   */
  lemma RollbackAccounts(env: Env, w: World, acts: seq<Act>, w': World, s: nat)
    requires env.confined && Enduring(env, w) && CanBegin(w) && w.HasStage(s)
    requires Runs(env, DoBegin(w), acts, w') && w'.ro.generation == w.ro.generation
    ensures w'.HasStage(s)
    ensures var st, ts := w.ro.stages[s], w'.ro.stages[s].targets;
            Count(ts, IsRollingBack) + Count(ts, IsRolledBack) + Count(ts, IsRollbackFailed) ==
            if st.state.StPending? || st.state.StSkipped? || !st.policy.rollbackSupported then 0
            else Count(st.targets, IsSucceeded)
  {
    hide Enduring, Balanced, Shaped, HonestInbox, Sole, Actionable, Numbered;
    EnduringIsSolid(env, w);
    StepKeepsInv(env, w, Begin);
    assert Do(env, w, Begin) == DoBegin(w);
    RollbackMarksSucceeded(env, w, s);
    CompensationIsConserved(env, DoBegin(w), acts, w', s);
    CompensatingSplits(w'.ro.stages[s].targets);
  }

  lemma {:induction false} SettlesIff(w: World, s: nat)
    requires s <= |w.ro.stages|
    ensures SettleStages(w, s).ok <==>
            forall i :: s <= i < |w.ro.stages| ==>
              w.ro.stages[i].state.StRolledBack? || LegalStage(w.ro.stages[i].state, StRolledBack)
    decreases |w.ro.stages| - s
  {
    if s < |w.ro.stages| {
      var r := StageTransition(w, s, StRolledBack);
      if r.ok {
        SettlesIff(r.w, s + 1);
        assert forall i :: s < i < |w.ro.stages| ==> r.w.ro.stages[i] == w.ro.stages[i];
      }
    }
  }

  /** The stage that stopped the rollout is the last one, and it had begun. */
  predicate StoppedAtLast(ro: Rollout) {
    ro.cursor + 1 >= |ro.stages| && (ro.cursor < |ro.stages| ==> !ro.stages[ro.cursor].state.StSkipped?)
  }

  lemma UnwindingSettles(ro: Rollout)
    requires Unwinding(ro) && ro.cursor <= |ro.stages|
    ensures StoppedAtLast(ro) <==>
            forall i :: 0 <= i < |ro.stages| ==>
              ro.stages[i].state.StRolledBack? || LegalStage(ro.stages[i].state, StRolledBack)
  {
    if ro.cursor + 1 < |ro.stages| {
      assert !LegalStage(ro.stages[ro.cursor + 1].state, StRolledBack);
    }
  }

  /**
   * When nothing is still rolling back, the rollback finishes exactly when the stage that stopped the
   * rollout is the last one and had begun. Any later stage is pending or skipped, its transition is a
   * conflict, and the controller halts with the rollout still rolling back.
   */
  lemma RollbackFinishesIff(env: Env, w: World)
    requires Enduring(env, w) && w.ro.state.RollingBack? && NoneRollingBack(w.ro)
    ensures FinishRollback(w).ok <==> StoppedAtLast(w.ro)
    ensures StoppedAtLast(w.ro) ==> FinishRollback(w).w.ro.state.Failed?
    ensures !StoppedAtLast(w.ro) ==> Halt(FinishRollback(w)).halted && FinishRollback(w).w.ro.state.RollingBack?
  {
    hide Enduring;
    EnduringIsSolid(env, w);
    UnwindingSettles(w.ro);
    SettlesIff(w, 0);
    SettleStagesGoes(env, w, 0);
    FinishWhenSettled(w);
  }

  lemma FinishWhenSettled(w: World)
    requires NoneRollingBack(w.ro) && SettleStages(w, 0).w.ro.state.RollingBack?
    ensures var r, settled := FinishRollback(w), SettleStages(w, 0);
            if settled.ok then r.ok && r.w.ro.state.Failed? else r == settled
  {
    assert forall s :: 0 <= s < |w.ro.stages| ==> !StillRollingBack(w.ro.stages[s]);
  }

  // ----- gates -----

  /** Opening a manual gate halts the controller exactly when the stage has been soaking: soaking cannot be gated. */
  lemma GateHaltsIff(env: Env, w: World, s: nat, kind: GateKind)
    requires Enduring(env, w) && CanSetGate(w, s, kind)
    requires !w.halted && !w.ro.stages[s].state.Terminal()
    ensures OpenGate(w, s, kind).halted <==> w.ro.stages[s].state.StSoaking?
    ensures !w.ro.stages[s].state.StSoaking? ==> OpenGate(w, s, kind).ro.stages[s].state.StGated?
  {
    hide Enduring;
    EnduringIsSolid(env, w);
    assert AtCursor(w.ro.state, w.ro.stages[s]);
  }

  lemma {:induction false} ExpireNothing(w: World, s: nat, t: nat, now: int)
    requires w.HasStage(s) && t <= |w.ro.stages[s].targets| && Settled(w.ro.stages[s])
    ensures ExpireAttempts(w, s, t, now) == w
    decreases |w.ro.stages[s].targets| - t
  {
    if t < |w.ro.stages[s].targets| {
      ExpireNothing(w, s, t + 1, now);
    }
  }

  /** The canary has cleared, or need not yet, or some of it may still succeed. */
  predicate CanaryHolds(st: Stage, now: int, cfg: Config) {
    CanaryDue(st) && CanaryExhausted(st) ==> CanaryBatchGood(st, now, cfg)
  }

  /** The gate a soaked stage comes to first is shut, and waits for the operator. */
  predicate StopsAtManualGate(st: Stage, now: int, cfg: Config) {
    if !EvidenceGateOpen(st, now, cfg) then st.policy.evidenceGate.mode.Manual?
    else !AdvanceGateOpen(st) && st.policy.advanceGate.Manual?
  }

  predicate SoaksAtCursor(ro: Rollout) { ro.cursor < |ro.stages| && ro.stages[ro.cursor].state.StSoaking? }

  lemma SoakedProceeds(w: World, s: nat, now: int, accept: nat -> bool)
    requires w.HasStage(s) && Settled(w.ro.stages[s]) && SoakElapsed(w.ro.stages[s], now)
    ensures Proceed(w, s, now, accept) == CompleteStage(w, s, now, false)
  {
    CountAll(w.ro.stages[s].targets, IsTerminal);
  }

  lemma SoakedPasses(w: World, s: nat)
    requires w.HasStage(s) && w.ro.stages[s].state.StSoaking? && w.ro.state.AdmitsDispatch()
    ensures PassGates(w, s).ok && PassGates(w, s).w.halted == w.halted
  {
    CompleteIs(w, s);
  }

  lemma SoakedFails(w: World, s: nat)
    requires w.HasStage(s) && w.ro.stages[s].state.StSoaking? && w.ro.state.AdmitsDispatch()
    ensures FailStage(w, s).ok && FailStage(w, s).w.halted == w.halted
  {
    hide HasCompensation, MarkStage;
    assert StageTransition(w, s, StFailed).ok;
  }

  lemma SoakedIsNotGated(w: World, s: nat, kind: GateKind)
    requires w.HasStage(s) && w.ro.stages[s].state.StSoaking?
    ensures OpenGate(w, s, kind) ==
            PutStage(w, s, w.ro.stages[s].(pendingGate := w.nextId, pendingGateKind := kind))
            .(nextId := w.nextId + 1, halted := true)
  {
  }

  /** At a manual gate a soaking stage halts the controller and goes on soaking; at an automatic one nothing halts. */
  lemma SoakedCompletes(w: World, s: nat, now: int)
    requires w.HasStage(s) && w.ro.stages[s].state.StSoaking? && w.ro.state.AdmitsDispatch() && !w.halted
    ensures var r := CompleteStage(w, s, now, false);
            && (Halt(r).halted <==> StopsAtManualGate(w.ro.stages[s], now, w.cfg))
            && (StopsAtManualGate(w.ro.stages[s], now, w.cfg) ==>
                  && r.w.ro.cursor == w.ro.cursor && |r.w.ro.stages| == |w.ro.stages|
                  && r.w.ro.stages[s].state.StSoaking?)
  {
    hide EvidenceGateOpen, AdvanceGateOpen, PassGates, FailStage, OpenGate;
    SoakedPasses(w, s);
    SoakedFails(w, s);
    SoakedIsNotGated(w, s, EvidenceGate);
    SoakedIsNotGated(w, s, AdvanceGate);
  }

  /**
   * A tick of a stage that has soaked long enough, within its failure budget and with its canary in order, halts
   * the controller if and only if the gate it comes to is shut and manual; the stage is left soaking.
   */
  lemma ManualGateAfterSoakHaltsIff(env: Env, w: World, now: int, accept: nat -> bool)
    requires Enduring(env, w) && !w.halted && w.inbox == [] && w.ro.state.AdmitsDispatch() && SoaksAtCursor(w.ro)
    requires var st := w.ro.stages[w.ro.cursor];
             SoakElapsed(st, now) && Count(st.targets, IsFailed) <= StageBudget(st) && CanaryHolds(st, now, w.cfg)
    ensures var w' := Tick(w, now, accept);
            && (w'.halted <==> StopsAtManualGate(w.ro.stages[w.ro.cursor], now, w.cfg))
            && (w'.halted ==> w'.ro.cursor == w.ro.cursor && SoaksAtCursor(w'.ro))
  {
    hide Enduring;
    var s := w.ro.cursor;
    EnduringIsSolid(env, w);
    SoakingIsSettled(w);
    hide Solid, Settled, StageBudget, CanaryHolds, RunStage, CompleteStage;
    var cleared := PutStage(w, s, w.ro.stages[s].(canaryCleared := true));
    SoakedRuns(w, s, now, accept);
    ClearingChangesNoGate(w, s, now);
    SoakedCompletes(w, s, now);
    SoakedCompletes(cleared, s, now);
    TickIsRunStage(w, s, now, accept);
  }

  /** Such a stage is completed, perhaps after its canary was cleared. */
  lemma SoakedRuns(w: World, s: nat, now: int, accept: nat -> bool)
    requires w.HasStage(s) && Settled(w.ro.stages[s]) && SoakElapsed(w.ro.stages[s], now)
    requires var st := w.ro.stages[s]; Count(st.targets, IsFailed) <= StageBudget(st) && CanaryHolds(st, now, w.cfg)
    ensures var cleared := PutStage(w, s, w.ro.stages[s].(canaryCleared := true));
            || RunStage(w, s, now, accept) == CompleteStage(w, s, now, false)
            || RunStage(w, s, now, accept) == CompleteStage(cleared, s, now, false)
  {
    hide StageBudget, CanaryBatchGood, CanaryExhausted, Proceed, CompleteStage, ExpireAttempts;
    ExpireNothing(w, s, 0, now);
    SoakedProceeds(w, s, now, accept);
    SoakedProceeds(PutStage(w, s, w.ro.stages[s].(canaryCleared := true)), s, now, accept);
  }

  lemma SoakingIsSettled(w: World)
    requires Phased(w.ro) && w.HasStage(w.ro.cursor) && w.ro.stages[w.ro.cursor].state.StSoaking?
    requires BeforeRollback(w.ro.state)
    ensures Settled(w.ro.stages[w.ro.cursor])
  {
    assert AtCursor(w.ro.state, w.ro.stages[w.ro.cursor]);
  }

  lemma ClearingChangesNoGate(w: World, s: nat, now: int)
    requires w.HasStage(s)
    ensures var st := w.ro.stages[s];
            && (Settled(st.(canaryCleared := true)) <==> Settled(st))
            && (StopsAtManualGate(st.(canaryCleared := true), now, w.cfg) <==> StopsAtManualGate(st, now, w.cfg))
  {
  }

  lemma TickIsRunStage(w: World, s: nat, now: int, accept: nat -> bool)
    requires !w.halted && w.inbox == [] && w.ro.state.AdmitsDispatch() && s == w.ro.cursor && w.HasStage(s)
    requires w.ro.stages[s].state.StSoaking?
    ensures Tick(w, now, accept) == Halt(RunStage(w, s, now, accept))
  {
    assert w.(inbox := []) == w;
  }

  // ----- approvals -----

  /** The rollout states from which a stage may complete, be it the last one or not. */
  predicate Approvable(state: RolloutState, last: bool) {
    || state.Running? || state.Gated? || state.Soaking? || state.Advancing?
    || (if last then state.Aborting? else state.Paused?)
  }

  lemma CompletionIsLegalIff(w: World, s: nat)
    requires w.HasStage(s) && s == w.ro.cursor && w.ro.stages[s].state.StGated? && BeforeRollback(w.ro.state)
    ensures var last := s + 1 == |w.ro.stages|;
            && (PassGates(w, s).ok <==> Approvable(w.ro.state, last))
            && PassGates(w, s).w.ro.state ==
               if !Approvable(w.ro.state, last) then w.ro.state else if last then Completed else Advancing
  {
    CompleteIs(w, s);
  }

  lemma CompletionMoves(w: World, s: nat)
    requires w.HasStage(s) && s == w.ro.cursor && w.ro.stages[s].state.StGated?
    ensures var ro := PassGates(w, s).w.ro;
            && ro.cursor == s + 1 && |ro.stages| == |w.ro.stages| && ro.resumeState == w.ro.resumeState
            && ro.stages[s] == w.ro.stages[s].(state := StSucceeded)
  {
    CompleteIs(w, s);
  }

  /** This gate of a stage that waits at it was opened after the stage's work. */
  predicate AwaitsApproval(ro: Rollout, gate: nat) {
    var s := FindGate(ro.stages, gate);
    s < |ro.stages| && ro.stages[s].state.StGated? && !ro.stages[s].pendingGateKind.EntryGate?
  }

  /**
   * Approving an evidence or advance gate always completes its stage. The approval is reported a success if and
   * only if the rollout can go on from the state it is in: a paused one can advance, which ends the pause, but
   * it cannot complete.
   */
  lemma ApprovalSucceedsIff(env: Env, w: World, gate: nat, f: Fence, now: int)
    requires Enduring(env, w) && Fenced(w.ro, f) && AwaitsApproval(w.ro, gate)
    ensures var s, r := FindGate(w.ro.stages, gate), ApproveGate(w, gate, f, now);
            var to := if s + 1 == |w.ro.stages| then Completed else Advancing;
            && s == w.ro.cursor && r.w.ro.cursor == s + 1
            && |r.w.ro.stages| == |w.ro.stages| && r.w.ro.stages[s].state.StSucceeded?
            && r.w.ro.stages[s].pendingGate == 0
            && (r.ok <==> Approvable(w.ro.state, s + 1 == |w.ro.stages|))
            && r.w.ro.state == (if r.ok then to else w.ro.state) && r.w.ro.resumeState == w.ro.resumeState
  {
    hide Enduring;
    var s := FindGate(w.ro.stages, gate);
    EnduringIsSolid(env, w);
    WhereGatesAre(w.ro, s);
    hide Solid, PassGates, EvidenceGateOpen, AdvanceGateOpen;
    var open := PutStage(w, s, w.ro.stages[s].(pendingGate := 0));
    CompletionIsLegalIff(open, s);
    CompletionMoves(open, s);
  }

  predicate LastSucceeded(ro: Rollout) { ro.stages != [] && ro.stages[|ro.stages| - 1].state.StSucceeded? }

  /**
   * Approving the last gate of a paused rollout is refused although the last stage succeeds by it. Resuming then
   * takes the rollout back to the state it was paused in, past its last stage.
   */
  lemma FinalApprovalWhilePaused(env: Env, w: World, gate: nat, f: Fence, now: int)
    requires Enduring(env, w) && Fenced(w.ro, f) && w.ro.state.Paused?
    requires AwaitsApproval(w.ro, gate) && FindGate(w.ro.stages, gate) + 1 == |w.ro.stages|
    ensures var r := ApproveGate(w, gate, f, now);
            var back := Resume(r.w, Fence(None, None));
            && !r.ok && back.ok && LastSucceeded(back.w.ro)
            && back.w.ro.state == w.ro.resumeState && PastTheEnd(back.w.ro)
  {
    hide Enduring, ApproveGate;
    EnduringIsSolid(env, w);
    ApprovalSucceedsIff(env, w, gate, f, now);
    assert Resumable(w.ro);
  }

  predicate PastTheEnd(ro: Rollout) { ro.cursor == |ro.stages| && ro.state.Forward() }

  /** Events no operator causes. */
  predicate Unprompted(ev: Event) { ev.OnEvidence? || ev.OnTick? || ev.OnReconcile? || ev.OnInventory? }

  /** Of a stage only targets and counters of outcomes may differ, and no target has begun to roll back. */
  ghost predicate UnmovedStage(st: Stage, st': Stage) {
    && |st'.targets| == |st.targets|
    && st' == st.(targets := st'.targets, succeededTotal := st'.succeededTotal, failedTotal := st'.failedTotal,
                  cancelledTotal := st'.cancelledTotal, rolledBackTotal := st'.rolledBackTotal,
                  rollbackFailedTotal := st'.rollbackFailedTotal)
    && forall j :: 0 <= j < |st.targets| && st'.targets[j].state.TRollingBack? ==> st.targets[j].state.TRollingBack?
  }

  /** Same generation, state and cursor, same stage states and gates. */
  ghost predicate Unmoved(ro: Rollout, ro': Rollout) {
    && |ro'.stages| == |ro.stages| && ro' == ro.(stages := ro'.stages, outstanding := ro'.outstanding)
    && forall i :: 0 <= i < |ro.stages| ==> UnmovedStage(ro.stages[i], ro'.stages[i])
  }

  lemma UnmovedThen(ro: Rollout, mid: Rollout, ro': Rollout)
    requires Unmoved(ro, mid) && Unmoved(mid, ro')
    ensures Unmoved(ro, ro')
  {
    forall i | 0 <= i < |ro.stages| ensures UnmovedStage(ro.stages[i], ro'.stages[i]) {
      assert UnmovedStage(ro.stages[i], mid.stages[i]) && UnmovedStage(mid.stages[i], ro'.stages[i]);
    }
  }

  predicate UnmovedVerdict(st: Stage, x: Target, v: Verdict) {
    && v.st == st.(succeededTotal := v.st.succeededTotal, failedTotal := v.st.failedTotal,
                   cancelledTotal := v.st.cancelledTotal, rolledBackTotal := v.st.rolledBackTotal,
                   rollbackFailedTotal := v.st.rollbackFailedTotal)
    && (v.x.state.TRollingBack? ==> x.state.TRollingBack?)
  }

  lemma ConcludeMovesNothing(w: World, s: nat, t: nat, id: nat, v: Verdict)
    requires w.HasTarget(s, t) && UnmovedVerdict(w.ro.stages[s], w.ro.stages[s].targets[t], v)
    ensures Unmoved(w.ro, Conclude(w, s, t, id, v).ro) && Conclude(w, s, t, id, v).halted == w.halted
  {
  }

  lemma EvidenceMovesNothing(w: World, rec: Record)
    ensures Unmoved(w.ro, ApplyEvidence(w, rec).ro) && ApplyEvidence(w, rec).halted == w.halted
  {
    var s, id := FindStage(w.ro.stages, rec.stage), rec.attempt;
    if w.HasStage(s) && id in w.at {
      var st, t, seen := w.ro.stages[s], FindTarget(w.ro.stages[s].targets, rec.target), Seen(w, rec);
      if w.HasTarget(s, t) {
        var x, a := st.targets[t], seen.at[id];
        VerdictsMoveNothing(st, x, a, rec);
        ConcludeMovesNothing(seen, s, t, id, CancellationVerdict(st, x, a));
        ConcludeMovesNothing(seen, s, t, id, TerminalVerdict(st, x, a, rec));
        ConcludeMovesNothing(seen, s, t, id, CompensationVerdict(st, x, a, rec));
        VerificationMovesNothing(seen, rec, s, t);
        hide CancellationVerdict, TerminalVerdict, CompensationVerdict, Conclude, ApplyVerification;
      }
    }
  }

  lemma VerificationMovesNothing(w: World, rec: Record, s: nat, t: nat)
    requires w.HasTarget(s, t)
    ensures Unmoved(w.ro, ApplyVerification(w, rec, s, t).ro) && ApplyVerification(w, rec, s, t).halted == w.halted
  {
  }

  lemma TerminalMovesNothing(st: Stage, x: Target, a: Attempt, rec: Record)
    ensures UnmovedVerdict(st, x, TerminalVerdict(st, x, a, rec))
  {
  }

  lemma VerdictsMoveNothing(st: Stage, x: Target, a: Attempt, rec: Record)
    ensures UnmovedVerdict(st, x, CancellationVerdict(st, x, a))
    ensures UnmovedVerdict(st, x, TerminalVerdict(st, x, a, rec))
    ensures UnmovedVerdict(st, x, CompensationVerdict(st, x, a, rec))
    ensures UnmovedVerdict(st, x, ReleaseVerdict(st, x, a))
  {
    TerminalMovesNothing(st, x, a, rec);
    hide TerminalVerdict;
  }

  lemma HealthMovesNothing(st: Stage, rec: Record)
    ensures UnmovedStage(st, HealthIn(st, rec))
  {
  }

  lemma TelemetryMovesNothing(w: World, rec: Record, now: int)
    ensures Unmoved(w.ro, ApplyTelemetry(w, rec, now).ro) && ApplyTelemetry(w, rec, now).halted == w.halted
  {
    forall i | 0 <= i < |w.ro.stages| ensures UnmovedStage(w.ro.stages[i], HealthIn(w.ro.stages[i], rec)) {
      HealthMovesNothing(w.ro.stages[i], rec);
    }
    forall st ensures UnmovedStage(st, st) {
    }
    hide HealthIn, UnmovedStage;
  }

  lemma IngestMovesNothing(w: World, rec: Record, now: int)
    ensures Unmoved(w.ro, Ingest(w, rec, now).ro) && Ingest(w, rec, now).halted == w.halted
  {
    EvidenceMovesNothing(w, rec);
    TelemetryMovesNothing(w, rec, now);
    hide ApplyEvidence, Admit, ApplyTelemetry;
  }

  lemma {:induction false} DrainMovesNothing(w: World, batch: seq<Record>, now: int)
    ensures Unmoved(w.ro, Drain(w, batch, now).ro) && Drain(w, batch, now).halted == w.halted
    decreases |batch|
  {
    if batch != [] {
      var w1 := Ingest(w, batch[0], now);
      IngestMovesNothing(w, batch[0], now);
      DrainMovesNothing(w1, batch[1..], now);
      UnmovedThen(w.ro, w1.ro, Drain(w1, batch[1..], now).ro);
      hide Ingest, Unmoved;
    }
  }

  lemma LostMovesNothing(w: World, s: nat, t: nat, id: nat, state: TargetState, a: Attempt)
    requires w.HasTarget(s, t) && (state.TRollingBack? ==> w.ro.stages[s].targets[t].state.TRollingBack?)
    ensures var st := w.ro.stages[s];
            Unmoved(w.ro, PutStage(w, s, PutTarget(st, t, st.targets[t].(state := state))).(at := w.at[id := a]).ro)
  {
  }

  lemma AnswerMovesNothing(w: World, answer: Answer, now: int)
    ensures Unmoved(w.ro, ReconcileOne(w, answer, now).ro)
  {
    if answer.attempt in w.at {
      var id, a := answer.attempt, w.at[answer.attempt];
      var s := FindStage(w.ro.stages, a.stage);
      var rec := ReconciledRecord(id, a, answer.fate, now);
      EvidenceMovesNothing(w, rec);
      if w.HasStage(s) && w.HasTarget(s, FindTarget(w.ro.stages[s].targets, a.target)) {
        var st, t := w.ro.stages[s], FindTarget(w.ro.stages[s].targets, a.target);
        var x := st.targets[t];
        var state := if x.state.Dispatched? then Unknown else x.state;
        VerdictsMoveNothing(st, x, a, rec);
        ConcludeMovesNothing(w, s, t, id, ReleaseVerdict(st, x, a));
        LostMovesNothing(w, s, t, id, state, a.(state := Unknown));
        hide Conclude, ReleaseVerdict, ReconciledRecord, UnmovedVerdict, UnmovedStage, PutStage, PutTarget;
      }
    }
    hide ApplyEvidence, Admit, FindStage, FindTarget;
    assert Unmoved(w.ro, w.ro);
  }

  lemma {:induction false} ReconcileMovesNothing(w: World, answers: seq<Answer>, now: int)
    ensures Unmoved(w.ro, Reconcile(w, answers, now).ro)
    decreases |answers|
  {
    if answers != [] {
      var w1 := ReconcileOne(w, answers[0], now);
      AnswerMovesNothing(w, answers[0], now);
      ReconcileMovesNothing(w1, answers[1..], now);
      UnmovedThen(w.ro, w1.ro, Reconcile(w1, answers[1..], now).ro);
      hide ReconcileOne, Unmoved;
    }
  }

  /** Only operators move a rollout that admits no work and is not being rolled back. */
  lemma {:induction false} OnlyOperatorsMove(env: Env, w: World, events: seq<Event>, w': World)
    requires !w.ro.state.AdmitsDispatch() && !w.ro.state.RollingBack?
    requires Happens(env, w, events, w') && forall k :: 0 <= k < |events| ==> Unprompted(events[k])
    ensures Unmoved(w.ro, w'.ro)
    decreases |events|
  {
    hide Allowed, Drain, ReconcileOne;
    if events != [] {
      DrainMovesNothing(w.(inbox := []), w.inbox, if events[0].OnTick? then events[0].now else 0);
      if events[0].OnReconcile? {
        ReconcileMovesNothing(w, events[0].answers, events[0].now);
      }
      OnlyOperatorsMove(env, Step(w, events[0]), events[1..], w');
    }
  }

  /** Past its last stage a rollout is completed by the next tick if and only if it admits work. */
  lemma PastTheEndCompletesIff(w: World, now: int, accept: nat -> bool)
    requires PastTheEnd(w.ro) && !w.halted
    ensures Tick(w, now, accept).ro.state.Completed? <==> w.ro.state.AdmitsDispatch()
  {
    hide Drain;
    DrainMovesNothing(w.(inbox := []), w.inbox, now);
  }

  // ----- why the executor must be honest about identity -----

  /**
   * A terminal report on a live attempt nobody cancelled, naming a target that is not being rolled back,
   * keeps the books balanced if and only if it names the attempt's own stage and target.
   */
  lemma BooksNeedIdentity(env: Env, w: World, rec: Record, now: int)
    requires Inv(env, w) && Admit(w, rec, now).Accepted? && Current(w, rec.attempt) && rec in env.heard
    requires IsTerminalReport(rec.kind) && w.at[rec.attempt].cancelledEpoch == 0
    requires var s := FindStage(w.ro.stages, rec.stage);
             !w.ro.stages[s].targets[FindTarget(w.ro.stages[s].targets, rec.target)].state.TRollingBack?
    ensures Balanced(ApplyEvidence(w, rec)) <==>
            w.at[rec.attempt].stage == rec.stage && w.at[rec.attempt].target == rec.target
  {
    var a := w.at[rec.attempt];
    if a.stage == rec.stage && a.target == rec.target {
      EvidenceGoes(env, w, rec, now);
    } else {
      MisdirectedUnbalances(env, w, rec, now);
    }
  }

  lemma MisdirectedUnbalances(env: Env, w: World, rec: Record, now: int)
    requires Inv(env, w) && Admit(w, rec, now).Accepted? && Current(w, rec.attempt)
    requires IsTerminalReport(rec.kind) && w.at[rec.attempt].cancelledEpoch == 0
    requires w.at[rec.attempt].stage != rec.stage || w.at[rec.attempt].target != rec.target
    requires var s := FindStage(w.ro.stages, rec.stage);
             !w.ro.stages[s].targets[FindTarget(w.ro.stages[s].targets, rec.target)].state.TRollingBack?
    ensures !Balanced(ApplyEvidence(w, rec))
  {
    var s := FindStage(w.ro.stages, rec.stage);
    var t := FindTarget(w.ro.stages[s].targets, rec.target);
    var w', id := ApplyEvidence(w, rec), rec.attempt;
    assert TargetOk(w, s, t);
    assert w.ro.stages[s].targets[t].currentAttempt != id;
    ApplyFinishing(w, rec, s, t);
    assert w'.at[id].completed && !w'.at[id].Finished();
    assert Current(w', id) && !AttemptOk(w'.ro, id, w'.at[id]);
  }

  /** Compensation evidence moves a target legally exactly when it is being rolled back, or has more steps to go. */
  lemma CompensationIsLegalIff(st: Stage, x: Target, a: Attempt, rec: Record)
    requires IsChanging(x)
    ensures Lawful(x, CompensationVerdict(st, x, a, rec).x) <==>
            x.state.TRollingBack? || (rec.outcome.OutSucceeded? && x.rollbackStep + 1 < |st.policy.compensation|)
  {
  }
}
