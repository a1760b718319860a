/** Admitted evidence, reconciliation, deadlines and single dispatches are runs of steps. */
module Evidence {
  import opened Lifecycle
  import opened Rollouts
  import opened Gates
  import opened Dispatch
  import opened Machine
  import opened Books
  import opened Steps
  import opened Shape
  import opened Invariance
  import opened History
  import Accounting

  /** A run of steps from one world in order to another. */
  ghost predicate Goes(env: Env, w: World, w': World) {
    Inv(env, w) && Leads(env, w, w') && Inv(env, w')
  }

  lemma GoNowhere(env: Env, w: World)
    requires Inv(env, w)
    ensures Goes(env, w, w)
  {
    LeadsNowhere(env, w);
  }

  lemma GoOne(env: Env, w: World, act: Act)
    requires Inv(env, w) && Enabled(env, w, act)
    ensures Goes(env, w, Do(env, w, act))
  {
    LeadsOne(env, w, act);
    StepKeepsInv(env, w, act);
  }

  lemma GoThen(env: Env, w: World, mid: World, w': World)
    requires Goes(env, w, mid) && Goes(env, mid, w')
    ensures Goes(env, w, w')
  {
    LeadsThen(env, w, mid, w');
  }

  lemma GoHonest(env: Env, w: World, w': World, rec: Record)
    requires Goes(env, w, w') && Honest(env, w, rec)
    ensures Honest(env, w', rec)
  {
    var acts :| Runs(env, w, acts, w');
    RunKeepsHonest(env, w, acts, w', rec);
  }

  // ----- evidence -----

  /** Admission of an honest report establishes that its attempt is the live one of the target it names. */
  lemma AdmittedIsLive(env: Env, w: World, rec: Record, now: int, s: nat, t: nat)
    requires Balanced(w) && Honest(env, w, rec) && Admit(w, rec, now).Accepted?
    requires s == FindStage(w.ro.stages, rec.stage) && w.HasStage(s)
    requires t == FindTarget(w.ro.stages[s].targets, rec.target) && w.HasTarget(s, t)
    ensures LiveOn(w, rec.attempt, s, t)
    ensures CanSee(w, rec.attempt, rec.sequence)
    ensures rec.rollout == w.ro.id && rec.generation == w.ro.generation && rec.epoch == w.at[rec.attempt].epoch
  {
  }

  /** After the report's sequence is noted, it finishes the attempt. */
  lemma SeeThenFinish(env: Env, w: World, rec: Record, s: nat, t: nat, cause: Cause)
    requires Inv(env, w) && CanSee(w, rec.attempt, rec.sequence)
    requires CanFinish(env, DoSee(w, rec.attempt, rec.sequence), s, t, rec.attempt, cause)
    ensures Goes(env, w, DoFinish(DoSee(w, rec.attempt, rec.sequence), s, t, rec.attempt, cause))
  {
    var id := rec.attempt;
    var seen := DoSee(w, id, rec.sequence);
    GoOne(env, w, See(id, rec.sequence));
    assert Do(env, w, See(id, rec.sequence)) == seen;
    GoOne(env, seen, Finish(s, t, id, cause));
    assert Do(env, seen, Finish(s, t, id, cause)) == DoFinish(seen, s, t, id, cause);
    GoThen(env, w, seen, DoFinish(seen, s, t, id, cause));
  }

  lemma SeenIsLive(w: World, rec: Record, s: nat, t: nat)
    requires LiveOn(w, rec.attempt, s, t)
    ensures LiveOn(DoSee(w, rec.attempt, rec.sequence), rec.attempt, s, t)
  {
  }

  lemma VerificationGoes(env: Env, w: World, rec: Record, s: nat, t: nat)
    requires Inv(env, w) && w.HasTarget(s, t)
    ensures Goes(env, w, ApplyVerification(w, rec, s, t))
  {
    var w' := ApplyVerification(w, rec, s, t);
    GoOne(env, w, Observe(w'.ro.stages));
    assert Do(env, w, Observe(w'.ro.stages)) == w';
  }

  /** The cause by which a terminal class of evidence finishes an attempt. */
  function CauseOf(rec: Record, x: Target): Cause {
    match ClassOf(rec.kind)
    case Cancellation => ByCancel
    case Compensation => ByCompensation(rec)
    case _ => if x.state.TRollingBack? then ByCompensation(rec) else ByReport(rec)
  }

  predicate Finishing(rec: Record) {
    ClassOf(rec.kind).Cancellation? || ClassOf(rec.kind).Compensation? || IsTerminalReport(rec.kind)
  }

  lemma ApplyFinishing(w: World, rec: Record, s: nat, t: nat)
    requires Finishing(rec) && rec.attempt in w.at
    requires s == FindStage(w.ro.stages, rec.stage) && w.HasStage(s)
    requires t == FindTarget(w.ro.stages[s].targets, rec.target) && w.HasTarget(s, t)
    ensures var seen := DoSee(w, rec.attempt, rec.sequence);
            ApplyEvidence(w, rec) == DoFinish(seen, s, t, rec.attempt, CauseOf(rec, w.ro.stages[s].targets[t]))
  {
    var seen := DoSee(w, rec.attempt, rec.sequence);
    assert seen == Seen(w, rec);
    match ClassOf(rec.kind)
    case Cancellation =>
    case Compensation =>
    case _ =>
  }

  lemma CauseIsAllowed(env: Env, w: World, rec: Record, s: nat, t: nat)
    requires LiveOn(w, rec.attempt, s, t) && Finishing(rec) && Honest(env, w, rec)
    requires rec.rollout == w.ro.id && rec.generation == w.ro.generation && rec.epoch == w.at[rec.attempt].epoch
    ensures CanFinish(env, DoSee(w, rec.attempt, rec.sequence), s, t, rec.attempt,
                      CauseOf(rec, w.ro.stages[s].targets[t]))
  {
    SeenIsLive(w, rec, s, t);
  }

  lemma EvidenceGoes(env: Env, w: World, rec: Record, now: int)
    requires Inv(env, w) && Honest(env, w, rec) && Admit(w, rec, now).Accepted? && !ClassOf(rec.kind).Telemetry?
    ensures Goes(env, w, ApplyEvidence(w, rec))
  {
    var s := FindStage(w.ro.stages, rec.stage);
    var t := FindTarget(w.ro.stages[s].targets, rec.target);
    AdmittedIsLive(env, w, rec, now, s, t);
    if Finishing(rec) {
      CauseIsAllowed(env, w, rec, s, t);
      ApplyFinishing(w, rec, s, t);
      SeeThenFinish(env, w, rec, s, t, CauseOf(rec, w.ro.stages[s].targets[t]));
    } else {
      OtherEvidenceGoes(env, w, rec, s, t);
    }
  }

  lemma OtherEvidenceGoes(env: Env, w: World, rec: Record, s: nat, t: nat)
    requires Inv(env, w) && !Finishing(rec) && CanSee(w, rec.attempt, rec.sequence)
    requires s == FindStage(w.ro.stages, rec.stage) && w.HasStage(s)
    requires t == FindTarget(w.ro.stages[s].targets, rec.target) && w.HasTarget(s, t)
    ensures Goes(env, w, ApplyEvidence(w, rec))
  {
    hide Inv;
    var seen := DoSee(w, rec.attempt, rec.sequence);
    GoOne(env, w, See(rec.attempt, rec.sequence));
    assert Do(env, w, See(rec.attempt, rec.sequence)) == seen == Seen(w, rec);
    if ClassOf(rec.kind).Verification? {
      VerificationGoes(env, seen, rec, s, t);
      GoThen(env, w, seen, ApplyVerification(seen, rec, s, t));
    }
  }

  lemma HealthIsObserved(st: Stage, rec: Record)
    ensures ObservedOnly(st, HealthIn(st, rec))
  {
  }

  lemma TelemetryGoes(env: Env, w: World, rec: Record, now: int)
    requires Inv(env, w)
    ensures Goes(env, w, ApplyTelemetry(w, rec, now))
  {
    var w' := ApplyTelemetry(w, rec, now);
    if Fresh(rec.observedAt, now, w.cfg.defaultMaxAge, w.cfg.maxFutureSkew) {
      forall i | 0 <= i < |w.ro.stages| ensures ObservedOnly(w.ro.stages[i], w'.ro.stages[i]) {
        HealthIsObserved(w.ro.stages[i], rec);
      }
      GoOne(env, w, Observe(w'.ro.stages));
      assert Do(env, w, Observe(w'.ro.stages)) == w';
    } else {
      GoNowhere(env, w);
    }
  }

  lemma IngestGoes(env: Env, w: World, rec: Record, now: int)
    requires Inv(env, w) && Honest(env, w, rec)
    ensures Goes(env, w, Ingest(w, rec, now))
  {
    if ClassOf(rec.kind).Telemetry? {
      TelemetryGoes(env, w, rec, now);
    } else if Admit(w, rec, now).Accepted? {
      EvidenceGoes(env, w, rec, now);
    } else {
      GoNowhere(env, w);
    }
  }

  lemma {:induction false} DrainGoes(env: Env, w: World, batch: seq<Record>, now: int)
    requires Inv(env, w) && (forall k :: 0 <= k < |batch| ==> Honest(env, w, batch[k]))
    ensures Goes(env, w, Drain(w, batch, now))
    decreases |batch|
  {
    if batch == [] {
      GoNowhere(env, w);
    } else {
      var w1 := Ingest(w, batch[0], now);
      IngestGoes(env, w, batch[0], now);
      forall k | 0 <= k < |batch[1..]| ensures Honest(env, w1, batch[1..][k]) {
        GoHonest(env, w, w1, batch[k + 1]);
      }
      DrainGoes(env, w1, batch[1..], now);
      GoThen(env, w, w1, Drain(w1, batch[1..], now));
    }
  }

  // ----- reconciliation -----

  /** The executor answers about attempts it was asked about: unfinished ones of this generation. */
  ghost predicate AnswerOk(env: Env, w: World, answer: Answer, now: int) {
    && Current(w, answer.attempt) && !w.at[answer.attempt].Finished()
    && (answer.fate.FateNotStarted? ==> env.releases)
    && (answer.fate.FateCompleted? || answer.fate.FateFailed? ==>
          ReconciledRecord(answer.attempt, w.at[answer.attempt], answer.fate, now) in env.heard)
  }

  ghost predicate AnswersOk(env: Env, w: World, answers: seq<Answer>, now: int) {
    && (forall k :: 0 <= k < |answers| ==> AnswerOk(env, w, answers[k], now))
    && (forall j, k :: 0 <= j < k < |answers| ==> answers[j].attempt != answers[k].attempt)
  }

  lemma LiveIsHoused(w: World, id: nat) returns (s: nat, t: nat)
    requires Balanced(w) && Current(w, id) && !w.at[id].Finished()
    ensures LiveOn(w, id, s, t)
    ensures s == FindStage(w.ro.stages, w.at[id].stage) && t == FindTarget(w.ro.stages[s].targets, w.at[id].target)
  {
    assert AttemptOk(w.ro, id, w.at[id]);
    s, t :| Names(w.ro, w.at[id], s, t);
    FindNames(w, s, t);
  }

  lemma ReconcileOneGoes(env: Env, w: World, answer: Answer, now: int)
    requires Inv(env, w) && AnswerOk(env, w, answer, now)
    ensures Goes(env, w, ReconcileOne(w, answer, now))
  {
    hide Balanced, Phased, Sane, Limited, Capped, HonestInbox;
    var id := answer.attempt;
    var s, t := LiveIsHoused(w, id);
    match answer.fate
    case FateCompleted | FateFailed =>
      ReconcileReportGoes(env, w, answer, now);
    case FateNotStarted =>
      GoOne(env, w, Finish(s, t, id, ByRelease));
      assert Do(env, w, Finish(s, t, id, ByRelease)) == DoFinish(w, s, t, id, ByRelease);
    case FateInProgress =>
      GoNowhere(env, w);
    case FateUnknown =>
      GoOne(env, w, Lose(s, t, id));
      assert Do(env, w, Lose(s, t, id)) == DoLose(w, s, t, id);
  }

  lemma ReconcileReportGoes(env: Env, w: World, answer: Answer, now: int)
    requires Inv(env, w) && AnswerOk(env, w, answer, now) && (answer.fate.FateCompleted? || answer.fate.FateFailed?)
    ensures var rec := ReconciledRecord(answer.attempt, w.at[answer.attempt], answer.fate, now);
            Goes(env, w, if Admit(w, rec, now).Accepted? then ApplyEvidence(w, rec) else w)
  {
    var rec := ReconciledRecord(answer.attempt, w.at[answer.attempt], answer.fate, now);
    if Admit(w, rec, now).Accepted? {
      EvidenceGoes(env, w, rec, now);
    } else {
      GoNowhere(env, w);
    }
  }

  /** An answer about one attempt leaves every other attempt as it was. */
  lemma ReconcileOneIsLocal(w: World, answer: Answer, now: int, id: nat)
    requires id != answer.attempt && id in w.at
    ensures var w' := ReconcileOne(w, answer, now);
            id in w'.at && w'.at[id] == w.at[id] && w'.ro.generation == w.ro.generation
  {
    if answer.attempt in w.at {
      EvidenceIsLocal(w, ReconciledRecord(answer.attempt, w.at[answer.attempt], answer.fate, now), id);
    }
  }

  lemma EvidenceIsLocal(w: World, rec: Record, id: nat)
    requires id != rec.attempt && id in w.at
    ensures var w' := ApplyEvidence(w, rec);
            id in w'.at && w'.at[id] == w.at[id] && w'.ro.generation == w.ro.generation
  {
  }

  lemma {:induction false} ReconcileGoes(env: Env, w: World, answers: seq<Answer>, now: int)
    requires Inv(env, w) && AnswersOk(env, w, answers, now)
    ensures Goes(env, w, Reconcile(w, answers, now))
    decreases |answers|
  {
    hide Inv;
    if answers == [] {
      GoNowhere(env, w);
    } else {
      var w1, rest := ReconcileOne(w, answers[0], now), answers[1..];
      ReconcileOneGoes(env, w, answers[0], now);
      forall k | 0 <= k < |rest| ensures AnswerOk(env, w1, rest[k], now) {
        assert AnswerOk(env, w, answers[k + 1], now);
        ReconcileOneIsLocal(w, answers[0], now, rest[k].attempt);
      }
      ReconcileGoes(env, w1, rest, now);
      GoThen(env, w, w1, Reconcile(w1, rest, now));
    }
  }

  // ----- deadlines -----

  lemma ExpireTargetGoes(env: Env, w: World, s: nat, t: nat, now: int)
    requires Inv(env, w) && w.HasTarget(s, t) && s == w.ro.cursor && w.ro.state.AdmitsDispatch()
    ensures Goes(env, w, ExpireTarget(w, s, t, now))
  {
    var x := w.ro.stages[s].targets[t];
    if Overdue(w, x, now) {
      var id := x.currentAttempt;
      Accounting.BusyIsLive(w, s, t);
      GoOne(env, w, Finish(s, t, id, ByDeadline(now)));
      assert Do(env, w, Finish(s, t, id, ByDeadline(now))) == DoFinish(w, s, t, id, ByDeadline(now));
    } else {
      GoNowhere(env, w);
    }
  }

  lemma {:induction false} ExpireAttemptsGoes(env: Env, w: World, s: nat, t: nat, now: int)
    requires Inv(env, w) && w.HasStage(s) && t <= |w.ro.stages[s].targets|
    requires s == w.ro.cursor && w.ro.state.AdmitsDispatch()
    ensures Goes(env, w, ExpireAttempts(w, s, t, now))
    decreases |w.ro.stages[s].targets| - t
  {
    if t == |w.ro.stages[s].targets| {
      GoNowhere(env, w);
    } else {
      var w1 := ExpireTarget(w, s, t, now);
      ExpireTargetGoes(env, w, s, t, now);
      ExpireAttemptsGoes(env, w1, s, t + 1, now);
      GoThen(env, w, w1, ExpireAttempts(w1, s, t + 1, now));
    }
  }

  // ----- one dispatch -----

  /** Trimming only drops finished attempts. */
  lemma {:induction false} TrimDropsFinished(at: map<nat, Attempt>, order: seq<nat>, bound: nat)
    ensures var at' := Trim(at, order, bound).0;
            && (forall id :: id in at' ==> id in at && at'[id] == at[id])
            && (forall id :: id in at && !at[id].Finished() ==> id in at')
    decreases |order|
  {
    if |order| > bound && order[0] in at && at[order[0]].Finished() {
      TrimDropsFinished(at - {order[0]}, order[1..], bound);
    }
  }

  /** The world after an accepted dispatch is the one before trimming, with a trimmed table. */
  lemma TrimmedIs(w: World, s: nat, t: nat, step: nat, now: int, accept: nat -> bool)
    requires w.HasTarget(s, t) && w.cfg.hasExecution && accept(w.nextId) && w.nextId !in w.at
    ensures var sent := DoSend(w, s, t, step, now);
            var (at, order) := Trim(sent.at, w.order + [w.nextId], 2 * w.cfg.maxConcurrentAttempts + 1);
            CreateAndDispatch(w, s, t, step, w.ro.stages[s].targets[t].epoch + 1, now, accept) ==
            sent.(at := at, order := order)
  {
  }

  lemma TrimmingIsElsewhere(w: World, order: seq<nat>, bound: nat)
    requires forall id :: id in w.at ==> 0 < id < w.nextId && w.at[id].generation < w.nextId
    ensures var (at', order') := Trim(w.at, order, bound);
            OthersOnly(w, w.(at := at', order := order'))
  {
    TrimDropsFinished(w.at, order, bound);
  }

  lemma SentThenTrimmed(w: World, s: nat, t: nat, step: nat, now: int, accept: nat -> bool)
    requires WellFormed(w) && w.HasTarget(s, t) && w.cfg.hasExecution && accept(w.nextId)
    ensures var w' := CreateAndDispatch(w, s, t, step, w.ro.stages[s].targets[t].epoch + 1, now, accept);
            OthersOnly(DoSend(w, s, t, step, now), w') && w'.inbox == w.inbox
  {
    TrimmedIs(w, s, t, step, now, accept);
    TrimmingIsElsewhere(DoSend(w, s, t, step, now), w.order + [w.nextId], 2 * w.cfg.maxConcurrentAttempts + 1);
  }

  lemma SendGoes(env: Env, w: World, s: nat, t: nat, step: nat, now: int, accept: nat -> bool)
    requires Inv(env, w) && CanSend(w, s, t, step) && w.cfg.hasExecution && accept(w.nextId)
    ensures Goes(env, w, CreateAndDispatch(w, s, t, step, w.ro.stages[s].targets[t].epoch + 1, now, accept))
  {
    var sent := DoSend(w, s, t, step, now);
    var w' := CreateAndDispatch(w, s, t, step, w.ro.stages[s].targets[t].epoch + 1, now, accept);
    GoOne(env, w, Send(s, t, step, now));
    assert Do(env, w, Send(s, t, step, now)) == sent;
    SentThenTrimmed(w, s, t, step, now, accept);
    GoOne(env, sent, Others(w'));
    assert Do(env, sent, Others(w')) == w';
    GoThen(env, w, sent, w');
  }

  lemma CreateAndDispatchGoes(env: Env, w: World, s: nat, t: nat, step: nat, now: int, accept: nat -> bool)
    requires Inv(env, w) && CanSend(w, s, t, step)
    ensures Goes(env, w, CreateAndDispatch(w, s, t, step, w.ro.stages[s].targets[t].epoch + 1, now, accept))
  {
    if !w.cfg.hasExecution {
      GoNowhere(env, w);
    } else if accept(w.nextId) {
      SendGoes(env, w, s, t, step, now, accept);
    } else {
      GoOne(env, w, Refuse(s, t, now));
      assert Do(env, w, Refuse(s, t, now)) == DoRefuse(w, s, t, now);
    }
  }
}
