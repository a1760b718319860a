/** A controller that takes over from a snapshot: what survives a restart, and what holds through any number of them. */
module Restart {
  import opened Lifecycle
  import opened Rollouts
  import opened Dispatch
  import opened Machine
  import opened Books
  import opened Steps
  import opened Shape
  import opened Invariance
  import opened History
  import opened Moves
  import opened Recovery
  import opened Evidence
  import opened Reachable
  import Accounting
  import Gates

  predicate Before(i: int, j: int, s: int, t: int) { i < s || (i == s && j < t) }

  /** Nothing but targets, attempts and the outstanding count is touched. */
  ghost predicate SameFrame(w0: World, w: World) {
    && w.nextId == w0.nextId && w.inbox == w0.inbox && |w.ro.stages| == |w0.ro.stages|
    && w.ro == w0.ro.(stages := w.ro.stages, outstanding := w.ro.outstanding)
    && (forall i :: 0 <= i < |w0.ro.stages| ==>
          && |w.ro.stages[i].targets| == |w0.ro.stages[i].targets|
          && w.ro.stages[i] == w0.ro.stages[i].(targets := w.ro.stages[i].targets))
  }

  ghost predicate TargetsDone(w0: World, w: World, s: nat, t: nat) {
    && SameFrame(w0, w)
    && (forall i, j :: InRange(w0.ro, i, j) ==>
          w.ro.stages[i].targets[j] ==
          if Before(i, j, s, t) then RestoredTarget(w0.ro.stages[i], w0.ro.stages[i].targets[j])
          else w0.ro.stages[i].targets[j])
  }

  ghost predicate RebuiltAt(w0: World, at: map<nat, Attempt>, i: int, j: int, previous: nat)
    requires InRange(w0.ro, i, j)
  {
    var st, x := w0.ro.stages[i], w0.ro.stages[i].targets[j];
    Reborn(st, x) ==> x.currentAttempt in at && at[x.currentAttempt] == RebuiltAttempt(w0.ro, previous, st, x)
  }

  ghost predicate AttemptsDone(w0: World, w: World, s: nat, t: nat, previous: nat)
    requires SameFrame(w0, w)
  {
    && (forall id :: id in w.at ==> !w.at[id].Finished() && w.at[id].generation == w.ro.generation)
    && (forall id, i: nat, j: nat :: id in w.at && Names(w.ro, w.at[id], i, j) ==> Before(i, j, s, t))
    && (forall i, j :: InRange(w0.ro, i, j) && Before(i, j, s, t) ==> RebuiltAt(w0, w.at, i, j, previous))
  }

  /** Targets up to `t` of stage `s` are done, and the books balance already. */
  ghost predicate Progress(w0: World, w: World, s: nat, t: nat, previous: nat) {
    TargetsDone(w0, w, s, t) && AttemptsDone(w0, w, s, t, previous) && Balanced(w)
  }

  // ----- one target -----

  lemma SoleSame(ro: Rollout, i: int, j: int, k: int, l: int)
    requires Sole(ro) && InRange(ro, i, j) && InRange(ro, k, l)
    requires CurrentOf(ro, i, j) == CurrentOf(ro, k, l) != 0
    ensures i == k && j == l && ro.stages[i].targets[j].epoch >= 1
  {
  }

  lemma NotYet(w0: World, w: World, s: nat, t: nat, previous: nat)
    requires Progress(w0, w, s, t, previous) && w.HasTarget(s, t)
    ensures w.ro.stages[s].targets[t].currentAttempt !in w.at
  {
    assert TargetOk(w, s, t);
  }

  /** While nothing in the table has finished, filing an attempt drops none. */
  lemma NothingTrimmed(w: World, id: nat, a: Attempt)
    requires !a.Finished() && forall k :: k in w.at ==> !w.at[k].Finished()
    ensures NoteAttempt(w, id, a) == w.(at := w.at[id := a], order := NoteAttempt(w, id, a).order)
  {
  }

  lemma RebuildBooks(w: World, w': World, s: nat, t: nat, previous: nat)
    requires Balanced(w) && w.HasTarget(s, t)
    requires var st, x := w.ro.stages[s], w.ro.stages[s].targets[t];
             && x.currentAttempt != 0 && x.currentAttempt !in w.at && x.state.Changing() && x.epoch >= 1
             && w'.at == w.at[x.currentAttempt := RebuiltAttempt(w.ro, previous, st, x)]
             && (forall k, l :: InRange(w.ro, k, l) && CurrentOf(w.ro, k, l) == x.currentAttempt ==> k == s && l == t)
    requires w'.ro == w.ro.(outstanding := w.ro.outstanding + 1) && w'.nextId == w.nextId
    ensures Balanced(w')
  {
    var st, x := w.ro.stages[s], w.ro.stages[s].targets[t];
    var id, a := x.currentAttempt, RebuiltAttempt(w.ro, previous, st, x);
    assert TargetOk(w, s, t);
    WellFormedKept(w, w');
    assert LiveSet(w') == LiveSet(w) + {id};
    assert Names(w'.ro, a, s, t);
    forall i: nat, j: nat | Names(w'.ro, a, i, j) ensures Tied(w'.ro.stages[i].targets[j], id, a) {
      NamesUnique(w, a, s, t, i, j);
    }
    forall k | Current(w', k) && k != id ensures AttemptOk(w'.ro, k, w'.at[k]) {
      assert Current(w, k) && AttemptOk(w.ro, k, w.at[k]);
      AttemptKept(w.ro, w'.ro, k, w.at[k], w'.at[k]);
    }
    forall i: nat, j: nat | w'.HasTarget(i, j) ensures TargetOk(w', i, j) {
      assert TargetOk(w, i, j);
      assert CurrentOf(w.ro, i, j) == id ==> i == s && j == t;
    }
  }

  lemma RebornSteps(w0: World, w: World, s: nat, t: nat, previous: nat)
    requires Progress(w0, w, s, t, previous) && Sole(w0.ro) && w.HasTarget(s, t)
    requires Reborn(w.ro.stages[s], w.ro.stages[s].targets[t])
    ensures Progress(w0, RestoreTarget(w, s, t, previous), s, t + 1, previous)
  {
    var st, x, w' := w.ro.stages[s], w.ro.stages[s].targets[t], RestoreTarget(w, s, t, previous);
    NotYet(w0, w, s, t, previous);
    NothingTrimmed(w, x.currentAttempt, RebuiltAttempt(w.ro, previous, st, x));
    SoleSame(w0.ro, s, t, s, t);
    forall k, l | InRange(w.ro, k, l) && CurrentOf(w.ro, k, l) == x.currentAttempt ensures k == s && l == t {
      SoleSame(w0.ro, k, l, s, t);
    }
    hide Sole;
    RebuildBooks(w, w', s, t, previous);
    hide Balanced, NoteAttempt;
    RebornTargets(w0, w, w', s, t);
    RebornNames(w0, w, w', s, t, previous);
    RebornRebuilt(w0, w, w', s, t, previous);
  }

  /** The table after target `t` of stage `s` was filed. */
  ghost predicate Filed(w: World, w': World, s: nat, t: nat, previous: nat)
    requires w.HasTarget(s, t)
  {
    var st, x := w.ro.stages[s], w.ro.stages[s].targets[t];
    && Reborn(st, x) && x.currentAttempt !in w.at
    && w'.at == w.at[x.currentAttempt := RebuiltAttempt(w.ro, previous, st, x)]
    && w'.ro == w.ro.(outstanding := w.ro.outstanding + 1) && w'.nextId == w.nextId && w'.inbox == w.inbox
  }

  lemma RebornTargets(w0: World, w: World, w': World, s: nat, t: nat)
    requires TargetsDone(w0, w, s, t) && w.HasTarget(s, t) && Reborn(w.ro.stages[s], w.ro.stages[s].targets[t])
    requires w'.ro == w.ro.(outstanding := w'.ro.outstanding) && w'.nextId == w.nextId && w'.inbox == w.inbox
    ensures TargetsDone(w0, w', s, t + 1)
  {
    hide Reborn, NextAction;
    assert w.ro.stages[s].targets[t] == w0.ro.stages[s].targets[t];
    RebornKept(w0.ro.stages[s], w.ro.stages[s], w.ro.stages[s].targets[t]);
  }

  /** Whether an attempt is rebuilt depends on the stage's actions and policy only. */
  lemma RebornKept(st: Stage, st': Stage, x: Target)
    requires st'.actions == st.actions && st'.policy == st.policy
    ensures Reborn(st', x) <==> Reborn(st, x)
  {
  }

  lemma RebornNames(w0: World, w: World, w': World, s: nat, t: nat, previous: nat)
    requires TargetsDone(w0, w, s, t) && AttemptsDone(w0, w, s, t, previous) && WellFormed(w) && w.HasTarget(s, t)
    requires Filed(w, w', s, t, previous)
    ensures forall id :: id in w'.at ==> !w'.at[id].Finished() && w'.at[id].generation == w'.ro.generation
    ensures forall id, i: nat, j: nat :: id in w'.at && Names(w'.ro, w'.at[id], i, j) ==> Before(i, j, s, t + 1)
  {
    hide NextAction, RestoredTarget, RebuiltAt;
    var id := w.ro.stages[s].targets[t].currentAttempt;
    forall k, i: nat, j: nat | k in w'.at && Names(w'.ro, w'.at[k], i, j) ensures Before(i, j, s, t + 1) {
      if k == id {
        NamesUnique(w, w'.at[id], s, t, i, j);
      } else {
        assert Names(w.ro, w.at[k], i, j);
      }
    }
  }

  lemma RebornRebuilt(w0: World, w: World, w': World, s: nat, t: nat, previous: nat)
    requires TargetsDone(w0, w, s, t) && AttemptsDone(w0, w, s, t, previous) && w.HasTarget(s, t)
    requires Filed(w, w', s, t, previous)
    requires forall k, l :: InRange(w.ro, k, l) && CurrentOf(w.ro, k, l) == CurrentOf(w.ro, s, t) ==> k == s && l == t
    ensures forall i, j :: InRange(w0.ro, i, j) && Before(i, j, s, t + 1) ==> RebuiltAt(w0, w'.at, i, j, previous)
  {
    var x := w.ro.stages[s].targets[t];
    assert x == w0.ro.stages[s].targets[t];
    forall i, j | InRange(w0.ro, i, j) && Before(i, j, s, t + 1) ensures RebuiltAt(w0, w'.at, i, j, previous) {
      if !(i == s && j == t) {
        assert RebuiltAt(w0, w.at, i, j, previous);
        if Reborn(w0.ro.stages[i], w0.ro.stages[i].targets[j]) {
          assert CurrentOf(w.ro, i, j) != CurrentOf(w.ro, s, t);
        }
      }
    }
  }

  lemma ClearedSteps(w0: World, w: World, s: nat, t: nat, previous: nat)
    requires Progress(w0, w, s, t, previous) && Sole(w0.ro) && w.HasTarget(s, t)
    requires !Reborn(w.ro.stages[s], w.ro.stages[s].targets[t])
    ensures Progress(w0, RestoreTarget(w, s, t, previous), s, t + 1, previous)
  {
    hide Sole, NextAction;
    var w' := RestoreTarget(w, s, t, previous);
    NotYet(w0, w, s, t, previous);
    Accounting.PutTouches(w, w', s, t, w'.ro.stages[s], w'.ro.stages[s].targets[t]);
    KeepsBooks(w, w');
    hide Balanced;
    ClearedTargets(w0, w, w', s, t);
    hide Reborn;
    ClearedAttempts(w0, w, w', s, t, previous);
  }

  lemma ClearedTargets(w0: World, w: World, w': World, s: nat, t: nat)
    requires TargetsDone(w0, w, s, t) && w.HasTarget(s, t) && !Reborn(w.ro.stages[s], w.ro.stages[s].targets[t])
    requires w' == PutStage(w, s, PutTarget(w.ro.stages[s], t, w.ro.stages[s].targets[t].(currentAttempt := 0)))
    ensures TargetsDone(w0, w', s, t + 1)
  {
    hide Reborn, NextAction;
    assert w.ro.stages[s].targets[t] == w0.ro.stages[s].targets[t];
    RebornKept(w0.ro.stages[s], w.ro.stages[s], w.ro.stages[s].targets[t]);
  }

  lemma ClearedAttempts(w0: World, w: World, w': World, s: nat, t: nat, previous: nat)
    requires TargetsDone(w0, w, s, t) && AttemptsDone(w0, w, s, t, previous) && w.HasTarget(s, t)
    requires TargetsDone(w0, w', s, t + 1) && w'.at == w.at && SameIds(w.ro, w'.ro)
    requires !Reborn(w.ro.stages[s], w.ro.stages[s].targets[t])
    ensures AttemptsDone(w0, w', s, t + 1, previous)
  {
    hide Reborn, NextAction, RestoredTarget;
    assert w.ro.stages[s].targets[t] == w0.ro.stages[s].targets[t];
    RebornKept(w0.ro.stages[s], w.ro.stages[s], w.ro.stages[s].targets[t]);
    forall k, i: nat, j: nat | k in w'.at && Names(w'.ro, w'.at[k], i, j) ensures Before(i, j, s, t + 1) {
      assert Names(w.ro, w.at[k], i, j);
    }
    forall i, j | InRange(w0.ro, i, j) && Before(i, j, s, t + 1) ensures RebuiltAt(w0, w'.at, i, j, previous) {
      if !(i == s && j == t) { assert RebuiltAt(w0, w.at, i, j, previous); }
    }
  }

  // ----- all targets -----

  lemma {:induction false} StageProgress(w0: World, w: World, s: nat, t: nat, previous: nat)
    requires Progress(w0, w, s, t, previous) && Sole(w0.ro) && w.HasStage(s) && t <= |w.ro.stages[s].targets|
    ensures var r := RestoreTargets(w, s, t, previous);
            Progress(w0, r, s, |w0.ro.stages[s].targets|, previous)
    decreases |w.ro.stages[s].targets| - t
  {
    if t < |w.ro.stages[s].targets| {
      if Reborn(w.ro.stages[s], w.ro.stages[s].targets[t]) {
        RebornSteps(w0, w, s, t, previous);
      } else {
        ClearedSteps(w0, w, s, t, previous);
      }
      StageProgress(w0, RestoreTarget(w, s, t, previous), s, t + 1, previous);
    }
  }

  lemma NextStage(w0: World, w: World, s: nat, previous: nat)
    requires s < |w0.ro.stages| && Progress(w0, w, s, |w0.ro.stages[s].targets|, previous)
    ensures Progress(w0, w, s + 1, 0, previous)
  {
  }

  lemma {:induction false} RolloutProgress(w0: World, w: World, s: nat, previous: nat)
    requires s <= |w0.ro.stages| && Progress(w0, w, s, 0, previous) && Sole(w0.ro)
    ensures Progress(w0, RestoreStages(w, s, previous), |w0.ro.stages|, 0, previous)
    decreases |w0.ro.stages| - s
  {
    if s < |w0.ro.stages| {
      StageProgress(w0, w, s, 0, previous);
      NextStage(w0, RestoreTargets(w, s, 0, previous), s, previous);
      RolloutProgress(w0, RestoreTargets(w, s, 0, previous), s + 1, previous);
    }
  }

  // ----- what a restart keeps -----

  /** A controller that holds nothing yet and whose identifiers are fresh. */
  ghost predicate Blank(b: World, w: World) { b.at == map[] && b.inbox == [] && b.nextId >= w.nextId }

  /** A blank controller that has read the snapshot of `w` and rebuilt nothing yet. */
  function Start(b: World, w: World): World { b.(ro := Stored(w.ro).(outstanding := 0)) }

  /** The world a blank controller makes of the snapshot of `w`. */
  function Restored(b: World, w: World, previous: nat): World { RestoreStages(Start(b, w), 0, previous) }

  /** A snapshot before any attempt is rebuilt. */
  lemma SnapshotBalances(w: World, b: World)
    requires Balanced(w) && Blank(b, w)
    ensures Balanced(Start(b, w))
  {
    var w0 := Start(b, w);
    forall i: nat, j: nat | w0.HasTarget(i, j) ensures TargetOk(w0, i, j) {
      assert TargetOk(w, i, j);
    }
    forall i | 0 <= i < |w0.ro.stages| ensures StageOk(w0.ro.stages[i]) {
      assert StageOk(w.ro.stages[i]);
    }
    assert LiveSet(w0) == {};
  }

  lemma SnapshotSole(ro: Rollout)
    requires Sole(ro)
    ensures Sole(Stored(ro).(outstanding := 0))
  {
    var ro' := Stored(ro).(outstanding := 0);
    forall i, j | InRange(ro', i, j)
      ensures InRange(ro, i, j) && CurrentOf(ro, i, j) == CurrentOf(ro', i, j)
      ensures ro'.stages[i].targets[j] == ro.stages[i].targets[j]
    {
    }
  }

  lemma RestoreProgress(w: World, b: World, previous: nat)
    requires Balanced(w) && Sole(w.ro) && Blank(b, w)
    ensures Progress(Start(b, w), Restored(b, w, previous), |w.ro.stages|, 0, previous)
  {
    hide Balanced, Sole, Reborn, RestoredTarget;
    SnapshotBalances(w, b);
    SnapshotSole(w.ro);
    RolloutProgress(Start(b, w), Start(b, w), 0, previous);
  }

  /** One target after the restart: itself, with its attempt rebuilt or forgotten. */
  lemma RestoredAt(w: World, b: World, previous: nat, i: int, j: int)
    requires Balanced(w) && Sole(w.ro) && Blank(b, w) && InRange(w.ro, i, j)
    ensures var r, st, x := Restored(b, w, previous), w.ro.stages[i], w.ro.stages[i].targets[j];
            && InRange(r.ro, i, j) && r.ro.stages[i].targets[j] == RestoredTarget(st, x)
            && (Reborn(st, x) ==>
                   x.currentAttempt in r.at && r.at[x.currentAttempt] == RebuiltAttempt(w.ro, previous, st, x))
  {
    hide Reborn, NextAction, Balanced, Sole;
    RestoreProgress(w, b, previous);
    var w0 := Start(b, w);
    assert RebuiltAt(w0, Restored(b, w, previous).at, i, j, previous);
    RebornKept(w.ro.stages[i], w0.ro.stages[i], w.ro.stages[i].targets[j]);
  }

  /** The books balance after a restart, and everything in the table is in flight. */
  lemma RestoredBalances(w: World, b: World, previous: nat)
    requires Balanced(w) && Sole(w.ro) && Blank(b, w)
    ensures var r := Restored(b, w, previous);
            && Balanced(r) && LiveSet(r) == r.at.Keys && r.ro.outstanding == |r.at|
            && r.nextId == b.nextId && r.inbox == [] && SameFrame(Start(b, w), r)
  {
    RestoreProgress(w, b, previous);
    var r := Restored(b, w, previous);
    assert LiveSet(r) == r.at.Keys;
  }

  /** Every rebuilt attempt comes from a target that is its own. */
  lemma RebuiltFrom(w: World, b: World, previous: nat, id: nat) returns (i: int, j: int)
    requires Balanced(w) && Sole(w.ro) && Blank(b, w) && id in Restored(b, w, previous).at
    ensures InRange(w.ro, i, j) && Reborn(w.ro.stages[i], w.ro.stages[i].targets[j])
    ensures w.ro.stages[i].targets[j].currentAttempt == id
  {
    var r := Restored(b, w, previous);
    RestoredBalances(w, b, previous);
    assert id in LiveSet(r);
    var s, t := LiveIsHoused(r, id);
    Accounting.LiveOnIsCurrent(r, id, s, t);
    assert id != 0;
    i, j := s, t;
    hide Sole, NextAction, Restored;
    assert InRange(r.ro, i, j) && InRange(w.ro, i, j);
    RestoredAt(w, b, previous, i, j);
    hide Balanced;
  }

  /**
   * Every attempt that was in flight is in flight again after a restart, under the same identifier, epoch,
   * generation, stage and target; cancellation requests and sequence numbers are forgotten.
   */
  lemma LiveSurvives(env: Env, w: World, b: World, previous: nat, id: nat)
    requires Restorable(env, w) && Blank(b, w) && id in LiveSet(w)
    ensures var r := Restored(b, w, previous);
            && id in LiveSet(r)
            && var a, a' := w.at[id], r.at[id];
               && a'.generation == a.generation && a'.stage == a.stage && a'.target == a.target && a'.epoch == a.epoch
               && a'.cancelledEpoch == 0 && a'.highestSequence == 0
  {
    var s, t := LiveIsHoused(w, id);
    Accounting.LiveOnIsCurrent(w, id, s, t);
    RestoredAt(w, b, previous, s, t);
    RestoreProgress(w, b, previous);
  }

  /** A target waits for an attempt that has ended, as between two compensation steps. */
  ghost predicate Waits(w: World, i: int, j: int)
    requires InRange(w.ro, i, j)
  {
    Reborn(w.ro.stages[i], w.ro.stages[i].targets[j]) && !Busy(w.at, w.ro.stages[i].targets[j])
  }

  lemma WaitingComesBack(w: World, b: World, previous: nat, i: int, j: int)
    requires Balanced(w) && Sole(w.ro) && Blank(b, w) && InRange(w.ro, i, j) && Waits(w, i, j)
    ensures w.ro.stages[i].targets[j].currentAttempt in LiveSet(Restored(b, w, previous)) - LiveSet(w)
  {
    hide Sole, NextAction, Restored;
    RestoredAt(w, b, previous, i, j);
    RestoredBalances(w, b, previous);
    hide Balanced;
  }

  lemma NewcomerWaited(w: World, b: World, previous: nat, id: nat) returns (i: int, j: int)
    requires Balanced(w) && Sole(w.ro) && Blank(b, w) && id in LiveSet(Restored(b, w, previous)) - LiveSet(w)
    ensures InRange(w.ro, i, j) && Waits(w, i, j)
  {
    i, j := RebuiltFrom(w, b, previous, id);
    assert TargetOk(w, i, j);
    hide Sole, NextAction, Restored;
  }

  /**
   * A restart brings back exactly the attempts in flight if and only if no target is caught between two
   * attempts; otherwise its last, ended attempt comes back to life and is counted as outstanding.
   */
  lemma RestoredLiveIff(env: Env, w: World, b: World, previous: nat)
    requires Restorable(env, w) && Blank(b, w)
    ensures LiveSet(Restored(b, w, previous)) == LiveSet(w) <==>
            forall i, j :: InRange(w.ro, i, j) ==> !Waits(w, i, j)
  {
    hide Balanced, Shaped, HonestInbox, Sole, Actionable, Waits, Restored, LiveSet, Blank;
    var r := Restored(b, w, previous);
    forall id | id in LiveSet(w) ensures id in LiveSet(r) {
      LiveSurvives(env, w, b, previous, id);
    }
    forall i, j | InRange(w.ro, i, j) && Waits(w, i, j)
      ensures w.ro.stages[i].targets[j].currentAttempt in LiveSet(r) - LiveSet(w)
    {
      WaitingComesBack(w, b, previous, i, j);
    }
    if id :| id in LiveSet(r) && id !in LiveSet(w) {
      var i, j := NewcomerWaited(w, b, previous, id);
    } else {
      assert LiveSet(r) == LiveSet(w);
    }
  }

  // ----- forgotten cancellations -----

  /** A report that attempt `id` of this world's rollout completed with success. */
  ghost predicate Succeeds(w: World, id: nat, rec: Record) {
    && id in w.at && rec.attempt == id && rec.kind.ExecutionCompleted? && rec.outcome.OutSucceeded?
    && rec.rollout == w.ro.id && rec.generation == w.ro.generation && rec.epoch == w.at[id].epoch
    && rec.stage == w.at[id].stage && rec.target == w.at[id].target
  }

  /**
   * Without a restart a report of success makes a target in flight succeed exactly when its attempt was not
   * cancelled; after a restart it always does: the cancellation is forgotten.
   */
  lemma CancellationIsForgotten(env: Env, w: World, b: World, previous: nat, id: nat, rec: Record)
    requires Restorable(env, w) && Blank(b, w) && id in LiveSet(w) && Succeeds(w, id, rec)
    requires forall s: nat, t: nat :: Names(w.ro, w.at[id], s, t) ==> !w.ro.stages[s].targets[t].state.TRollingBack?
    ensures var s := FindStage(w.ro.stages, rec.stage);
            w.HasStage(s) &&
            var t := FindTarget(w.ro.stages[s].targets, rec.target);
            var r := Restored(b, w, previous);
            var w', r' := ApplyEvidence(w, rec), ApplyEvidence(r, rec);
            && w'.HasTarget(s, t) && (w'.ro.stages[s].targets[t].state.Succeeded? <==> w.at[id].cancelledEpoch == 0)
            && r'.HasTarget(s, t) && r'.ro.stages[s].targets[t].state.Succeeded?
  {
    var r := Restored(b, w, previous);
    var s, t := LiveIsHoused(w, id);
    Accounting.LiveOnIsCurrent(w, id, s, t);
    LiveSurvives(env, w, b, previous, id);
    SurvivorIsThere(w, b, previous, id, s, t);
    hide Balanced, Shaped, HonestInbox, Sole, Actionable, Restored, LiveSet, Blank;
    SuccessApplies(w, id, rec, s, t);
    SuccessApplies(r, id, rec, s, t);
  }

  /** The rebuilt attempt is found at the same place. */
  lemma SurvivorIsThere(w: World, b: World, previous: nat, id: nat, s: nat, t: nat)
    requires Balanced(w) && Sole(w.ro) && Blank(b, w) && LiveOn(w, id, s, t)
    requires id in Restored(b, w, previous).at
    requires var a := Restored(b, w, previous).at[id]; a.stage == w.at[id].stage && a.target == w.at[id].target
    ensures var r := Restored(b, w, previous);
            && r.HasTarget(s, t) && s == FindStage(r.ro.stages, w.at[id].stage)
            && t == FindTarget(r.ro.stages[s].targets, w.at[id].target)
            && r.ro.stages[s].targets[t].currentAttempt == id
            && r.ro.stages[s].targets[t].state == w.ro.stages[s].targets[t].state
  {
    var r := Restored(b, w, previous);
    RestoredBalances(w, b, previous);
    assert id in LiveSet(r);
    var s', t' := LiveIsHoused(r, id);
    Accounting.LiveOnIsCurrent(r, id, s', t');
    assert InRange(r.ro, s', t') && InRange(w.ro, s', t');
    RestoredAt(w, b, previous, s', t');
    assert Names(w.ro, w.at[id], s', t');
    NamesUnique(w, w.at[id], s, t, s', t');
  }

  lemma SuccessApplies(w: World, id: nat, rec: Record, s: nat, t: nat)
    requires w.HasTarget(s, t) && id in w.at && rec.attempt == id
    requires rec.kind.ExecutionCompleted? && rec.outcome.OutSucceeded?
    requires s == FindStage(w.ro.stages, rec.stage) && t == FindTarget(w.ro.stages[s].targets, rec.target)
    requires w.ro.stages[s].targets[t].currentAttempt == id && !w.ro.stages[s].targets[t].state.TRollingBack?
    ensures var w' := ApplyEvidence(w, rec);
            w'.HasTarget(s, t) && (w'.ro.stages[s].targets[t].state.Succeeded? <==> w.at[id].cancelledEpoch == 0)
  {
  }

  // ----- forgotten verification -----

  lemma StagesRestored(w: World, b: World, previous: nat, i: nat)
    requires Balanced(w) && Sole(w.ro) && Blank(b, w) && w.HasStage(i)
    ensures var r := Restored(b, w, previous);
            && r.HasStage(i) && |r.ro.stages[i].targets| == |w.ro.stages[i].targets|
            && r.ro.stages[i] == w.ro.stages[i].(requireVerification := false, targets := r.ro.stages[i].targets)
            && forall j :: 0 <= j < |w.ro.stages[i].targets| ==>
                 r.ro.stages[i].targets[j] ==
                 w.ro.stages[i].targets[j].(currentAttempt := r.ro.stages[i].targets[j].currentAttempt)
  {
    hide Balanced, Sole, Reborn;
    var r := Restored(b, w, previous);
    RestoredBalances(w, b, previous);
    hide Restored;
    forall j | 0 <= j < |w.ro.stages[i].targets|
      ensures r.ro.stages[i].targets[j] ==
              w.ro.stages[i].targets[j].(currentAttempt := r.ro.stages[i].targets[j].currentAttempt)
    {
      assert InRange(w.ro, i, j);
      RestoredAt(w, b, previous, i, j);
    }
  }

  lemma {:induction false} SameCount(ts: seq<Target>, ts': seq<Target>, p: Target -> bool)
    requires |ts| == |ts'| && forall j :: 0 <= j < |ts| ==> p(ts[j]) == p(ts'[j])
    ensures Count(ts, p) == Count(ts', p)
  {
    if ts != [] {
      var n := |ts| - 1;
      assert forall j :: 0 <= j < n ==> ts[..n][j] == ts[j] && ts'[..n][j] == ts'[j];
      SameCount(ts[..n], ts'[..n], p);
    }
  }

  /**
   * A snapshot does not say that a stage demands verification, so after a restart its evidence gate asks for
   * everything else only. The gate answers as before the restart if and only if no verification was demanded,
   * or enough had been verified, or the gate was shut anyway.
   */
  lemma VerificationIsForgotten(w: World, b: World, previous: nat, i: nat, now: int, cfg: Config)
    requires Balanced(w) && Sole(w.ro) && Blank(b, w) && w.HasStage(i)
    ensures var r, st := Restored(b, w, previous), w.ro.stages[i];
            && r.HasStage(i) && (Gates.EvidenceGateOpen(r.ro.stages[i], now, cfg) <==> Gates.EvidenceSettled(st, now))
            && ((Gates.EvidenceGateOpen(r.ro.stages[i], now, cfg) <==> Gates.EvidenceGateOpen(st, now, cfg)) <==>
                (!st.requireVerification || Gates.EnoughVerified(st, now, cfg) || !Gates.EvidenceSettled(st, now)))
  {
    StagesRestored(w, b, previous, i);
    var st, st' := w.ro.stages[i], Restored(b, w, previous).ro.stages[i];
    hide Balanced, Sole, Restored, Count, Gates.EnoughVerified;
    forall j | 0 <= j < |st.targets|
      ensures IsTerminal(st.targets[j]) == IsTerminal(st'.targets[j])
              && IsFailed(st.targets[j]) == IsFailed(st'.targets[j])
    {
    }
    SameCount(st.targets, st'.targets, IsTerminal);
    SameCount(st.targets, st'.targets, IsFailed);
  }

  // ----- any number of restarts -----

  /** The invariants a snapshot carries over: all but the record of how each success was earned. */
  ghost predicate Solid(env: Env, w: World) {
    Restorable(env, w) && StillWhole(env, w) && Numbered(w.ro)
  }

  lemma RestoredLooks(w: World, b: World, previous: nat)
    requires Balanced(w) && Sole(w.ro) && Blank(b, w)
    ensures Looks(w.ro, Restored(b, w, previous).ro)
  {
    hide Balanced, Sole, Restored, Reborn;
    var r := Restored(b, w, previous);
    RestoredBalances(w, b, previous);
    forall i, j | InRange(w.ro, i, j) ensures LooksTarget(w.ro.stages[i].targets[j], r.ro.stages[i].targets[j]) {
      RestoredAt(w, b, previous, i, j);
    }
    forall i | 0 <= i < |w.ro.stages| ensures LooksStage(w.ro.stages[i], r.ro.stages[i]) {
      assert forall j :: 0 <= j < |w.ro.stages[i].targets| ==> InRange(w.ro, i, j);
    }
  }

  lemma RestoredSole(w: World, b: World, previous: nat)
    requires Balanced(w) && Sole(w.ro) && Blank(b, w)
    ensures Sole(Restored(b, w, previous).ro)
    ensures Actionable(Restored(b, w, previous))
  {
    var r := Restored(b, w, previous);
    RestoredBalances(w, b, previous);
    hide Balanced, Restored, NextAction, Blank;
    forall i, j | InRange(r.ro, i, j) && CurrentOf(r.ro, i, j) != 0
      ensures InRange(w.ro, i, j) && CurrentOf(w.ro, i, j) == CurrentOf(r.ro, i, j)
      ensures r.ro.stages[i].targets[j].epoch == w.ro.stages[i].targets[j].epoch
      ensures Reborn(w.ro.stages[i], w.ro.stages[i].targets[j])
      ensures Reborn(r.ro.stages[i], r.ro.stages[i].targets[j])
    {
      assert InRange(w.ro, i, j);
      RestoredAt(w, b, previous, i, j);
      RebornKept(w.ro.stages[i], r.ro.stages[i], w.ro.stages[i].targets[j]);
    }
    NilIsNotFiled(r);
  }

  lemma NilIsNotFiled(w: World)
    requires Balanced(w)
    ensures 0 !in w.at
  {
  }

  /** Taking over keeps every invariant the next run needs. */
  lemma RestartKeepsSolid(env: Env, w: World, b: World, previous: nat)
    requires Solid(env, w) && Blank(b, w)
    ensures Solid(env, Restored(b, w, previous))
  {
    var r := Restored(b, w, previous);
    RestoredBalances(w, b, previous);
    RestoredLooks(w, b, previous);
    RestoredSole(w, b, previous);
    hide Balanced, Sole, Actionable, Restored, Shaped;
    LooksShaped(env, w.ro, r.ro);
    forall i, j | InRange(r.ro, i, j)
      ensures LooksTarget(w.ro.stages[i].targets[j], r.ro.stages[i].targets[j])
    {
      assert LooksStage(w.ro.stages[i], r.ro.stages[i]);
    }
    RestoredNumbers(env, w, r);
  }

  lemma RestoredNumbers(env: Env, w: World, r: World)
    requires StillWhole(env, w) && Numbered(w.ro) && Looks(w.ro, r.ro)
    ensures StillWhole(env, r) && Numbered(r.ro)
  {
    forall i, j | 0 <= i < |r.ro.stages| && 0 <= j < |r.ro.stages[i].targets|
      ensures r.ro.stages[i].targets[j].epoch == r.ro.stages[i].targets[j].attemptsCreated
      ensures Compensating(r.ro.stages[i].targets[j]) <==> Compensating(w.ro.stages[i].targets[j])
    {
      assert LooksStage(w.ro.stages[i], r.ro.stages[i]);
      assert LooksTarget(w.ro.stages[i].targets[j], r.ro.stages[i].targets[j]);
    }
  }

  lemma {:induction false} RunKeepsSolid(env: Env, w: World, acts: seq<Act>, w': World)
    requires Solid(env, w) && Runs(env, w, acts, w')
    ensures Solid(env, w')
    decreases |acts|
  {
    hide Inv, Sole, Actionable, StillWhole, Numbered;
    if acts != [] {
      StepKeepsInv(env, w, acts[0]);
      StepKeepsSole(env, w, acts[0]);
      StepKeepsActionable(env, w, acts[0]);
      StepKeepsWhole(env, w, acts[0]);
      StepKeepsNumbered(env, w, acts[0]);
      RunKeepsSolid(env, Do(env, w, acts[0]), acts[1..], w');
    }
  }

  /** A life with `restarts` restarts, each from a snapshot of some world the run before it reached. */
  ghost predicate Lives(env: Env, w: World, restarts: nat, w': World)
    decreases restarts
  {
    if restarts == 0 then Leads(env, w, w')
    else exists mid, b, previous ::
           TakesOver(env, w, mid, b) && Lives(env, Restored(b, mid, previous), restarts - 1, w')
  }

  ghost predicate TakesOver(env: Env, w: World, mid: World, b: World) { Leads(env, w, mid) && Blank(b, mid) }

  lemma {:induction false} LifeKeepsSolid(env: Env, w: World, restarts: nat, w': World)
    requires Solid(env, w) && Lives(env, w, restarts, w')
    ensures Solid(env, w')
    decreases restarts
  {
    hide Solid, Restored, Blank;
    if restarts == 0 {
      var acts :| Runs(env, w, acts, w');
      RunKeepsSolid(env, w, acts, w');
    } else {
      var mid, b, previous :| TakesOver(env, w, mid, b) && Lives(env, Restored(b, mid, previous), restarts - 1, w');
      var acts :| Runs(env, w, acts, mid);
      RunKeepsSolid(env, w, acts, mid);
      RestartKeepsSolid(env, mid, b, previous);
      LifeKeepsSolid(env, Restored(b, mid, previous), restarts - 1, w');
    }
  }

  /** Reached from a new rollout through any number of restarts. */
  ghost predicate Enduring(env: Env, w: World) {
    exists first, restarts: nat :: Fresh(first) && Lives(env, first, restarts, w)
  }

  lemma FreshIsSolid(env: Env, w: World)
    requires Fresh(w)
    ensures Solid(env, w)
  {
    FreshIsSound(env, w);
    FreshSole(w.ro);
    hide Balanced, Shaped, HonestInbox;
    NilIsNotFiled(w);
  }

  lemma EnduringIsSolid(env: Env, w: World)
    requires Enduring(env, w)
    ensures Solid(env, w)
  {
    hide Solid, Fresh;
    var first, restarts: nat :| Fresh(first) && Lives(env, first, restarts, w);
    FreshIsSolid(env, first);
    LifeKeepsSolid(env, first, restarts, w);
  }

  /** A run without restarts is a life without restarts. */
  lemma AttainedEndures(env: Env, w: World)
    requires Attained(env, w)
    ensures Enduring(env, w)
  {
    hide Sound, Fresh;
    var first, events :| Fresh(first) && Happens(env, first, events, w);
    FreshIsSound(env, first);
    RunIsSteps(env, first, events, w);
    assert Lives(env, first, 0, w);
  }
}
