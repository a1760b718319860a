/** Bookkeeping of attempts: which target an attempt belongs to, and how many are outstanding. */
module Books {
  import opened Lifecycle
  import opened Rollouts
  import opened Machine

  /** Target `t` of stage `s` is the one this attempt was made for. */
  ghost predicate Names(ro: Rollout, a: Attempt, s: nat, t: nat) {
    && s < |ro.stages| && t < |ro.stages[s].targets|
    && ro.stages[s].id == a.stage && ro.stages[s].targets[t].id == a.target
  }

  ghost predicate Housed(ro: Rollout, a: Attempt) {
    exists s: nat, t: nat :: Names(ro, a, s, t)
  }

  /** An unfinished attempt is the current one of its target, under its epoch, and the target is changing. */
  ghost predicate Tied(x: Target, id: nat, a: Attempt) {
    && a.epoch <= x.epoch
    && (!a.Finished() ==> x.currentAttempt == id && x.epoch == a.epoch && x.state.Changing())
  }

  ghost predicate AttemptOk(ro: Rollout, id: nat, a: Attempt) {
    && (a.completed <==> a.Finished())
    && a.epoch >= 1
    && (a.cancelledEpoch == 0 || a.cancelledEpoch == a.epoch)
    && (a.cancelledEpoch != 0 ==> !a.state.Succeeded?)
    && Housed(ro, a)
    && (forall s: nat, t: nat :: Names(ro, a, s, t) ==> Tied(ro.stages[s].targets[t], id, a))
  }

  ghost predicate Current(w: World, id: nat) {
    id in w.at && w.at[id].generation == w.ro.generation
  }

  /** The attempts of this generation that have not finished. */
  ghost function LiveSet(w: World): set<nat> {
    set id | id in w.at && w.at[id].generation == w.ro.generation && !w.at[id].Finished()
  }

  ghost predicate TargetOk(w: World, s: nat, t: nat)
    requires w.HasTarget(s, t)
  {
    var id := w.ro.stages[s].targets[t].currentAttempt;
    id != 0 ==> id < w.nextId && (id in w.at ==> Current(w, id) && Names(w.ro, w.at[id], s, t))
  }

  ghost predicate StageOk(st: Stage) { Canonical(st.targets) }

  /** Identifiers: distinct stages, canonical targets, fresh attempts. */
  ghost predicate WellFormed(w: World) {
    && (forall i, j :: 0 <= i < j < |w.ro.stages| ==> w.ro.stages[i].id != w.ro.stages[j].id)
    && (forall i :: 0 <= i < |w.ro.stages| ==> StageOk(w.ro.stages[i]))
    && w.nextId >= 1 && w.ro.generation < w.nextId
    && (forall id :: id in w.at ==> 0 < id < w.nextId && w.at[id].generation < w.nextId)
  }

  ghost predicate AttemptsOk(w: World) {
    forall id :: Current(w, id) ==> AttemptOk(w.ro, id, w.at[id])
  }

  ghost predicate TargetsOk(w: World) {
    forall s: nat, t: nat :: w.HasTarget(s, t) ==> TargetOk(w, s, t)
  }

  /** Every outstanding attempt is accounted for by exactly one target, and the counter is their number. */
  ghost predicate Balanced(w: World) {
    && WellFormed(w) && AttemptsOk(w) && TargetsOk(w)
    && w.ro.outstanding == |LiveSet(w)|
  }

  // ----- what the invariant says -----

  lemma NamesUnique(w: World, a: Attempt, s: nat, t: nat, s': nat, t': nat)
    requires WellFormed(w) && Names(w.ro, a, s, t) && Names(w.ro, a, s', t')
    ensures s == s' && t == t'
  {
    assert StageOk(w.ro.stages[s]);
  }

  lemma FindNames(w: World, s: nat, t: nat)
    requires WellFormed(w) && w.HasTarget(s, t)
    ensures FindStage(w.ro.stages, w.ro.stages[s].id) == s
    ensures FindTarget(w.ro.stages[s].targets, w.ro.stages[s].targets[t].id) == t
  {
    var i := FindStage(w.ro.stages, w.ro.stages[s].id);
    assert i <= s;
    assert StageOk(w.ro.stages[s]);
    var j := FindTarget(w.ro.stages[s].targets, w.ro.stages[s].targets[t].id);
    assert j <= t;
  }

  /** No target ever has two unfinished attempts in its generation. */
  lemma OneLiveAttemptPerTarget(w: World, id: nat, id': nat, s: nat, t: nat)
    requires Balanced(w) && Current(w, id) && Current(w, id')
    requires Names(w.ro, w.at[id], s, t) && Names(w.ro, w.at[id'], s, t)
    requires !w.at[id].Finished() && !w.at[id'].Finished()
    ensures id == id' == w.ro.stages[s].targets[t].currentAttempt
    ensures w.ro.stages[s].targets[t].state.Changing()
  {
    assert AttemptOk(w.ro, id, w.at[id]) && AttemptOk(w.ro, id', w.at[id']);
  }

  // ----- how it is kept: one lemma per kind of change -----

  /** Same stages and targets, by identifier. */
  ghost predicate SameIds(ro: Rollout, ro': Rollout) {
    && |ro.stages| == |ro'.stages|
    && (forall i :: 0 <= i < |ro.stages| ==>
          ro.stages[i].id == ro'.stages[i].id && |ro.stages[i].targets| == |ro'.stages[i].targets|)
    && (forall i, j :: 0 <= i < |ro.stages| && 0 <= j < |ro.stages[i].targets| ==>
          ro.stages[i].targets[j].id == ro'.stages[i].targets[j].id)
  }

  ghost predicate SameFence(a: Attempt, a': Attempt) {
    && a'.rollout == a.rollout && a'.generation == a.generation && a'.stage == a.stage
    && a'.target == a.target && a'.epoch == a.epoch
  }

  lemma NamesKept(ro: Rollout, ro': Rollout, a: Attempt, a': Attempt)
    requires SameIds(ro, ro') && SameFence(a, a')
    ensures forall s: nat, t: nat :: Names(ro, a, s, t) <==> Names(ro', a', s, t)
    ensures Housed(ro, a) ==> Housed(ro', a')
  {
    if Housed(ro, a) {
      var s: nat, t: nat :| Names(ro, a, s, t);
      assert Names(ro', a', s, t);
    }
  }

  /** An attempt that was in order stays so when its record is sound and its target still ties to it. */
  lemma AttemptKept(ro: Rollout, ro': Rollout, id: nat, a: Attempt, a': Attempt)
    requires AttemptOk(ro, id, a) && SameIds(ro, ro') && SameFence(a, a')
    requires a'.completed <==> a'.Finished()
    requires a'.cancelledEpoch == 0 || a'.cancelledEpoch == a.epoch
    requires a'.cancelledEpoch != 0 ==> !a'.state.Succeeded?
    requires forall s: nat, t: nat :: Names(ro, a, s, t) && Tied(ro.stages[s].targets[t], id, a) ==>
               Tied(ro'.stages[s].targets[t], id, a')
    ensures AttemptOk(ro', id, a')
  {
    NamesKept(ro, ro', a, a');
    forall s: nat, t: nat | Names(ro', a', s, t) ensures Tied(ro'.stages[s].targets[t], id, a') {
      assert Names(ro, a, s, t);
    }
  }

  lemma WellFormedKept(w: World, w': World)
    requires WellFormed(w) && SameIds(w.ro, w'.ro)
    requires w'.ro.generation == w.ro.generation && w.nextId <= w'.nextId
    requires forall id :: id in w'.at ==> 0 < id < w'.nextId && w'.at[id].generation < w'.nextId
    ensures WellFormed(w')
  {
    forall i | 0 <= i < |w'.ro.stages| ensures StageOk(w'.ro.stages[i]) {
      assert StageOk(w.ro.stages[i]);
    }
  }

  /** Only target `t` of stage `s` differs; stage fields other than `targets` are free, identifiers are kept. */
  ghost predicate Touches(w: World, w': World, s: nat, t: nat) {
    && w.HasTarget(s, t) && w'.HasTarget(s, t)
    && w'.ro.generation == w.ro.generation && w'.ro.id == w.ro.id
    && SameIds(w.ro, w'.ro)
    && (forall i, j :: 0 <= i < |w.ro.stages| && 0 <= j < |w.ro.stages[i].targets| && (i != s || j != t) ==>
          w'.ro.stages[i].targets[j] == w.ro.stages[i].targets[j])
  }

  /** The target's current attempt exists and has not finished. */
  predicate Busy(at: map<nat, Attempt>, x: Target) {
    x.currentAttempt in at && !at[x.currentAttempt].Finished()
  }

  /** A busy target stays changing under the same attempt; an idle one may change state and drop its attempt. */
  ghost predicate Keeps(at: map<nat, Attempt>, x: Target, x': Target) {
    && x'.epoch == x.epoch
    && (x'.currentAttempt == x.currentAttempt || x'.currentAttempt == 0)
    && (Busy(at, x) && x.state.Changing() ==> x'.currentAttempt == x.currentAttempt && x'.state.Changing())
  }

  /** Other fields of stages and targets may change freely as long as every target keeps its tie. */
  ghost predicate KeepsAll(w: World, w': World) {
    && w'.ro.generation == w.ro.generation && w'.ro.id == w.ro.id
    && SameIds(w.ro, w'.ro)
    && (forall i, j :: 0 <= i < |w.ro.stages| && 0 <= j < |w.ro.stages[i].targets| ==>
          Keeps(w.at, w.ro.stages[i].targets[j], w'.ro.stages[i].targets[j]))
  }

  lemma KeepsTargets(w: World, w': World)
    requires TargetsOk(w) && KeepsAll(w, w') && w.nextId <= w'.nextId && w'.at.Keys == w.at.Keys
    requires forall id :: id in w.at ==> SameFence(w.at[id], w'.at[id])
    ensures TargetsOk(w')
  {
    forall s: nat, t: nat | w'.HasTarget(s, t) ensures TargetOk(w', s, t) {
      assert TargetOk(w, s, t) && Keeps(w.at, w.ro.stages[s].targets[t], w'.ro.stages[s].targets[t]);
    }
  }

  lemma KeepsBooks(w: World, w': World)
    requires Balanced(w) && KeepsAll(w, w') && w'.at == w.at && w.nextId <= w'.nextId
    requires w'.ro.outstanding == w.ro.outstanding
    ensures Balanced(w')
    ensures LiveSet(w') == LiveSet(w)
  {
    WellFormedKept(w, w');
    forall id | Current(w', id) ensures AttemptOk(w'.ro, id, w'.at[id]) {
      assert Current(w, id) && AttemptOk(w.ro, id, w.at[id]);
      KeepsTies(w, w', id, w.at[id]);
      AttemptKept(w.ro, w'.ro, id, w.at[id], w'.at[id]);
    }
    KeepsTargets(w, w');
    assert LiveSet(w') == LiveSet(w);
  }

  lemma KeepsTies(w: World, w': World, id: nat, a: Attempt)
    requires KeepsAll(w, w') && id in w.at && w.at[id].Finished() == a.Finished()
    ensures forall s: nat, t: nat ::
              Names(w.ro, a, s, t) && Tied(w.ro.stages[s].targets[t], id, a) ==> Tied(w'.ro.stages[s].targets[t], id, a)
  {
    forall s: nat, t: nat | Names(w.ro, a, s, t) && Tied(w.ro.stages[s].targets[t], id, a)
      ensures Tied(w'.ro.stages[s].targets[t], id, a)
    {
      assert Keeps(w.at, w.ro.stages[s].targets[t], w'.ro.stages[s].targets[t]);
    }
  }

  /** The live attempt of a target finishes and leaves the count. */
  lemma FinishBooks(w: World, w': World, s: nat, t: nat, id: nat)
    requires Balanced(w) && Touches(w, w', s, t)
    requires Current(w, id) && !w.at[id].Finished() && Names(w.ro, w.at[id], s, t)
    requires id in w'.at && w'.at == w.at[id := w'.at[id]] && w'.nextId == w.nextId
    requires SameFence(w.at[id], w'.at[id]) && w'.at[id].cancelledEpoch == w.at[id].cancelledEpoch
    requires w'.at[id].completed && w'.at[id].Finished()
    requires w'.at[id].cancelledEpoch != 0 ==> !w'.at[id].state.Succeeded?
    requires var x, x' := w.ro.stages[s].targets[t], w'.ro.stages[s].targets[t];
             x'.epoch == x.epoch && (x'.currentAttempt == 0 || x'.currentAttempt == id)
    requires w'.ro.outstanding == Less(w.ro.outstanding)
    ensures Balanced(w')
    ensures LiveSet(w') == LiveSet(w) - {id}
  {
    WellFormedKept(w, w');
    assert AttemptOk(w.ro, id, w.at[id]);
    forall b | Current(w', b) ensures AttemptOk(w'.ro, b, w'.at[b]) {
      assert Current(w, b) && AttemptOk(w.ro, b, w.at[b]);
      AttemptKept(w.ro, w'.ro, b, w.at[b], w'.at[b]);
    }
    FinishTargets(w, w', s, t, id);
    assert LiveSet(w') == LiveSet(w) - {id};
  }

  lemma FinishTargets(w: World, w': World, s: nat, t: nat, id: nat)
    requires TargetsOk(w) && Touches(w, w', s, t)
    requires Current(w, id) && Names(w.ro, w.at[id], s, t)
    requires id in w'.at && w'.at == w.at[id := w'.at[id]] && w'.nextId == w.nextId && id < w.nextId
    requires SameFence(w.at[id], w'.at[id])
    requires var x' := w'.ro.stages[s].targets[t]; x'.currentAttempt == 0 || x'.currentAttempt == id
    ensures TargetsOk(w')
  {
    forall i: nat, j: nat | w'.HasTarget(i, j) ensures TargetOk(w', i, j) {
      assert TargetOk(w, i, j);
    }
  }

  /** One attempt is amended without finishing or reviving it, and no target loses its tie. */
  lemma AmendBooks(w: World, w': World, id: nat)
    requires Balanced(w) && KeepsAll(w, w') && w'.nextId == w.nextId && w'.ro.outstanding == w.ro.outstanding
    requires id in w.at && id in w'.at && w'.at == w.at[id := w'.at[id]]
    requires SameFence(w.at[id], w'.at[id]) && w'.at[id].completed == w.at[id].completed
    requires w'.at[id].Finished() == w.at[id].Finished()
    requires w'.at[id].cancelledEpoch == w.at[id].cancelledEpoch || w'.at[id].cancelledEpoch == w.at[id].epoch
    requires w'.at[id].cancelledEpoch != 0 ==> !w'.at[id].state.Succeeded?
    ensures Balanced(w')
    ensures LiveSet(w') == LiveSet(w)
  {
    WellFormedKept(w, w');
    forall b | Current(w', b) ensures AttemptOk(w'.ro, b, w'.at[b]) {
      assert Current(w, b) && AttemptOk(w.ro, b, w.at[b]);
      KeepsTies(w, w', b, w.at[b]);
      AttemptKept(w.ro, w'.ro, b, w.at[b], w'.at[b]);
    }
    KeepsTargets(w, w');
    assert LiveSet(w') == LiveSet(w);
  }

  /** A target without a live attempt gets a new one, under a fresh identifier and a higher epoch. */
  lemma DispatchBooks(w: World, w': World, s: nat, t: nat)
    requires Balanced(w) && Touches(w, w', s, t)
    requires w'.nextId == w.nextId + 1 && w.nextId in w'.at && w'.at == w.at[w.nextId := w'.at[w.nextId]]
    requires var id, x, x' := w.nextId, w.ro.stages[s].targets[t], w'.ro.stages[s].targets[t];
             && w'.at[id].generation == w.ro.generation && Names(w'.ro, w'.at[id], s, t)
             && !w'.at[id].Finished() && !w'.at[id].completed && w'.at[id].cancelledEpoch == 0
             && w'.at[id].epoch == x'.epoch == x.epoch + 1
             && x'.currentAttempt == id && x'.state.Changing()
             && (!Busy(w.at, x) || !x.state.Changing())
    requires w'.ro.outstanding == w.ro.outstanding + 1
    ensures Balanced(w')
    ensures LiveSet(w') == LiveSet(w) + {w.nextId}
  {
    var id := w.nextId;
    WellFormedKept(w, w');
    forall b | Current(w', b) ensures AttemptOk(w'.ro, b, w'.at[b]) {
      if b == id {
        forall i: nat, j: nat | Names(w'.ro, w'.at[b], i, j) ensures Tied(w'.ro.stages[i].targets[j], b, w'.at[b]) {
          NamesUnique(w', w'.at[b], i, j, s, t);
        }
        assert Housed(w'.ro, w'.at[b]);
      } else {
        assert Current(w, b) && AttemptOk(w.ro, b, w.at[b]);
        AttemptKept(w.ro, w'.ro, b, w.at[b], w'.at[b]);
      }
    }
    forall i: nat, j: nat | w'.HasTarget(i, j) ensures TargetOk(w', i, j) {
      assert TargetOk(w, i, j);
    }
    assert LiveSet(w') == LiveSet(w) + {id};
  }

  /** The fence of an attempt never changes; its sequence, its cancellation and its end are never undone. */
  ghost predicate NoYounger(a: Attempt, a': Attempt) {
    && SameFence(a, a')
    && a'.highestSequence >= a.highestSequence
    && (a.cancelledEpoch != 0 ==> a'.cancelledEpoch == a.cancelledEpoch)
    && (a.Finished() ==> a'.Finished())
  }

  /**
   * Attempts of other generations come, go and change, finished attempts of this one are dropped, and
   * identifiers are used up: what other rollouts and the bounded attempt table do to this rollout.
   */
  ghost predicate OthersOnly(w: World, w': World) {
    && w'.ro == w.ro && w'.cfg == w.cfg && w.nextId <= w'.nextId
    && (forall id :: id in w'.at ==> 0 < id < w'.nextId && w'.at[id].generation < w'.nextId)
    && (forall id :: id in w'.at ==>
          if id in w.at then
            && (w.at[id].generation == w.ro.generation ==> w'.at[id] == w.at[id])
            && NoYounger(w.at[id], w'.at[id])
          else w.nextId <= id && w'.at[id].generation != w.ro.generation)
    && (forall id :: Current(w, id) && !w.at[id].Finished() ==> id in w'.at)
  }

  lemma OthersBooks(w: World, w': World)
    requires Balanced(w) && OthersOnly(w, w')
    ensures Balanced(w')
    ensures LiveSet(w') == LiveSet(w)
  {
    forall b | Current(w', b) ensures AttemptOk(w'.ro, b, w'.at[b]) {
      assert Current(w, b) && AttemptOk(w.ro, b, w.at[b]);
    }
    forall i: nat, j: nat | w'.HasTarget(i, j) ensures TargetOk(w', i, j) {
      assert TargetOk(w, i, j);
    }
    assert LiveSet(w') == LiveSet(w);
  }
}
