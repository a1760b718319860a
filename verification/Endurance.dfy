/**
 * Operations and restarts stay among the worlds the guarantees are about:
 * those reached through any number of restarts.
 */
module Endurance {
  import opened Rollouts
  import opened Machine
  import opened Steps
  import opened Reachable
  import opened Recovery
  import opened Restart

  lemma {:induction false} LivesOn(env: Env, w: World, restarts: nat, mid: World, w': World)
    requires Lives(env, w, restarts, mid) && Leads(env, mid, w')
    ensures Lives(env, w, restarts, w')
    decreases restarts
  {
    hide Leads, Restored, Blank;
    if restarts == 0 {
      LeadsThen(env, w, mid, w');
    } else {
      var old', b, previous :| TakesOver(env, w, old', b) && Lives(env, Restored(b, old', previous), restarts - 1, mid);
      LivesOn(env, Restored(b, old', previous), restarts - 1, mid, w');
    }
  }

  lemma {:induction false} LivesAgain(env: Env, w: World, restarts: nat, mid: World, b: World, previous: nat)
    requires Lives(env, w, restarts, mid) && Blank(b, mid)
    ensures Lives(env, w, restarts + 1, Restored(b, mid, previous))
    decreases restarts
  {
    hide Leads, Restored, Blank;
    if restarts == 0 {
      LeadsNowhere(env, Restored(b, mid, previous));
      assert TakesOver(env, w, mid, b) && Lives(env, Restored(b, mid, previous), 0, Restored(b, mid, previous));
    } else {
      var old', c, before :| TakesOver(env, w, old', c) && Lives(env, Restored(c, old', before), restarts - 1, mid);
      LivesAgain(env, Restored(c, old', before), restarts - 1, mid, b, previous);
      assert TakesOver(env, w, old', c) && Lives(env, Restored(c, old', before), restarts, Restored(b, mid, previous));
    }
  }

  lemma EnduringLeads(env: Env, w: World, w': World)
    requires Enduring(env, w) && Leads(env, w, w')
    ensures Enduring(env, w')
  {
    hide Leads, Lives, Fresh;
    var first, restarts: nat :| Fresh(first) && Lives(env, first, restarts, w);
    LivesOn(env, first, restarts, w, w');
  }

  /** A blank controller that takes over from the snapshot of an enduring world stands in an enduring world. */
  lemma RestartEndures(env: Env, w: World, b: World, previous: nat)
    requires Enduring(env, w) && Blank(b, w)
    ensures Enduring(env, Restored(b, w, previous))
  {
    hide Restored, Lives, Fresh, Blank;
    var first, restarts: nat :| Fresh(first) && Lives(env, first, restarts, w);
    LivesAgain(env, first, restarts, w, b, previous);
  }

  /**
   * The event takes every enduring world, under every environment that allows it,
   * to an enduring one by enabled steps.
   */
  ghost predicate Endures(w: World, ev: Event, w': World) {
    forall env :: Enduring(env, w) && Allowed(env, w, ev) ==> Leads(env, w, w') && Enduring(env, w')
  }

  lemma EventEndures(w: World, ev: Event)
    ensures Endures(w, ev, Step(w, ev))
  {
    forall env | Enduring(env, w) && Allowed(env, w, ev)
      ensures Leads(env, w, Step(w, ev)) && Enduring(env, Step(w, ev))
    {
      hide Step, Allowed, Enduring;
      EnduringIsSolid(env, w);
      EventIsSteps(env, w, ev);
      EnduringLeads(env, w, Step(w, ev));
    }
  }

  lemma TickEndures(w: World, now: int, accept: nat -> bool)
    ensures Endures(w, OnTick(now, accept), Tick(w, now, accept))
  {
    EventEndures(w, OnTick(now, accept));
    hide Endures, Tick;
  }

  lemma ReconcileEndures(w: World, answers: seq<Answer>, now: int)
    ensures Endures(w, OnReconcile(answers, now), Reconcile(w, answers, now))
  {
    EventEndures(w, OnReconcile(answers, now));
    hide Endures, Reconcile;
  }

  lemma EvidenceEndures(w: World, rec: Record)
    ensures Endures(w, OnEvidence(rec), w.(inbox := w.inbox + [rec]))
    ensures Endures(w, OnEvidence(rec), w)
  {
    EventEndures(w, OnEvidence(rec));
    forall env | Enduring(env, w) ensures Leads(env, w, w) {
      LeadsNowhere(env, w);
    }
    hide Enduring, Leads, Allowed;
  }

  lemma ArmEndures(w: World, f: Fence)
    ensures Endures(w, OnArm(f), Arm(w, f).w)
  {
    EventEndures(w, OnArm(f));
    hide Endures, Arm;
  }

  lemma StartEndures(w: World, f: Fence)
    ensures Endures(w, OnStart(f), Machine.Start(w, f).w)
  {
    EventEndures(w, OnStart(f));
    hide Endures, Machine.Start;
  }

  lemma PauseEndures(w: World, f: Fence, stops: nat -> bool)
    ensures Endures(w, OnPause(f, stops), Pause(w, f, stops).w)
  {
    EventEndures(w, OnPause(f, stops));
    hide Endures, Pause;
  }

  lemma ResumeEndures(w: World, f: Fence)
    ensures Endures(w, OnResume(f), Resume(w, f).w)
  {
    EventEndures(w, OnResume(f));
    hide Endures, Resume;
  }

  lemma AbortEndures(w: World, f: Fence, stops: nat -> bool)
    ensures Endures(w, OnAbort(f, stops), Abort(w, f, stops).w)
  {
    EventEndures(w, OnAbort(f, stops));
    hide Endures, Abort;
  }

  lemma ApproveGateEndures(w: World, gate: nat, f: Fence, now: int)
    ensures Endures(w, OnApprove(gate, f, now), ApproveGate(w, gate, f, now).w)
  {
    EventEndures(w, OnApprove(gate, f, now));
    hide Endures, ApproveGate;
  }

  lemma RetireEndures(w: World, f: Fence)
    ensures Endures(w, OnRetire(f), Retire(w, f).w)
  {
    EventEndures(w, OnRetire(f));
    hide Endures, Retire;
  }

  lemma RegenerateEndures(w: World, f: Fence, renewed: seq<Stage>, fits: nat -> bool)
    ensures Endures(w, OnRegenerate(f, renewed, fits), Regenerate(w, f, renewed, fits).w)
  {
    EventEndures(w, OnRegenerate(f, renewed, fits));
    hide Endures, Regenerate;
  }

  /** A snapshot of an enduring world, once adopted by a blank controller, continues an enduring life. */
  ghost predicate Continues(b: World, ro: Rollout, w': World) {
    forall env, w :: Enduring(env, w) && Blank(b, w) && ro == Stored(w.ro) ==> Enduring(env, w')
  }

  lemma RestoreContinues(b: World, ro: Rollout, previous: nat, planHolds: bool)
    ensures var r := Restore(b, ro, previous, planHolds); r.ok ==> Continues(b, ro, r.w)
  {
    var r := Restore(b, ro, previous, planHolds);
    forall env, w | r.ok && Enduring(env, w) && Blank(b, w) && ro == Stored(w.ro) ensures Enduring(env, r.w) {
      hide Enduring, Blank, RestoreStages, Stored;
      assert r.w == Restored(b, w, previous);
      RestartEndures(env, w, b, previous);
    }
  }
}
