/** How a validated plan becomes the stages of a rollout. */
module Planning {
  import opened Rollouts
  import opened Steps
  import PlanOrder

  /** The stages of a rollout in execution order, each with the predecessors its plan declared. */
  ghost predicate Materialised(specs: seq<PlanOrder.Spec>, order: seq<nat>, stages: seq<Stage>) {
    && |stages| == |order|
    && (forall k :: 0 <= k < |order| ==>
          stages[k].id == order[k] &&
          exists sp :: sp in specs && sp.id == order[k] && stages[k].predecessors == sp.predecessors)
  }

  /** A complete order yields stages with distinct identifiers and every predecessor earlier. */
  lemma OrderIsTopological(specs: seq<PlanOrder.Spec>, order: seq<nat>, stages: seq<Stage>)
    requires PlanOrder.DistinctIds(specs) && PlanOrder.Complete(specs, order) && Materialised(specs, order, stages)
    ensures Topological(stages)
    ensures forall i, j :: 0 <= i < j < |stages| ==> stages[i].id != stages[j].id
  {
    forall i, k | 0 <= i < |stages| && 0 <= k < |stages[i].predecessors|
      ensures Earlier(stages, i, stages[i].predecessors[k])
    {
      var sp :| sp in specs && sp.id == order[i] && stages[i].predecessors == sp.predecessors;
      assert PlanOrder.Chosen(specs, order, i);
      var chosen :| PlanOrder.Foremost(specs, chosen, order[..i]) && chosen.id == order[i];
      assert chosen == sp;
      assert stages[i].predecessors[k] in order[..i];
      var j :| 0 <= j < i && order[j] == stages[i].predecessors[k];
      assert stages[j].id == order[j];
    }
  }

  /** A stored order is accepted only if it is the one order the plan requires. */
  lemma StoredOrderIsDetermined(specs: seq<PlanOrder.Spec>, order: seq<nat>, stored: seq<nat>)
    requires PlanOrder.Complete(specs, order)
    ensures stored == order <==> PlanOrder.Complete(specs, stored)
  {
    if PlanOrder.Complete(specs, stored) {
      PlanOrder.OrderIsDetermined(specs, order, specs, stored);
    }
  }
}
