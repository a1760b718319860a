/**
 * The correlated limits of the blast radius: failure domain, rack, pod and site. Each admission is judged
 * against the targets changing before the batch, so these limits bound a batch only together with its size.
 */
module Radius {
  import opened Lifecycle
  import opened Exact
  import opened Rollouts
  import opened Dispatch
  import opened Machine
  import opened Steps
  import opened Operations
  import opened Restart

  function DomainOf(p: Placement): nat { p.domain }
  function RackOf(p: Placement): nat { p.rack }
  function PodOf(p: Placement): nat { p.pod }
  function SiteOf(p: Placement): nat { p.site }

  /** The target sits at this value along one dimension. */
  predicate Sits(inventory: map<nat, Placement>, dimension: Placement -> nat, value: nat, id: nat) {
    id in inventory && dimension(inventory[id]) == value
  }

  function Along(inventory: map<nat, Placement>, dimension: Placement -> nat, value: nat): Target -> bool {
    (t: Target) => t.state.Changing() && Sits(inventory, dimension, value, t.id)
  }

  /** How many targets of the whole rollout satisfy a predicate. */
  function Total(stages: seq<Stage>, p: Target -> bool): nat {
    if stages == [] then 0 else Count(stages[0].targets, p) + Total(stages[1..], p)
  }

  // ----- what usage counts -----

  lemma {:induction false} CountFromFront(ts: seq<Target>, p: Target -> bool)
    requires ts != []
    ensures Count(ts, p) == Bit(p(ts[0])) + Count(ts[1..], p)
  {
    var n := |ts| - 1;
    if n > 0 {
      CountFromFront(ts[..n], p);
      assert ts[1..][..n - 1] == ts[..n][1..];
    } else {
      assert ts[1..] == [] && ts[..n] == [];
    }
  }

  /** `v` is `u` plus these counts; the domains are those already there and those counted. */
  ghost predicate Adds(u: Usage, v: Usage, inventory: map<nat, Placement>, c: Placement,
                       count: (Target -> bool) -> nat) {
    && v.perDomain == u.perDomain + count(Along(inventory, DomainOf, c.domain))
    && (c.rack != 0 ==> v.perRack == u.perRack + count(Along(inventory, RackOf, c.rack)))
    && (c.pod != 0 ==> v.perPod == u.perPod + count(Along(inventory, PodOf, c.pod)))
    && (c.site != 0 ==> v.perSite == u.perSite + count(Along(inventory, SiteOf, c.site)))
    && (forall d :: d in v.domains <==> d in u.domains || count(Along(inventory, DomainOf, d)) > 0)
  }

  function CountOf(ts: seq<Target>): (Target -> bool) -> nat { p => Count(ts, p) }
  function TotalOf(stages: seq<Stage>): (Target -> bool) -> nat { p => Total(stages, p) }

  lemma {:induction false} UsageOfAdds(u: Usage, ts: seq<Target>, inventory: map<nat, Placement>, c: Placement)
    ensures Adds(u, UsageOf(u, ts, inventory, c), inventory, c, CountOf(ts))
    decreases |ts|
  {
    if ts != [] {
      UsageOfAdds(AddUsage(u, ts[0], inventory, c), ts[1..], inventory, c);
      CountFromFront(ts, Along(inventory, DomainOf, c.domain));
      CountFromFront(ts, Along(inventory, RackOf, c.rack));
      CountFromFront(ts, Along(inventory, PodOf, c.pod));
      CountFromFront(ts, Along(inventory, SiteOf, c.site));
      forall d ensures Count(ts, Along(inventory, DomainOf, d)) ==
                       Bit(Along(inventory, DomainOf, d)(ts[0])) + Count(ts[1..], Along(inventory, DomainOf, d)) {
        CountFromFront(ts, Along(inventory, DomainOf, d));
      }
    }
  }

  /** What the planner measures around a candidate is the number of changing targets that share each dimension. */
  lemma {:induction false} UsageIsTotal(u: Usage, stages: seq<Stage>, inventory: map<nat, Placement>, c: Placement)
    ensures Adds(u, UsageAround(u, stages, inventory, c), inventory, c, TotalOf(stages))
    decreases |stages|
  {
    if stages != [] {
      var v := UsageOf(u, stages[0].targets, inventory, c);
      UsageOfAdds(u, stages[0].targets, inventory, c);
      UsageIsTotal(v, stages[1..], inventory, c);
    }
  }

  /** The measuring loop of the planner. */
  method MeasureUsage(stages: seq<Stage>, inventory: map<nat, Placement>, c: Placement) returns (u: Usage)
    ensures u == UsageAround(NO_USAGE, stages, inventory, c)
  {
    u := NO_USAGE;
    for i := 0 to |stages|
      invariant UsageAround(u, stages[i..], inventory, c) == UsageAround(NO_USAGE, stages, inventory, c)
    {
      var ts := stages[i].targets;
      ghost var start := u;
      for j := 0 to |ts|
        invariant UsageOf(u, ts[j..], inventory, c) == UsageOf(start, ts, inventory, c)
      {
        assert ts[j..][1..] == ts[j + 1..];
        u := AddUsage(u, ts[j], inventory, c);
      }
      assert stages[i..][1..] == stages[i + 1..];
    }
  }

  /** The failure domains some target is changing in. */
  function DomainsIn(stages: seq<Stage>, inventory: map<nat, Placement>): set<nat> {
    UsageAround(NO_USAGE, stages, inventory, Placement(0, 0, 0, 0)).domains
  }

  /** Whoever the usage is measured around, the changing domains are the same. */
  lemma DomainsAreThose(stages: seq<Stage>, inventory: map<nat, Placement>, c: Placement)
    ensures UsageAround(NO_USAGE, stages, inventory, c).domains == DomainsIn(stages, inventory)
    ensures forall d :: d in DomainsIn(stages, inventory) <==> Total(stages, Along(inventory, DomainOf, d)) > 0
  {
    UsageIsTotal(NO_USAGE, stages, inventory, c);
    UsageIsTotal(NO_USAGE, stages, inventory, Placement(0, 0, 0, 0));
  }

  /** An admitted candidate leaves room for itself along every dimension it has, and in the number of domains. */
  lemma AdmissionLeavesRoom(stages: seq<Stage>, stage: Stage, inventory: map<nat, Placement>, candidate: nat)
    requires Admits(stages, stage, inventory, candidate)
    ensures var c, radius := inventory[candidate], stage.policy.radius;
            && Total(stages, Along(inventory, DomainOf, c.domain)) < radius.perDomain
            && (c.rack != 0 ==> Total(stages, Along(inventory, RackOf, c.rack)) < radius.perRack)
            && (c.pod != 0 ==> Total(stages, Along(inventory, PodOf, c.pod)) < radius.perPod)
            && (c.site != 0 ==> Total(stages, Along(inventory, SiteOf, c.site)) < radius.perSite)
            && (c.domain in DomainsIn(stages, inventory) || |DomainsIn(stages, inventory)| < radius.domains)
  {
    UsageIsTotal(NO_USAGE, stages, inventory, inventory[candidate]);
    DomainsAreThose(stages, inventory, inventory[candidate]);
  }

  ghost predicate AllAdmitted(admits: nat -> bool, batch: seq<Entry>) {
    forall k :: 0 <= k < |batch| ==> admits(batch[k].target)
  }

  lemma {:induction false} WalkAdmits(stage: Stage, admits: nat -> bool, capacity: nat, i: nat, batch: seq<Entry>,
                                      admitted: nat)
    requires i <= |stage.targets| && AllAdmitted(admits, batch)
    ensures AllAdmitted(admits, Walk(stage, admits, capacity, i, batch, admitted))
    decreases |stage.targets| - i
  {
    if i < |stage.targets| {
      var t := stage.targets[i];
      if |batch| >= capacity || !Eligible(stage, admits, t, admitted) {
        WalkAdmits(stage, admits, capacity, i + 1, batch, admitted);
      } else {
        WalkAdmits(stage, admits, capacity, i + 1, batch + [EntryFor(t)], admitted + Bit(t.attemptsCreated == 0));
      }
    }
  }

  lemma PlanAdmits(stages: seq<Stage>, stage: Stage, cfg: Config)
    ensures var batch := PlanDispatch(stages, stage, cfg);
            forall k :: 0 <= k < |batch| ==> Admits(stages, stage, cfg.inventory, batch[k].target)
  {
    if ChangingCount(stages) < stage.policy.radius.global &&
       Count(stage.targets, IsChanging) < stage.policy.radius.perStage {
      var admits := Admission(stages, stage, cfg.inventory);
      WalkAdmits(stage, admits, Capacity(stages, stage, cfg), 0, [], Count(stage.targets, IsAttempted));
      var batch := PlanDispatch(stages, stage, cfg);
      assert batch != [] ==>
          batch == Walk(stage, admits, Capacity(stages, stage, cfg), 0, [], Count(stage.targets, IsAttempted));
      forall k | 0 <= k < |batch| ensures Admits(stages, stage, cfg.inventory, batch[k].target) {
        assert admits(batch[k].target);
      }
    }
  }

  // ----- what a batch adds -----

  /** The entries that are accepted and sit at this value; identifiers are used up one by one from `first`. */
  function Landed(batch: seq<Entry>, first: nat, accept: nat -> bool, inventory: map<nat, Placement>,
                  dimension: Placement -> nat, value: nat): (n: nat)
    ensures n <= |batch|
  {
    if batch == [] then 0
    else
      Bit(accept(first) && Sits(inventory, dimension, value, batch[0].target)) +
      Landed(batch[1..], first + 1, accept, inventory, dimension, value)
  }

  lemma {:induction false} LandedSome(batch: seq<Entry>, first: nat, accept: nat -> bool,
                                      inventory: map<nat, Placement>, dimension: Placement -> nat, value: nat)
    returns (k: nat)
    requires Landed(batch, first, accept, inventory, dimension, value) > 0
    ensures k < |batch| && Sits(inventory, dimension, value, batch[k].target)
  {
    if accept(first) && Sits(inventory, dimension, value, batch[0].target) {
      k := 0;
    } else {
      var later := LandedSome(batch[1..], first + 1, accept, inventory, dimension, value);
      k := later + 1;
    }
  }

  lemma {:induction false} TotalUpdate(stages: seq<Stage>, s: nat, st: Stage, p: Target -> bool)
    requires s < |stages|
    ensures Total(stages[s := st], p) + Count(stages[s].targets, p) == Total(stages, p) + Count(st.targets, p)
  {
    if s == 0 {
      assert stages[0 := st][1..] == stages[1..];
    } else {
      TotalUpdate(stages[1..], s - 1, st, p);
      assert stages[s := st][1..] == stages[1..][s - 1 := st];
    }
  }

  /** Replacing one target changes the total by what that target contributes. */
  lemma TotalOfOne(ro: Rollout, ro': Rollout, s: nat, t: nat, p: Target -> bool)
    requires s < |ro.stages| && t < |ro.stages[s].targets| && OneOfSame(ro, ro', s, t)
    ensures Total(ro'.stages, p) + Bit(p(ro.stages[s].targets[t])) ==
            Total(ro.stages, p) + Bit(p(ro'.stages[s].targets[t]))
  {
    TotalUpdate(ro.stages, s, ro'.stages[s], p);
    CountUpdate(ro.stages[s].targets, t, ro'.stages[s].targets[t], p);
  }

  lemma EntryLands(w: World, s: nat, batch: seq<Entry>, now: int, accept: nat -> bool,
                   inventory: map<nat, Placement>, dimension: Placement -> nat, value: nat)
    requires BatchFits(w.ro, s, batch) && batch != [] && w.cfg.hasExecution
    ensures var w1 := DispatchEntry(w, s, batch[0], now, accept);
            && w1.nextId == w.nextId + 1 && w1.cfg == w.cfg && BatchFits(w1.ro, s, batch[1..])
            && Total(w1.ro.stages, Along(inventory, dimension, value)) ==
               Total(w.ro.stages, Along(inventory, dimension, value)) +
               Bit(accept(w.nextId) && Sits(inventory, dimension, value, batch[0].target))
  {
    var t := FindTarget(w.ro.stages[s].targets, batch[0].target);
    EntryFound(w.ro.stages[s].targets, batch[0]);
    DispatchedRollout(w, s, t, 0, now, accept);
    DispatchIsOne(w, s, t, now);
    var w1 := DispatchEntry(w, s, batch[0], now, accept);
    RestFits(w.ro, w1.ro, s, batch, t);
    TotalOfOne(w.ro, w1.ro, s, t, Along(inventory, dimension, value));
  }

  /** A batch adds to each dimension exactly its accepted entries there. */
  lemma {:induction false} BatchLands(w: World, s: nat, batch: seq<Entry>, now: int, accept: nat -> bool,
                                      inventory: map<nat, Placement>, dimension: Placement -> nat, value: nat)
    requires BatchFits(w.ro, s, batch) && w.cfg.hasExecution
    ensures Total(DispatchBatch(w, s, batch, now, accept).ro.stages, Along(inventory, dimension, value)) ==
            Total(w.ro.stages, Along(inventory, dimension, value)) +
            Landed(batch, w.nextId, accept, inventory, dimension, value)
    decreases |batch|
  {
    hide BatchFits, DispatchEntry;
    if batch != [] {
      EntryLands(w, s, batch, now, accept, inventory, dimension, value);
      StageStays(w, s, batch);
      BatchLands(DispatchEntry(w, s, batch[0], now, accept), s, batch[1..], now, accept, inventory, dimension, value);
    }
  }

  lemma StageStays(w: World, s: nat, batch: seq<Entry>)
    requires BatchFits(w.ro, s, batch)
    ensures w.HasStage(s)
  {
  }

  /** The tick's high-water marks leave every target alone. */
  lemma StageLands(w: World, s: nat, now: int, accept: nat -> bool, dimension: Placement -> nat, value: nat)
    requires w.HasStage(s) && w.cfg.hasExecution
    requires BatchFits(w.ro, s, PlanDispatch(w.ro.stages, w.ro.stages[s], w.cfg))
    ensures var batch := PlanDispatch(w.ro.stages, w.ro.stages[s], w.cfg);
            Total(DispatchStage(w, s, now, accept).ro.stages, Along(w.cfg.inventory, dimension, value)) ==
            Total(w.ro.stages, Along(w.cfg.inventory, dimension, value)) +
            Landed(batch, w.nextId, accept, w.cfg.inventory, dimension, value)
  {
    hide BatchFits, PlanDispatch, DispatchBatch, Along;
    var batch := PlanDispatch(w.ro.stages, w.ro.stages[s], w.cfg);
    var p := Along(w.cfg.inventory, dimension, value);
    BatchLands(w, s, batch, now, accept, w.cfg.inventory, dimension, value);
    var sent := DispatchBatch(w, s, batch, now, accept);
    var st := sent.ro.stages[s];
    TotalUpdate(sent.ro.stages, s, DispatchStage(w, s, now, accept).ro.stages[s], p);
  }

  /** The planned entries at one value. */
  function Planned(batch: seq<Entry>, inventory: map<nat, Placement>, dimension: Placement -> nat, value: nat): (n: nat)
    ensures n <= |batch|
  {
    if batch == [] then 0
    else Bit(Sits(inventory, dimension, value, batch[0].target)) + Planned(batch[1..], inventory, dimension, value)
  }

  function Always(): nat -> bool { (id: nat) => true }

  /** No more land than are planned, and all of them if everything is accepted. */
  lemma {:induction false} LandedIsPlanned(batch: seq<Entry>, first: nat, accept: nat -> bool,
                                           inventory: map<nat, Placement>, dimension: Placement -> nat, value: nat)
    ensures Landed(batch, first, accept, inventory, dimension, value) <= Planned(batch, inventory, dimension, value)
    ensures Landed(batch, first, Always(), inventory, dimension, value) == Planned(batch, inventory, dimension, value)
    ensures Planned(batch, inventory, dimension, value) > 0 <==>
            exists k :: 0 <= k < |batch| && Sits(inventory, dimension, value, batch[k].target)
  {
    if batch != [] {
      LandedIsPlanned(batch[1..], first + 1, accept, inventory, dimension, value);
      if k :| 0 <= k < |batch[1..]| && Sits(inventory, dimension, value, batch[1..][k].target) {
        assert Sits(inventory, dimension, value, batch[k + 1].target);
      }
      if Sits(inventory, dimension, value, batch[0].target) {
        assert 0 < |batch|;
      }
    }
  }

  /** Changing targets at a value after this tick's dispatch. */
  function After(w: World, s: nat, now: int, accept: nat -> bool, dimension: Placement -> nat, value: nat): nat
    requires w.HasStage(s)
  {
    Total(DispatchStage(w, s, now, accept).ro.stages, Along(w.cfg.inventory, dimension, value))
  }

  /**
   * One tick's dispatch against one limit, whatever the executor accepts: a value within its limit is sure to
   * stay within it if and only if the plan has no more entries there than there is room; a full one is planned
   * nothing; a plan of one entry is always safe.
   */
  ghost predicate TickBounded(w: World, s: nat, now: int, dimension: Placement -> nat, value: nat, limit: nat)
    requires w.HasStage(s)
  {
    var batch := PlanDispatch(w.ro.stages, w.ro.stages[s], w.cfg);
    var before := Total(w.ro.stages, Along(w.cfg.inventory, dimension, value));
    var planned := Planned(batch, w.cfg.inventory, dimension, value);
    && (before >= limit ==> planned == 0 && forall accept :: After(w, s, now, accept, dimension, value) == before)
    && (before <= limit ==>
          ((forall accept :: After(w, s, now, accept, dimension, value) <= limit) <==> planned <= limit - before))
    && (before <= limit && |batch| <= 1 ==> forall accept :: After(w, s, now, accept, dimension, value) <= limit)
  }

  /** A plan for stage `s` that the world can take. */
  ghost predicate Plannable(w: World, s: nat) {
    && w.HasStage(s) && w.cfg.hasExecution
    && BatchFits(w.ro, s, PlanDispatch(w.ro.stages, w.ro.stages[s], w.cfg))
  }

  lemma AfterIs(w: World, s: nat, now: int, accept: nat -> bool, dimension: Placement -> nat, value: nat)
    requires Plannable(w, s)
    ensures var batch := PlanDispatch(w.ro.stages, w.ro.stages[s], w.cfg);
            var before := Total(w.ro.stages, Along(w.cfg.inventory, dimension, value));
            var planned := Planned(batch, w.cfg.inventory, dimension, value);
            && After(w, s, now, accept, dimension, value) ==
               before + Landed(batch, w.nextId, accept, w.cfg.inventory, dimension, value)
            && before <= After(w, s, now, accept, dimension, value) <= before + planned
            && After(w, s, now, Always(), dimension, value) == before + planned
  {
    hide PlanDispatch, DispatchStage, BatchFits;
    var batch := PlanDispatch(w.ro.stages, w.ro.stages[s], w.cfg);
    StageLands(w, s, now, accept, dimension, value);
    StageLands(w, s, now, Always(), dimension, value);
    LandedIsPlanned(batch, w.nextId, accept, w.cfg.inventory, dimension, value);
  }

  lemma DimensionIsBounded(w: World, s: nat, now: int, dimension: Placement -> nat, value: nat, limit: nat)
    requires Plannable(w, s)
    requires forall id :: Admits(w.ro.stages, w.ro.stages[s], w.cfg.inventory, id) &&
                          Sits(w.cfg.inventory, dimension, value, id) ==>
               Total(w.ro.stages, Along(w.cfg.inventory, dimension, value)) < limit
    ensures TickBounded(w, s, now, dimension, value, limit)
  {
    hide PlanDispatch, DispatchStage, BatchFits, Admits, After;
    var batch := PlanDispatch(w.ro.stages, w.ro.stages[s], w.cfg);
    var before := Total(w.ro.stages, Along(w.cfg.inventory, dimension, value));
    var planned := Planned(batch, w.cfg.inventory, dimension, value);
    PlanAdmits(w.ro.stages, w.ro.stages[s], w.cfg);
    LandedIsPlanned(batch, 0, Always(), w.cfg.inventory, dimension, value);
    if planned > 0 {
      var k :| 0 <= k < |batch| && Sits(w.cfg.inventory, dimension, value, batch[k].target);
      assert Admits(w.ro.stages, w.ro.stages[s], w.cfg.inventory, batch[k].target);
    }
    forall accept
      ensures before <= After(w, s, now, accept, dimension, value) <= before + planned
      ensures After(w, s, now, Always(), dimension, value) == before + planned
    {
      AfterIs(w, s, now, accept, dimension, value);
    }
    hide Planned, Total, Landed;
    AfterIs(w, s, now, Always(), dimension, value);
  }

  lemma PlanOfEnduring(env: Env, w: World, s: nat)
    requires Enduring(env, w) && w.HasStage(s) && s == w.ro.cursor
    requires w.ro.state.AdmitsDispatch() && w.ro.stages[s].state.StRunning?
    ensures BatchFits(w.ro, s, PlanDispatch(w.ro.stages, w.ro.stages[s], w.cfg))
  {
    EnduringIsSolid(env, w);
    PlanFits(w, s);
    hide PlanDispatch, BatchFits, Enduring, Solid;
  }

  /**
   * Entries of one batch do not see each other, so the limits per failure domain, rack, pod and site bind the
   * single admission: one tick is sure to keep a limit if and only if its plan does.
   */
  lemma DimensionLimitsHoldIff(env: Env, w: World, s: nat, now: int, value: nat)
    requires Enduring(env, w) && w.HasStage(s) && s == w.ro.cursor && w.cfg.hasExecution
    requires w.ro.state.AdmitsDispatch() && w.ro.stages[s].state.StRunning?
    ensures var radius := w.ro.stages[s].policy.radius;
            && TickBounded(w, s, now, DomainOf, value, radius.perDomain)
            && (value != 0 ==>
                  && TickBounded(w, s, now, RackOf, value, radius.perRack)
                  && TickBounded(w, s, now, PodOf, value, radius.perPod)
                  && TickBounded(w, s, now, SiteOf, value, radius.perSite))
  {
    PlanOfEnduring(env, w, s);
    hide DispatchStage, PlanDispatch, Enduring, BatchFits, TickBounded;
    var stages, st, radius := w.ro.stages, w.ro.stages[s], w.ro.stages[s].policy.radius;
    forall id | Admits(stages, st, w.cfg.inventory, id)
      ensures Sits(w.cfg.inventory, DomainOf, value, id) ==>
                Total(stages, Along(w.cfg.inventory, DomainOf, value)) < radius.perDomain
      ensures value != 0 && Sits(w.cfg.inventory, RackOf, value, id) ==>
                Total(stages, Along(w.cfg.inventory, RackOf, value)) < radius.perRack
      ensures value != 0 && Sits(w.cfg.inventory, PodOf, value, id) ==>
                Total(stages, Along(w.cfg.inventory, PodOf, value)) < radius.perPod
      ensures value != 0 && Sits(w.cfg.inventory, SiteOf, value, id) ==>
                Total(stages, Along(w.cfg.inventory, SiteOf, value)) < radius.perSite
    {
      AdmissionLeavesRoom(stages, st, w.cfg.inventory, id);
    }
    DimensionIsBounded(w, s, now, DomainOf, value, radius.perDomain);
    if value != 0 {
      DimensionIsBounded(w, s, now, RackOf, value, radius.perRack);
      DimensionIsBounded(w, s, now, PodOf, value, radius.perPod);
      DimensionIsBounded(w, s, now, SiteOf, value, radius.perSite);
    }
  }

  // ----- how many domains at once -----

  /** The failure domains a plan touches. */
  function PlannedDomains(batch: seq<Entry>, inventory: map<nat, Placement>): set<nat> {
    set k | 0 <= k < |batch| && batch[k].target in inventory :: inventory[batch[k].target].domain
  }

  function DomainsAfter(w: World, s: nat, now: int, accept: nat -> bool): set<nat>
    requires w.HasStage(s)
  {
    DomainsIn(DispatchStage(w, s, now, accept).ro.stages, w.cfg.inventory)
  }

  /** A tick adds domains of its plan only, and all of them if everything is accepted. */
  lemma DomainsGrow(w: World, s: nat, now: int, accept: nat -> bool)
    requires Plannable(w, s)
    ensures var batch := PlanDispatch(w.ro.stages, w.ro.stages[s], w.cfg);
            var most := DomainsIn(w.ro.stages, w.cfg.inventory) + PlannedDomains(batch, w.cfg.inventory);
            DomainsAfter(w, s, now, accept) <= most && DomainsAfter(w, s, now, Always()) == most
  {
    hide PlanDispatch, DispatchStage, BatchFits, DomainsIn;
    var inventory, batch := w.cfg.inventory, PlanDispatch(w.ro.stages, w.ro.stages[s], w.cfg);
    DomainsAreThose(w.ro.stages, inventory, Placement(0, 0, 0, 0));
    DomainsAreThose(DispatchStage(w, s, now, accept).ro.stages, inventory, Placement(0, 0, 0, 0));
    DomainsAreThose(DispatchStage(w, s, now, Always()).ro.stages, inventory, Placement(0, 0, 0, 0));
    forall d: nat
      ensures d in DomainsAfter(w, s, now, accept) ==>
                d in DomainsIn(w.ro.stages, inventory) || d in PlannedDomains(batch, inventory)
      ensures d in DomainsAfter(w, s, now, Always()) <==>
                d in DomainsIn(w.ro.stages, inventory) || d in PlannedDomains(batch, inventory)
    {
      AfterIs(w, s, now, accept, DomainOf, d);
      LandedIsPlanned(batch, 0, accept, inventory, DomainOf, d);
      PlannedThere(batch, inventory, d);
    }
  }

  lemma PlannedThere(batch: seq<Entry>, inventory: map<nat, Placement>, d: nat)
    ensures d in PlannedDomains(batch, inventory) <==>
            exists k :: 0 <= k < |batch| && Sits(inventory, DomainOf, d, batch[k].target)
  {
    if k :| 0 <= k < |batch| && Sits(inventory, DomainOf, d, batch[k].target) {
      assert inventory[batch[k].target].domain == d;
    }
    if d in PlannedDomains(batch, inventory) {
      var k :| 0 <= k < |batch| && batch[k].target in inventory && inventory[batch[k].target].domain == d;
      assert Sits(inventory, DomainOf, d, batch[k].target);
    }
  }

  lemma SmallerSet(a: set<nat>, b: set<nat>)
    requires a <= b
    ensures |a| <= |b|
  {
    assert b == a + (b - a);
  }

  /**
   * The limit on failure domains changing at the same time is judged per admission too: one tick is sure to keep
   * it if and only if the domains changing already and the planned ones together do; a plan of one entry does.
   */
  lemma DomainCountHoldsIff(env: Env, w: World, s: nat, now: int)
    requires Enduring(env, w) && w.HasStage(s) && s == w.ro.cursor && w.cfg.hasExecution
    requires w.ro.state.AdmitsDispatch() && w.ro.stages[s].state.StRunning?
    ensures var limit, inventory := w.ro.stages[s].policy.radius.domains, w.cfg.inventory;
            var batch := PlanDispatch(w.ro.stages, w.ro.stages[s], w.cfg);
            var before, planned := DomainsIn(w.ro.stages, inventory), PlannedDomains(batch, inventory);
            && ((forall accept :: |DomainsAfter(w, s, now, accept)| <= limit) <==> |before + planned| <= limit)
            && (|before| >= limit ==> planned <= before)
            && (|before| <= limit && |batch| <= 1 ==> |before + planned| <= limit)
  {
    PlanOfEnduring(env, w, s);
    hide Enduring, PlanDispatch, DispatchStage, BatchFits, DomainsIn, DomainsAfter, Admits;
    var limit, inventory := w.ro.stages[s].policy.radius.domains, w.cfg.inventory;
    var batch := PlanDispatch(w.ro.stages, w.ro.stages[s], w.cfg);
    var before, planned := DomainsIn(w.ro.stages, inventory), PlannedDomains(batch, inventory);
    forall accept
      ensures |DomainsAfter(w, s, now, accept)| <= |before + planned|
      ensures DomainsAfter(w, s, now, Always()) == before + planned
    {
      DomainsGrow(w, s, now, accept);
      SmallerSet(DomainsAfter(w, s, now, accept), before + planned);
    }
    DomainsGrow(w, s, now, Always());
    PlanAdmits(w.ro.stages, w.ro.stages[s], w.cfg);
    forall k | 0 <= k < |batch|
      ensures batch[k].target in inventory
      ensures inventory[batch[k].target].domain in before || |before| < limit
    {
      AdmissionLeavesRoom(w.ro.stages, w.ro.stages[s], inventory, batch[k].target);
      AdmittedIsListed(w.ro.stages, w.ro.stages[s], inventory, batch[k].target);
    }
    if |batch| == 1 {
      assert planned == {inventory[batch[0].target].domain};
    }
  }

  lemma AdmittedIsListed(stages: seq<Stage>, stage: Stage, inventory: map<nat, Placement>, candidate: nat)
    requires Admits(stages, stage, inventory, candidate)
    ensures candidate in inventory
  {
  }

  // ----- a batch that overruns -----

  function Idle(id: nat): Target {
    Target(id, Pending, 0, 0, 0, 0, 0, 0, 0, false, 0, 0, 0, false, 0, 0, false, 0, OutInconclusive, 0)
  }

  /** Two pending targets and room for ten, but for so many only in any failure domain, and in so many domains. */
  function Pair(perDomain: nat, domains: nat): Stage {
    var all := Ratio(1, 1);
    var radius := BlastRadius(10, 10, perDomain, 10, 10, 10, domains);
    var policy := Policy(10, all, 0, all, 0, false, HealthGatePolicy(false, 0, 0, 0, all, 0, all),
                         EvidenceGatePolicy(Automatic, 0, 0, 0, 0, all, false), Automatic, Automatic, radius,
                         10, 3, 0, LetFinish, false, [], true);
    Stage(1, StRunning, [], policy, false, [Action(1, Primary)], true, [Idle(1), Idle(2)], 0,
          0, 0, 0, 0, 0, 0, 0, false, 0, 0, EntryGate)
  }

  function PairIn(domain: nat, other: nat): Config {
    Config(10, 10, 0, 0, 1, true, false, 0, map[1 := Placement(domain, 0, 0, 0), 2 := Placement(other, 0, 0, 0)])
  }

  /** The planner admits both targets whatever they share, as long as each alone would be admitted. */
  lemma PairIsPlanned(perDomain: nat, domains: nat, domain: nat, other: nat)
    requires perDomain >= 1 && domains >= 1
    ensures var st, cfg := Pair(perDomain, domains), PairIn(domain, other);
            && PlanDispatch([st], st, cfg) == [Entry(1, 1, 1), Entry(2, 1, 1)]
            && (forall d :: Total([st], Along(cfg.inventory, DomainOf, d)) == 0)
  {
    var st, cfg := Pair(perDomain, domains), PairIn(domain, other);
    var stages, ts := [st], st.targets;
    CountNone(ts, IsChanging);
    CountNone(ts, IsAttempted);
    ChangingCountZero(stages);
    forall d ensures Total(stages, Along(cfg.inventory, DomainOf, d)) == 0 {
      CountNone(ts, Along(cfg.inventory, DomainOf, d));
      assert stages[1..] == [] && Total([], Along(cfg.inventory, DomainOf, d)) == 0;
    }
    BothWalk(perDomain, domains, domain, other);
  }

  /** Two targets of one failure domain are planned although its limit is one. */
  lemma DomainLimitIsOverrun()
    ensures var st, cfg := Pair(1, 10), PairIn(7, 7);
            && st.policy.radius.perDomain == 1 && Total([st], Along(cfg.inventory, DomainOf, 7)) == 0
            && Planned(PlanDispatch([st], st, cfg), cfg.inventory, DomainOf, 7) == 2
  {
    PairIsPlanned(1, 10, 7, 7);
    hide PlanDispatch, Total;
    var batch := [Entry(1, 1, 1), Entry(2, 1, 1)];
    assert batch[1..] == [Entry(2, 1, 1)] && batch[1..][1..] == [];
  }

  /** Targets of two failure domains are planned although only one domain may change at a time. */
  lemma DomainCountIsOverrun()
    ensures var st, cfg := Pair(10, 1), PairIn(7, 8);
            && st.policy.radius.domains == 1 && DomainsIn([st], cfg.inventory) == {}
            && PlannedDomains(PlanDispatch([st], st, cfg), cfg.inventory) == {7, 8}
  {
    var st, cfg := Pair(10, 1), PairIn(7, 8);
    PairIsPlanned(10, 1, 7, 8);
    DomainsAreThose([st], cfg.inventory, Placement(0, 0, 0, 0));
    hide PlanDispatch, Total, DomainsIn;
    PlannedThere([Entry(1, 1, 1), Entry(2, 1, 1)], cfg.inventory, 7);
    PlannedThere([Entry(1, 1, 1), Entry(2, 1, 1)], cfg.inventory, 8);
    assert Sits(cfg.inventory, DomainOf, 7, [Entry(1, 1, 1), Entry(2, 1, 1)][0].target);
    assert Sits(cfg.inventory, DomainOf, 8, [Entry(1, 1, 1), Entry(2, 1, 1)][1].target);
  }

  lemma BothWalk(perDomain: nat, domains: nat, domain: nat, other: nat)
    requires perDomain >= 1 && domains >= 1
    ensures var st, cfg := Pair(perDomain, domains), PairIn(domain, other);
            Walk(st, Admission([st], st, cfg.inventory), 10, 0, [], 0) == [Entry(1, 1, 1), Entry(2, 1, 1)]
  {
    hide Admits;
    var st, cfg := Pair(perDomain, domains), PairIn(domain, other);
    var admits := Admission([st], st, cfg.inventory);
    IdleAdmits(perDomain, domains, domain, other, 1);
    IdleAdmits(perDomain, domains, domain, other, 2);
    var one, two := EntryFor(st.targets[0]), EntryFor(st.targets[1]);
    assert [] + [one] == [one] && [one] + [two] == [one, two];
    assert Walk(st, admits, 10, 2, [one, two], 2) == [one, two];
    assert Walk(st, admits, 10, 1, [one], 1) == [one, two];
  }

  lemma IdleAdmits(perDomain: nat, domains: nat, domain: nat, other: nat, id: nat)
    requires perDomain >= 1 && domains >= 1 && (id == 1 || id == 2)
    ensures Admits([Pair(perDomain, domains)], Pair(perDomain, domains), PairIn(domain, other).inventory, id)
  {
    var st, cfg := Pair(perDomain, domains), PairIn(domain, other);
    var stages, ts, c := [st], st.targets, cfg.inventory[id];
    CountNone(ts, IsChanging);
    ChangingCountZero(stages);
    assert ts[1..] == [Idle(2)] && ts[1..][1..] == [] && stages[1..] == [];
    assert UsageOf(NO_USAGE, [], cfg.inventory, c) == NO_USAGE;
    assert UsageOf(NO_USAGE, ts[1..], cfg.inventory, c) == NO_USAGE;
    assert UsageOf(NO_USAGE, ts, cfg.inventory, c) == NO_USAGE;
    assert UsageAround(NO_USAGE, [], cfg.inventory, c) == NO_USAGE;
    assert UsageAround(NO_USAGE, stages, cfg.inventory, c) == NO_USAGE;
  }
}
