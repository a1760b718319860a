/** The execution order of a plan: a deterministic topological order, or the reason there is none. */
module PlanOrder {

  /** Identifiers are compared like the numbers that stand for them. */
  datatype Spec = Spec(id: nat, ordinal: nat, predecessors: seq<nat>)

  datatype Ordering =
    | Ordered(order: seq<nat>)
    | SharedIdentifier
    | SelfPredecessor
    | UnknownPredecessor
    | Cyclic

  // ----- what an order has to be -----

  ghost predicate DistinctIds(specs: seq<Spec>) {
    forall i, j :: 0 <= i < j < |specs| ==> specs[i].id != specs[j].id
  }

  ghost predicate Known(specs: seq<Spec>, id: nat) {
    exists i :: 0 <= i < |specs| && specs[i].id == id
  }

  ghost predicate ClosedGraph(specs: seq<Spec>) {
    forall i, k :: 0 <= i < |specs| && 0 <= k < |specs[i].predecessors| ==>
      specs[i].predecessors[k] != specs[i].id && Known(specs, specs[i].predecessors[k])
  }

  predicate Less(a: Spec, b: Spec) {
    if a.ordinal != b.ordinal then a.ordinal < b.ordinal else a.id < b.id
  }

  /** Not yet placed, and every predecessor is. */
  predicate Available(sp: Spec, placed: seq<nat>) {
    sp.id !in placed && forall k :: 0 <= k < |sp.predecessors| ==> sp.predecessors[k] in placed
  }

  /** The available stage that comes before every other available one. */
  ghost predicate Foremost(specs: seq<Spec>, sp: Spec, placed: seq<nat>) {
    && sp in specs && Available(sp, placed)
    && (forall other :: other in specs && Available(other, placed) ==> other == sp || Less(sp, other))
  }

  ghost predicate Chosen(specs: seq<Spec>, order: seq<nat>, k: nat)
    requires k < |order|
  {
    exists sp :: Foremost(specs, sp, order[..k]) && sp.id == order[k]
  }

  /** At every position the foremost available stage was chosen. */
  ghost predicate Greedy(specs: seq<Spec>, order: seq<nat>) {
    forall k :: 0 <= k < |order| ==> Chosen(specs, order, k)
  }

  ghost predicate SameStages(specs: seq<Spec>, specs': seq<Spec>) {
    forall sp :: sp in specs <==> sp in specs'
  }

  // ----- the order depends only on the set of stages -----

  lemma ForemostIsOne(specs: seq<Spec>, specs': seq<Spec>, a: Spec, b: Spec, placed: seq<nat>)
    requires SameStages(specs, specs') && Foremost(specs, a, placed) && Foremost(specs', b, placed)
    ensures a == b
  {
  }

  lemma {:induction false} GreedyAgrees(specs: seq<Spec>, order: seq<nat>, specs': seq<Spec>, order': seq<nat>, n: nat)
    requires SameStages(specs, specs') && Greedy(specs, order) && Greedy(specs', order')
    requires n <= |order| && n <= |order'|
    ensures order[..n] == order'[..n]
  {
    if n > 0 {
      GreedyAgrees(specs, order, specs', order', n - 1);
      var k := n - 1;
      assert Chosen(specs, order, k) && Chosen(specs', order', k);
      var a :| Foremost(specs, a, order[..k]) && a.id == order[k];
      var b :| Foremost(specs', b, order'[..k]) && b.id == order'[k];
      ForemostIsOne(specs, specs', a, b, order[..k]);
      assert order[..n] == order[..k] + [order[k]] && order'[..n] == order'[..k] + [order'[k]];
    }
  }

  // ----- cycles -----

  /** Stage `i` must come before stage `j`. */
  predicate Edge(specs: seq<Spec>, i: nat, j: nat) {
    i < |specs| && j < |specs| && specs[i].id in specs[j].predecessors
  }

  predicate EdgeAt(specs: seq<Spec>, p: seq<nat>, k: nat)
    requires k + 1 < |p|
  {
    Edge(specs, p[k], p[k + 1])
  }

  ghost predicate Path(specs: seq<Spec>, p: seq<nat>) {
    forall k :: 0 <= k < |p| - 1 ==> EdgeAt(specs, p, k)
  }

  ghost predicate HasCycle(specs: seq<Spec>) {
    exists p: seq<nat> :: |p| >= 2 && p[0] == p[|p| - 1] && Path(specs, p)
  }

  /** Where an identifier stands in an order. */
  function Position(order: seq<nat>, id: nat): (k: nat)
    ensures k <= |order|
    ensures id in order ==> k < |order| && order[k] == id
  {
    if order == [] then 0 else if order[0] == id then 0 else 1 + Position(order[1..], id)
  }

  ghost predicate PredecessorsFirst(specs: seq<Spec>, order: seq<nat>) {
    forall i: nat, j: nat :: Edge(specs, i, j) ==>
      Position(order, specs[i].id) < Position(order, specs[j].id)
  }

  lemma {:induction false} PathRises(specs: seq<Spec>, order: seq<nat>, p: seq<nat>)
    requires PredecessorsFirst(specs, order) && Path(specs, p) && |p| >= 2
    ensures p[0] < |specs| && p[|p| - 1] < |specs|
    ensures Position(order, specs[p[0]].id) < Position(order, specs[p[|p| - 1]].id)
  {
    var n := |p| - 1;
    assert EdgeAt(specs, p, n - 1);
    if n > 1 {
      forall k | 0 <= k < |p[..n]| - 1 ensures EdgeAt(specs, p[..n], k) {
        assert EdgeAt(specs, p, k);
      }
      PathRises(specs, order, p[..n]);
    }
  }

  /** A graph with an order that puts predecessors first has no cycle. */
  lemma OrderedIsAcyclic(specs: seq<Spec>, order: seq<nat>)
    requires PredecessorsFirst(specs, order)
    ensures !HasCycle(specs)
  {
    if HasCycle(specs) {
      var p: seq<nat> :| |p| >= 2 && p[0] == p[|p| - 1] && Path(specs, p);
      PathRises(specs, order, p);
    }
  }

  /** Stage `j` waits for one of these. */
  ghost predicate WaitsFor(specs: seq<Spec>, left: set<nat>, j: nat) {
    exists i: nat :: i in left && Edge(specs, i, j)
  }

  /** Every one of these stages waits for another of them. */
  ghost predicate Stuck(specs: seq<Spec>, left: set<nat>) {
    forall j: nat {:trigger WaitsFor(specs, left, j)} :: j in left ==> WaitsFor(specs, left, j)
  }

  /** Walking back along predecessors among stuck stages. */
  lemma {:induction false} WalkBack(specs: seq<Spec>, left: set<nat>, j: nat, n: nat) returns (p: seq<nat>)
    requires Stuck(specs, left) && j in left
    ensures |p| == n + 1 && Path(specs, p) && p[n] == j && forall k :: 0 <= k <= n ==> p[k] in left
    decreases n
  {
    if n == 0 {
      p := [j];
    } else {
      assert WaitsFor(specs, left, j);
      var i: nat :| i in left && Edge(specs, i, j);
      var q := WalkBack(specs, left, i, n - 1);
      p := q + [j];
      forall k | 0 <= k < |p| - 1 ensures EdgeAt(specs, p, k) {
        if k < n - 1 { assert EdgeAt(specs, q, k); }
      }
    }
  }

  lemma {:induction false} Repeats(p: seq<nat>, left: set<nat>) returns (a: nat, b: nat)
    requires |p| > |left| && forall k :: 0 <= k < |p| ==> p[k] in left
    ensures a < b < |p| && p[a] == p[b]
    decreases |p|
  {
    var n := |p| - 1;
    if k :| 0 <= k < n && p[k] == p[n] {
      a, b := k, n;
    } else {
      var rest := left - {p[n]};
      forall k | 0 <= k < n ensures p[..n][k] in rest {
      }
      a, b := Repeats(p[..n], rest);
    }
  }

  lemma StuckHasCycle(specs: seq<Spec>, left: set<nat>)
    requires Stuck(specs, left) && left != {}
    ensures HasCycle(specs)
  {
    var j :| j in left;
    var p := WalkBack(specs, left, j, |left|);
    var a, b := Repeats(p, left);
    var c := p[a..b + 1];
    forall k | 0 <= k < |c| - 1 ensures EdgeAt(specs, c, k) {
      assert EdgeAt(specs, p, a + k);
    }
    assert Path(specs, c);
  }

  // ----- counting unplaced predecessors -----

  function Occurrences(s: seq<nat>, x: nat): nat {
    if s == [] then 0 else Occurrences(s[..|s| - 1], x) + (if s[|s| - 1] == x then 1 else 0)
  }

  function Unplaced(predecessors: seq<nat>, placed: seq<nat>): nat {
    if predecessors == [] then 0
    else Unplaced(predecessors[..|predecessors| - 1], placed) +
         (if predecessors[|predecessors| - 1] in placed then 0 else 1)
  }

  lemma {:induction false} UnplacedNone(predecessors: seq<nat>, placed: seq<nat>)
    ensures Unplaced(predecessors, placed) == 0 <==>
            forall k :: 0 <= k < |predecessors| ==> predecessors[k] in placed
  {
    if predecessors != [] {
      var n := |predecessors| - 1;
      UnplacedNone(predecessors[..n], placed);
      assert forall k :: 0 <= k < n ==> predecessors[..n][k] == predecessors[k];
    }
  }

  lemma {:induction false} PlaceOne(predecessors: seq<nat>, placed: seq<nat>, id: nat)
    requires id !in placed
    ensures Unplaced(predecessors, placed) == Unplaced(predecessors, placed + [id]) + Occurrences(predecessors, id)
  {
    if predecessors != [] {
      PlaceOne(predecessors[..|predecessors| - 1], placed, id);
    }
  }

  lemma {:induction false} OccursIff(s: seq<nat>, x: nat)
    ensures Occurrences(s, x) > 0 <==> x in s
  {
    if s != [] {
      OccursIff(s[..|s| - 1], x);
      assert s == s[..|s| - 1] + [s[|s| - 1]];
    }
  }

  lemma {:induction false} OccursInFront(s: seq<nat>, n: nat, x: nat)
    requires n <= |s|
    ensures Occurrences(s[..n], x) <= Occurrences(s, x)
  {
    if n < |s| {
      OccursInFront(s[..|s| - 1], n, x);
      assert s[..|s| - 1][..n] == s[..n];
    } else {
      assert s[..n] == s;
    }
  }

  lemma OccursStep(s: seq<nat>, n: nat, x: nat)
    requires n < |s|
    ensures Occurrences(s[..n + 1], x) == Occurrences(s[..n], x) + (if s[n] == x then 1 else 0)
  {
    assert s[..n + 1][..n] == s[..n];
  }

  // ----- sorting the ready stages -----

  ghost predicate Indices(specs: seq<Spec>, s: seq<nat>) {
    && (forall a :: 0 <= a < |s| ==> s[a] < |specs|)
    && (forall a, b :: 0 <= a < b < |s| ==> s[a] != s[b])
  }

  ghost predicate Ascending(specs: seq<Spec>, s: seq<nat>) {
    && Indices(specs, s)
    && (forall a, b :: 0 <= a < b < |s| ==> Less(specs[s[a]], specs[s[b]]))
  }

  /** Puts one stage in its place among ascending ones. */
  method Insert(specs: seq<Spec>, s: seq<nat>, x: nat) returns (r: seq<nat>)
    requires DistinctIds(specs) && Ascending(specs, s) && x < |specs| && x !in s
    ensures Ascending(specs, r) && forall y :: y in r <==> y == x || y in s
  {
    var at := 0;
    while at < |s| && Less(specs[s[at]], specs[x])
      invariant at <= |s|
      invariant forall a :: 0 <= a < at ==> Less(specs[s[a]], specs[x])
    {
      at := at + 1;
    }
    r := s[..at] + [x] + s[at..];
    InsertedAt(specs, s, x, at);
  }

  lemma LessChains(a: Spec, b: Spec, c: Spec)
    requires Less(a, b) && Less(b, c)
    ensures Less(a, c)
  {
  }

  lemma InsertedAt(specs: seq<Spec>, s: seq<nat>, x: nat, at: nat)
    requires DistinctIds(specs) && Ascending(specs, s) && x < |specs| && x !in s && at <= |s|
    requires forall a :: 0 <= a < at ==> Less(specs[s[a]], specs[x])
    requires at < |s| ==> !Less(specs[s[at]], specs[x])
    ensures var r := s[..at] + [x] + s[at..];
            Ascending(specs, r) && forall y :: y in r <==> y == x || y in s
  {
    forall a | at <= a < |s| ensures Less(specs[x], specs[s[a]]) {
      assert s[at] != x && specs[s[at]].id != specs[x].id;
      assert Less(specs[x], specs[s[at]]);
      if a > at { LessChains(specs[x], specs[s[at]], specs[s[a]]); }
    }
    hide Less;
    assert s == s[..at] + s[at..];
  }

  method Sort(specs: seq<Spec>, s: seq<nat>) returns (r: seq<nat>)
    requires DistinctIds(specs) && Indices(specs, s)
    ensures Ascending(specs, r) && forall y :: y in r <==> y in s
  {
    r := [];
    for i := 0 to |s|
      invariant Ascending(specs, r)
      invariant forall y :: y in r <==> y in s[..i]
    {
      assert s[..i + 1] == s[..i] + [s[i]];
      r := Insert(specs, r, s[i]);
    }
    assert s[..|s|] == s;
  }

  // ----- the dependency graph -----

  /** The predecessors of stage `j` recorded so far: all before stage `i`, the first `k` of stage `i`. */
  function Recorded(specs: seq<Spec>, j: nat, i: nat, k: nat): seq<nat>
    requires j < |specs| && (i < |specs| ==> k <= |specs[i].predecessors|)
  {
    if j < i then specs[j].predecessors else if j == i then specs[j].predecessors[..k] else []
  }

  /** Successor lists and indegrees agree with the predecessors recorded so far. */
  ghost predicate Graph(specs: seq<Spec>, successors: seq<seq<nat>>, indegree: seq<nat>, i: nat, k: nat)
    requires i < |specs| ==> k <= |specs[i].predecessors|
  {
    && |successors| == |specs| && |indegree| == |specs|
    && (forall c, a :: 0 <= c < |specs| && 0 <= a < |successors[c]| ==> successors[c][a] < |specs|)
    && (forall j :: 0 <= j < |specs| ==> indegree[j] == |Recorded(specs, j, i, k)|)
    && (forall c, j :: 0 <= c < |specs| && 0 <= j < |specs| ==>
          Occurrences(successors[c], j) == Occurrences(Recorded(specs, j, i, k), specs[c].id))
  }

  lemma OccursAppend(s: seq<nat>, y: nat, x: nat)
    ensures Occurrences(s + [y], x) == Occurrences(s, x) + (if y == x then 1 else 0)
  {
    assert (s + [y])[..|s|] == s;
  }

  lemma RecordEdge(specs: seq<Spec>, successors: seq<seq<nat>>, indegree: seq<nat>, i: nat, k: nat, found: nat)
    requires DistinctIds(specs) && i < |specs| && k < |specs[i].predecessors|
    requires Graph(specs, successors, indegree, i, k)
    requires found < |specs| && specs[found].id == specs[i].predecessors[k]
    ensures Graph(specs, successors[found := successors[found] + [i]], indegree[i := indegree[i] + 1], i, k + 1)
  {
    var successors' := successors[found := successors[found] + [i]];
    forall c, j | 0 <= c < |specs| && 0 <= j < |specs|
      ensures Occurrences(successors'[c], j) == Occurrences(Recorded(specs, j, i, k + 1), specs[c].id)
    {
      assert Occurrences(successors[c], j) == Occurrences(Recorded(specs, j, i, k), specs[c].id);
      OccursAppend(successors[found], i, j);
      OccursStep(specs[i].predecessors, k, specs[c].id);
      assert c != found ==> specs[c].id != specs[found].id;
    }
  }

  lemma NextStage(specs: seq<Spec>, successors: seq<seq<nat>>, indegree: seq<nat>, i: nat)
    requires i < |specs| && Graph(specs, successors, indegree, i, |specs[i].predecessors|)
    ensures Graph(specs, successors, indegree, i + 1, 0)
  {
    forall j | 0 <= j < |specs|
      ensures Recorded(specs, j, i + 1, 0) == Recorded(specs, j, i, |specs[i].predecessors|)
    {
    }
    forall c, j | 0 <= c < |specs| && 0 <= j < |specs|
      ensures Occurrences(successors[c], j) == Occurrences(Recorded(specs, j, i + 1, 0), specs[c].id)
    {
      assert Recorded(specs, j, i + 1, 0) == Recorded(specs, j, i, |specs[i].predecessors|);
    }
  }

  predicate Refused(r: Ordering) { r.SelfPredecessor? || r.UnknownPredecessor? }

  ghost predicate SelfNamed(specs: seq<Spec>) {
    exists i, k :: 0 <= i < |specs| && 0 <= k < |specs[i].predecessors| && specs[i].predecessors[k] == specs[i].id
  }

  ghost predicate UnknownNamed(specs: seq<Spec>) {
    exists i, k :: 0 <= i < |specs| && 0 <= k < |specs[i].predecessors| && !Known(specs, specs[i].predecessors[k])
  }

  method Probe(specs: seq<Spec>, id: nat) returns (found: nat)
    ensures found <= |specs| && (found < |specs| ==> specs[found].id == id)
    ensures found == |specs| ==> !Known(specs, id)
  {
    found := 0;
    while found < |specs| && specs[found].id != id
      invariant found <= |specs| && forall i :: 0 <= i < found ==> specs[i].id != id
    {
      found := found + 1;
    }
  }

  /** Records the predecessors of one stage, or finds the first that cannot be. */
  method RecordStage(specs: seq<Spec>, i: nat, successors: seq<seq<nat>>, indegree: seq<nat>)
    returns (fault: Ordering, successors': seq<seq<nat>>, indegree': seq<nat>)
    requires DistinctIds(specs) && i < |specs| && Graph(specs, successors, indegree, i, 0)
    ensures fault.SelfPredecessor? ==> SelfNamed(specs)
    ensures fault.UnknownPredecessor? ==> UnknownNamed(specs)
    ensures !Refused(fault) ==>
              && Graph(specs, successors', indegree', i + 1, 0)
              && forall k :: 0 <= k < |specs[i].predecessors| ==>
                   specs[i].predecessors[k] != specs[i].id && Known(specs, specs[i].predecessors[k])
  {
    fault, successors', indegree' := Cyclic, successors, indegree;
    for k := 0 to |specs[i].predecessors|
      invariant !Refused(fault) && Graph(specs, successors', indegree', i, k)
      invariant forall a :: 0 <= a < k ==>
                  specs[i].predecessors[a] != specs[i].id && Known(specs, specs[i].predecessors[a])
    {
      var predecessor := specs[i].predecessors[k];
      if predecessor == specs[i].id {
        fault := SelfPredecessor;
        return;
      }
      var found := Probe(specs, predecessor);
      if found == |specs| {
        fault := UnknownPredecessor;
        return;
      }
      RecordEdge(specs, successors', indegree', i, k, found);
      successors' := successors'[found := successors'[found] + [i]];
      indegree' := indegree'[i := indegree'[i] + 1];
    }
    NextStage(specs, successors', indegree', i);
  }

  method BuildGraph(specs: seq<Spec>) returns (fault: Ordering, successors: seq<seq<nat>>, indegree: seq<nat>)
    requires DistinctIds(specs)
    ensures fault.SelfPredecessor? ==> SelfNamed(specs)
    ensures fault.UnknownPredecessor? ==> UnknownNamed(specs)
    ensures !Refused(fault) ==> ClosedGraph(specs) && Graph(specs, successors, indegree, |specs|, 0)
  {
    fault := Cyclic;
    successors := seq(|specs|, _ => []);
    indegree := seq(|specs|, _ => 0);
    for i := 0 to |specs|
      invariant !Refused(fault) && Graph(specs, successors, indegree, i, 0)
      invariant forall j, k :: 0 <= j < i && 0 <= k < |specs[j].predecessors| ==>
                  specs[j].predecessors[k] != specs[j].id && Known(specs, specs[j].predecessors[k])
    {
      fault, successors, indegree := RecordStage(specs, i, successors, indegree);
      if Refused(fault) {
        return;
      }
    }
  }

  // ----- the worklist -----

  /** Indegrees count the predecessors still to be placed. */
  ghost predicate Waiting(specs: seq<Spec>, indegree: seq<nat>, order: seq<nat>) {
    && |indegree| == |specs|
    && (forall j :: 0 <= j < |specs| ==> indegree[j] == Unplaced(specs[j].predecessors, order))
    && (forall j :: 0 <= j < |specs| && specs[j].id in order ==> indegree[j] == 0)
  }

  /** Exactly the available stages are ready. */
  ghost predicate Readied(specs: seq<Spec>, indegree: seq<nat>, order: seq<nat>, ready: seq<nat>) {
    && |indegree| == |specs|
    && (forall j: nat :: j in ready <==> j < |specs| && specs[j].id !in order && indegree[j] == 0)
  }

  function Left(specs: seq<Spec>, order: seq<nat>): set<nat> {
    set j | 0 <= j < |specs| && specs[j].id !in order
  }

  /** The first ready stage is the foremost available one. */
  lemma FrontIsForemost(specs: seq<Spec>, indegree: seq<nat>, order: seq<nat>, ready: seq<nat>)
    requires Waiting(specs, indegree, order) && Readied(specs, indegree, order, ready)
    requires Ascending(specs, ready) && ready != []
    ensures Foremost(specs, specs[ready[0]], order)
  {
    forall j | 0 <= j < |specs|
      ensures Available(specs[j], order) <==> specs[j].id !in order && indegree[j] == 0
    {
      UnplacedNone(specs[j].predecessors, order);
    }
    assert ready[0] in ready;
    forall other | other in specs && Available(other, order)
      ensures other == specs[ready[0]] || Less(specs[ready[0]], other)
    {
      var j :| 0 <= j < |specs| && specs[j] == other;
      assert j in ready;
      var a :| 0 <= a < |ready| && ready[a] == j;
    }
  }

  lemma GreedyGrows(specs: seq<Spec>, order: seq<nat>, sp: Spec)
    requires Greedy(specs, order) && Foremost(specs, sp, order)
    ensures Greedy(specs, order + [sp.id])
  {
    var longer := order + [sp.id];
    forall k | 0 <= k < |longer| ensures Chosen(specs, longer, k) {
      if k < |order| {
        assert Chosen(specs, order, k) && longer[..k] == order[..k];
      } else {
        assert longer[..k] == order;
      }
    }
  }

  /** How often the successors seen so far name stage `j`, never more than it still waits for. */
  lemma StillWaits(specs: seq<Spec>, successors: seq<seq<nat>>, built: seq<nat>, indegree: seq<nat>,
                   order: seq<nat>, current: nat, k: nat, j: nat)
    requires Graph(specs, successors, built, |specs|, 0) && Waiting(specs, indegree, order)
    requires current < |specs| && specs[current].id !in order && k <= |successors[current]| && j < |specs|
    ensures Occurrences(successors[current][..k], j) <= Occurrences(successors[current], j) <= indegree[j]
    ensures Unplaced(specs[j].predecessors, order + [specs[current].id]) ==
            indegree[j] - Occurrences(successors[current], j)
  {
    assert Recorded(specs, j, |specs|, 0) == specs[j].predecessors;
    assert Occurrences(successors[current], j) == Occurrences(specs[j].predecessors, specs[current].id);
    OccursInFront(successors[current], k, j);
    PlaceOne(specs[j].predecessors, order, specs[current].id);
  }

  /** Takes one placed stage off the indegrees of its successors; those that reach zero become ready. */
  method Release(specs: seq<Spec>, successors: seq<seq<nat>>, ghost built: seq<nat>, indegree: seq<nat>,
                 ghost order: seq<nat>, ready: seq<nat>, current: nat)
    returns (indegree': seq<nat>, ready': seq<nat>)
    requires Graph(specs, successors, built, |specs|, 0) && Waiting(specs, indegree, order)
    requires current < |specs| && specs[current].id !in order && indegree[current] == 0
    requires Indices(specs, ready)
    requires forall j: nat :: j in ready <==> j < |specs| && j != current && specs[j].id !in order && indegree[j] == 0
    ensures |indegree'| == |specs| && Indices(specs, ready')
    ensures forall j :: 0 <= j < |specs| ==> indegree'[j] == indegree[j] - Occurrences(successors[current], j)
    ensures forall j: nat :: j in ready' <==>
              j in ready || (j < |specs| && indegree[j] > 0 && indegree'[j] == 0)
  {
    indegree', ready' := indegree, ready;
    var named := successors[current];
    for k := 0 to |named|
      invariant |indegree'| == |specs| && Indices(specs, ready')
      invariant forall j :: 0 <= j < |specs| ==> indegree'[j] == indegree[j] - Occurrences(named[..k], j)
      invariant forall j: nat :: j in ready' <==> j in ready || (j < |specs| && indegree[j] > 0 && indegree'[j] == 0)
    {
      var successor := named[k];
      forall j | 0 <= j < |specs|
        ensures Occurrences(named[..k + 1], j) == Occurrences(named[..k], j) + (if named[k] == j then 1 else 0)
      {
        OccursStep(named, k, j);
      }
      StillWaits(specs, successors, built, indegree, order, current, k + 1, successor);
      indegree' := indegree'[successor := indegree'[successor] - 1];
      if indegree'[successor] == 0 {
        ready' := ready' + [successor];
      }
    }
    assert named[..|named|] == named;
  }

  lemma ReleasedIsWaiting(specs: seq<Spec>, successors: seq<seq<nat>>, built: seq<nat>, indegree: seq<nat>,
                          order: seq<nat>, current: nat, indegree': seq<nat>)
    requires ClosedGraph(specs) && DistinctIds(specs)
    requires Graph(specs, successors, built, |specs|, 0) && Waiting(specs, indegree, order)
    requires current < |specs| && specs[current].id !in order && indegree[current] == 0
    requires |indegree'| == |specs|
    requires forall j :: 0 <= j < |specs| ==> indegree'[j] == indegree[j] - Occurrences(successors[current], j)
    ensures Waiting(specs, indegree', order + [specs[current].id])
  {
    forall j | 0 <= j < |specs|
      ensures indegree'[j] == Unplaced(specs[j].predecessors, order + [specs[current].id])
    {
      StillWaits(specs, successors, built, indegree, order, current, 0, j);
    }
    forall j | 0 <= j < |specs| && specs[j].id in order + [specs[current].id] ensures indegree'[j] == 0 {
      StillWaits(specs, successors, built, indegree, order, current, 0, j);
      assert specs[j].id in order || j == current;
    }
  }

  lemma NothingPlaced(specs: seq<Spec>, successors: seq<seq<nat>>, indegree: seq<nat>)
    requires Graph(specs, successors, indegree, |specs|, 0)
    ensures Waiting(specs, indegree, [])
  {
    forall j | 0 <= j < |specs| ensures indegree[j] == Unplaced(specs[j].predecessors, []) {
      UnplacedAll(specs[j].predecessors);
    }
  }

  lemma {:induction false} UnplacedAll(predecessors: seq<nat>)
    ensures Unplaced(predecessors, []) == |predecessors|
  {
    if predecessors != [] {
      UnplacedAll(predecessors[..|predecessors| - 1]);
    }
  }

  function UpTo(n: nat): (s: set<nat>)
    ensures |s| == n && forall j: nat :: j in s <==> j < n
  {
    if n == 0 then {} else UpTo(n - 1) + {n - 1}
  }

  method InitialReady(specs: seq<Spec>, indegree: seq<nat>) returns (ready: seq<nat>)
    requires |indegree| == |specs|
    ensures Indices(specs, ready) && Readied(specs, indegree, [], ready)
  {
    ready := [];
    for index := 0 to |specs|
      invariant Indices(specs, ready)
      invariant forall j: nat :: j in ready <==> j < index && indegree[j] == 0
    {
      if indegree[index] == 0 {
        ready := ready + [index];
      }
    }
  }

  /** Every stage once, each the foremost of those available when it was placed. */
  ghost predicate Complete(specs: seq<Spec>, order: seq<nat>) {
    && Greedy(specs, order) && |order| == |specs|
    && (forall sp :: sp in specs ==> sp.id in order)
    && (forall a, b :: 0 <= a < b < |order| ==> order[a] != order[b])
  }

  lemma PlacedTwice(specs: seq<Spec>, order: seq<nat>)
    requires Greedy(specs, order)
    ensures forall a, b :: 0 <= a < b < |order| ==> order[a] != order[b]
  {
    forall a, b | 0 <= a < b < |order| ensures order[a] != order[b] {
      assert Chosen(specs, order, b);
      assert order[a] == order[..b][a];
    }
  }

  lemma {:induction false} PositionIs(order: seq<nat>, k: nat)
    requires k < |order| && forall a :: 0 <= a < k ==> order[a] != order[k]
    ensures Position(order, order[k]) == k
  {
    if k > 0 {
      assert order[1..][k - 1] == order[k];
      PositionIs(order[1..], k - 1);
    }
  }

  lemma {:induction false} PositionBefore(order: seq<nat>, id: nat, n: nat)
    requires n <= |order| && id in order[..n]
    ensures Position(order, id) < n
  {
    if n > 0 && order[0] != id {
      assert order[..n][1..] == order[1..][..n - 1];
      assert id in order[..n][1..];
      PositionBefore(order[1..], id, n - 1);
    }
  }

  lemma CompleteIsTopological(specs: seq<Spec>, order: seq<nat>)
    requires DistinctIds(specs) && Complete(specs, order)
    ensures PredecessorsFirst(specs, order)
  {
    forall i: nat, j: nat | Edge(specs, i, j)
      ensures Position(order, specs[i].id) < Position(order, specs[j].id)
    {
      var k := Position(order, specs[j].id);
      assert specs[j] in specs;
      assert Chosen(specs, order, k);
      var sp :| Foremost(specs, sp, order[..k]) && sp.id == order[k];
      assert sp == specs[j];
      PositionBefore(order, specs[i].id, k);
    }
  }

  /** Stages that are left when nothing is ready wait for each other. */
  lemma NothingReady(specs: seq<Spec>, indegree: seq<nat>, order: seq<nat>)
    requires DistinctIds(specs) && ClosedGraph(specs)
    requires Waiting(specs, indegree, order) && Readied(specs, indegree, order, [])
    ensures Stuck(specs, Left(specs, order))
  {
    forall j: nat | j in Left(specs, order)
      ensures WaitsFor(specs, Left(specs, order), j)
    {
      assert j !in [];
      UnplacedNone(specs[j].predecessors, order);
      var k :| 0 <= k < |specs[j].predecessors| && specs[j].predecessors[k] !in order;
      assert Known(specs, specs[j].predecessors[k]);
      var i :| 0 <= i < |specs| && specs[i].id == specs[j].predecessors[k];
      assert Edge(specs, i, j);
    }
  }

  /** The worklist between two placements. */
  ghost predicate Working(specs: seq<Spec>, indegree: seq<nat>, order: seq<nat>, ready: seq<nat>) {
    && Waiting(specs, indegree, order) && Readied(specs, indegree, order, ready)
    && Ascending(specs, ready) && Greedy(specs, order)
    && |order| + |Left(specs, order)| == |specs|
  }

  lemma PlacingCounts(specs: seq<Spec>, order: seq<nat>, current: nat)
    requires DistinctIds(specs) && current < |specs| && specs[current].id !in order
    requires |order| + |Left(specs, order)| == |specs|
    ensures var longer := order + [specs[current].id];
            |longer| + |Left(specs, longer)| == |specs| && |Left(specs, longer)| < |Left(specs, order)|
  {
    assert Left(specs, order + [specs[current].id]) == Left(specs, order) - {current};
  }

  /** Places the first ready stage. */
  method PlaceNext(specs: seq<Spec>, successors: seq<seq<nat>>, ghost built: seq<nat>, indegree: seq<nat>,
                   order: seq<nat>, ready: seq<nat>)
    returns (indegree': seq<nat>, order': seq<nat>, ready': seq<nat>)
    requires DistinctIds(specs) && ClosedGraph(specs) && Graph(specs, successors, built, |specs|, 0)
    requires Working(specs, indegree, order, ready) && ready != []
    ensures Working(specs, indegree', order', ready')
    ensures |Left(specs, order')| < |Left(specs, order)|
  {
    hide Graph, Greedy, ClosedGraph, Foremost, Occurrences, Less;
    var current, rest := ready[0], ready[1..];
    assert current in ready;
    assert forall j: nat :: j in rest <==> j in ready && j != current;
    FrontIsForemost(specs, indegree, order, ready);
    GreedyGrows(specs, order, specs[current]);
    indegree', ready' := Release(specs, successors, built, indegree, order, rest, current);
    order' := order + [specs[current].id];
    ReleasedIsWaiting(specs, successors, built, indegree, order, current, indegree');
    PlacedReadied(specs, indegree, indegree', order, current, rest, ready');
    PlacingCounts(specs, order, current);
    ready' := Sort(specs, ready');
  }

  /** Places the ready stages one after another until none is left. */
  method PlaceAll(specs: seq<Spec>, successors: seq<seq<nat>>, built: seq<nat>) returns (order: seq<nat>)
    requires DistinctIds(specs) && ClosedGraph(specs) && Graph(specs, successors, built, |specs|, 0)
    ensures Greedy(specs, order) && |order| + |Left(specs, order)| == |specs|
    ensures Stuck(specs, Left(specs, order))
  {
    hide Graph, ClosedGraph, Foremost, Occurrences, Less;
    order := [];
    var indegree := built;
    NothingPlaced(specs, successors, built);
    var ready := InitialReady(specs, indegree);
    ready := Sort(specs, ready);
    assert Left(specs, []) == UpTo(|specs|);
    while ready != []
      invariant Working(specs, indegree, order, ready)
      decreases |Left(specs, order)|
    {
      indegree, order, ready := PlaceNext(specs, successors, built, indegree, order, ready);
    }
    NothingReady(specs, indegree, order);
  }

  lemma PlacedReadied(specs: seq<Spec>, was: seq<nat>, indegree: seq<nat>, order: seq<nat>, current: nat,
                      rest: seq<nat>, ready: seq<nat>)
    requires DistinctIds(specs) && current < |specs| && |was| == |specs| && |indegree| == |specs|
    requires forall j: nat :: j in rest <==> j < |specs| && j != current && specs[j].id !in order && was[j] == 0
    requires forall j: nat :: j in ready <==> j in rest || (j < |specs| && was[j] > 0 && indegree[j] == 0)
    requires forall j :: 0 <= j < |specs| ==> indegree[j] <= was[j]
    requires was[current] == 0
    requires forall j :: 0 <= j < |specs| && specs[j].id in order ==> was[j] == 0
    ensures Readied(specs, indegree, order + [specs[current].id], ready)
  {
    forall j | 0 <= j < |specs|
      ensures specs[j].id in order + [specs[current].id] <==> specs[j].id in order || j == current
    {
    }
  }

  /**
   * A plan is accepted exactly when its identifiers are distinct, every predecessor is another stage of the
   * plan, and the graph has no cycle. The order then holds every stage once, predecessors first.
   */
  method Validate(specs: seq<Spec>) returns (r: Ordering)
    ensures r.Ordered? <==> DistinctIds(specs) && ClosedGraph(specs) && !HasCycle(specs)
    ensures r.Ordered? ==> Complete(specs, r.order) && PredecessorsFirst(specs, r.order)
    ensures r.SharedIdentifier? <==> !DistinctIds(specs)
    ensures r.SelfPredecessor? ==> SelfNamed(specs)
    ensures r.UnknownPredecessor? ==> UnknownNamed(specs)
    ensures r.Cyclic? ==> ClosedGraph(specs) && HasCycle(specs)
  {
    for outer := 0 to |specs|
      invariant forall i, j :: 0 <= i < outer && i < j < |specs| ==> specs[i].id != specs[j].id
    {
      for inner := outer + 1 to |specs|
        invariant forall j :: outer < j < inner ==> specs[outer].id != specs[j].id
      {
        if specs[outer].id == specs[inner].id {
          return SharedIdentifier;
        }
      }
    }
    var fault, successors, indegree := BuildGraph(specs);
    if Refused(fault) {
      return fault;
    }
    var order := PlaceAll(specs, successors, indegree);
    if |order| != |specs| {
      StuckHasCycle(specs, Left(specs, order));
      return Cyclic;
    }
    NoneLeft(specs, order);
    PlacedTwice(specs, order);
    CompleteIsTopological(specs, order);
    OrderedIsAcyclic(specs, order);
    return Ordered(order);
  }

  lemma NoneLeft(specs: seq<Spec>, order: seq<nat>)
    requires |Left(specs, order)| == 0
    ensures forall sp :: sp in specs ==> sp.id in order
  {
    assert Left(specs, order) == {};
    forall sp | sp in specs ensures sp.id in order {
      var j :| 0 <= j < |specs| && specs[j] == sp;
      assert j !in Left(specs, order);
    }
  }

  /** The order depends on the set of stages only, not on how they are declared. */
  lemma OrderIsDetermined(specs: seq<Spec>, order: seq<nat>, specs': seq<Spec>, order': seq<nat>)
    requires SameStages(specs, specs') && |specs| == |specs'|
    requires Complete(specs, order) && Complete(specs', order')
    ensures order == order'
  {
    GreedyAgrees(specs, order, specs', order', |order|);
    assert order[..|order|] == order && order'[..|order'|] == order';
  }
}
