/** Which worker connection carries which attempt: index-keyed routes that survive erasing a connection. */
module Routing {
  import opened Rollouts
  import Exact

  /** `key` stands for the identity of the connection object; zero is the nil worker and incarnation. */
  datatype Connection = Connection(
    key: nat, index: nat, hello: bool, worker: nat, incarnation: nat, capacity: nat, inFlight: nat,
    closed: bool, failed: bool)
  {
    predicate Usable() { hello && !closed && !failed }
  }

  datatype Pending = Pending(request: nat, connection: nat, fences: seq<nat>, answered: bool, unknown: seq<nat>)

  datatype Table = Table(
    connections: seq<Connection>, routes: map<nat, nat>, pending: seq<Pending>, dispatched: nat,
    nextKey: nat, nextRequest: nat, maxWorkers: nat)

  // ----- attach -----

  function NewConnection(key: nat, index: nat): Connection {
    Connection(key, index, false, 0, 0, 0, 0, false, false)
  }

  function Attached(t: Table): Option<Table> {
    if |t.connections| >= t.maxWorkers then None
    else Some(t.(connections := t.connections + [NewConnection(t.nextKey, |t.connections|)], nextKey := t.nextKey + 1))
  }

  // ----- dispatch -----

  predicate Eligible(c: Connection) { c.Usable() && c.inFlight < c.capacity }

  /** The connection `k` places after `start`, wrapping around. */
  predicate EligibleFrom(cs: seq<Connection>, start: nat, k: nat)
    requires |cs| > 0
  {
    Eligible(cs[(start + k) % |cs|])
  }

  /** The first eligible connection from `start` on, wrapping around; or the number of connections. */
  function Pick(cs: seq<Connection>, start: nat, step: nat): (i: nat)
    requires step <= |cs|
    decreases |cs| - step
  {
    if step == |cs| then |cs|
    else if EligibleFrom(cs, start, step) then (start + step) % |cs|
    else Pick(cs, start, step + 1)
  }

  function Chosen(t: Table): nat {
    if |t.connections| == 0 then 0 else Pick(t.connections, t.dispatched % |t.connections|, 0)
  }

  datatype Sent = Queued | Full | Broken

  datatype Outcome = Fenced | Unavailable | Throttled | Accepted

  /** `send` is what handing the frame to the chosen connection comes to. */
  function Dispatched(t: Table, attempt: nat, send: Sent): (Table, Outcome) {
    var t1 := t.(dispatched := t.dispatched + 1);
    var i := Chosen(t1);
    if attempt == 0 then (t1, Fenced)
    else if i >= |t.connections| then (t1, Unavailable)
    else
      match send
      case Queued =>
        var c := t.connections[i];
        (t1.(connections := t.connections[i := c.(inFlight := c.inFlight + 1)], routes := t.routes[attempt := i]),
         Accepted)
      case Full => (t1, Throttled)
      case Broken => (Drop(t1, i), Unavailable)
  }

  // ----- dropping a connection -----

  /**
   * The first usable connection of the same worker and incarnation other than `index`,
   * or the number of connections.
   */
  function Replacement(cs: seq<Connection>, index: nat, from: nat): (r: nat)
    requires index < |cs| && from <= |cs|
    ensures r <= |cs|
    ensures r < |cs| ==>
              r != index && cs[r].Usable() && cs[r].worker == cs[index].worker &&
              cs[r].incarnation == cs[index].incarnation
    ensures r == |cs| ==> forall i :: from <= i < |cs| && i != index && cs[i].Usable() ==>
              !(cs[i].worker == cs[index].worker && cs[i].incarnation == cs[index].incarnation)
    decreases |cs| - from
  {
    if from == |cs| then |cs|
    else if from != index && cs[from].Usable() && cs[from].worker == cs[index].worker &&
            cs[from].incarnation == cs[index].incarnation then from
    else Replacement(cs, index, from + 1)
  }

  /** Where index `i` is after index `gone` has been erased. */
  function Shift(i: nat, gone: nat): nat { if i > gone then i - 1 else i }

  function Erase(cs: seq<Connection>, index: nat): seq<Connection>
    requires index < |cs|
  {
    seq(|cs| - 1, i requires 0 <= i < |cs| - 1 => if i < index then cs[i] else cs[i + 1].(index := i))
  }

  function Reroute(routes: map<nat, nat>, index: nat, replacement: Option<nat>): map<nat, nat> {
    map a | a in routes && (routes[a] != index || replacement.Some?) ::
      if routes[a] == index then replacement.value else Shift(routes[a], index)
  }

  function DropPending(p: Pending, index: nat): Pending {
    if p.connection == index then
      (if p.answered then p else p.(answered := true, unknown := p.unknown + p.fences))
    else p.(connection := Shift(p.connection, index))
  }

  function Drop(t: Table, index: nat): Table {
    if index >= |t.connections| then t
    else
      var cs := t.connections[index := t.connections[index].(closed := true)];
      var r := Replacement(cs, index, 0);
      var replacement := if r == |cs| then None else Some(Shift(r, index));
      t.(connections := Erase(cs, index),
         routes := Reroute(t.routes, index, replacement),
         pending := seq(|t.pending|, i requires 0 <= i < |t.pending| => DropPending(t.pending[i], index)))
  }

  // ----- hello -----

  predicate Superseded(c: Connection, index: nat, worker: nat) { c.index != index && c.hello && c.worker == worker }

  /** A worker that announces itself closes its older connections and starts with nothing in flight. */
  function Hello(t: Table, index: nat, worker: nat, incarnation: nat, capacity: nat, acknowledged: bool): Table {
    if index >= |t.connections| then t
    else if worker == 0 || incarnation == 0 then
      t.(connections := t.connections[index := t.connections[index].(failed := true)])
    else
      var cs := seq(|t.connections|, i requires 0 <= i < |t.connections| =>
                      if Superseded(t.connections[i], t.connections[index].index, worker)
                      then t.connections[i].(closed := true) else t.connections[i]);
      var c := cs[index].(worker := worker, incarnation := incarnation, capacity := capacity, inFlight := 0,
                          hello := true, failed := cs[index].failed || !acknowledged);
      t.(connections := cs[index := c])
  }

  // ----- answers -----

  /** A connection's terminal report, refusal or confirmed stop ends its own route only. */
  function Release(t: Table, index: nat, attempt: nat): Table {
    if index < |t.connections| && attempt in t.routes && t.routes[attempt] == index then
      var c := t.connections[index];
      t.(routes := t.routes - {attempt},
         connections := t.connections[index := c.(inFlight := if c.inFlight > 0 then c.inFlight - 1 else 0)])
    else t
  }

  function Answer(t: Table, request: nat, from: nat): Table
    requires from <= |t.pending|
    decreases |t.pending| - from
  {
    if from == |t.pending| then t
    else if t.pending[from].request == request then
      t.(pending := t.pending[from := t.pending[from].(answered := true)])
    else Answer(t, request, from + 1)
  }

  // ----- invariants -----

  ghost predicate Indexed(cs: seq<Connection>) {
    && (forall i :: 0 <= i < |cs| ==> cs[i].index == i)
    && (forall i, j :: 0 <= i < j < |cs| ==> cs[i].key != cs[j].key)
  }

  /** Two live connections for one worker would double every retry. */
  ghost predicate Distinct(cs: seq<Connection>) {
    forall i, j :: 0 <= i < j < |cs| && cs[i].Usable() && cs[j].Usable() ==> cs[i].worker != cs[j].worker
  }

  ghost predicate Routed(t: Table) {
    && (forall a :: a in t.routes ==> t.routes[a] < |t.connections|)
    && (forall i :: 0 <= i < |t.pending| && !t.pending[i].answered ==> t.pending[i].connection < |t.connections|)
  }

  ghost predicate Inv(t: Table) {
    && Indexed(t.connections) && Distinct(t.connections) && Routed(t)
    && (forall i :: 0 <= i < |t.connections| ==> t.connections[i].key < t.nextKey)
  }

  /** The connection object that carries an attempt. */
  function Carrier(t: Table, attempt: nat): Option<nat>
    requires forall a :: a in t.routes ==> t.routes[a] < |t.connections|
  {
    if attempt in t.routes then Some(t.connections[t.routes[attempt]].key) else None
  }

  // ----- what dropping a connection keeps -----

  lemma ErasedAt(cs: seq<Connection>, index: nat, i: nat)
    requires index < |cs| && i < |cs| && i != index
    ensures Shift(i, index) < |Erase(cs, index)|
    ensures Erase(cs, index)[Shift(i, index)] == cs[i].(index := if i < index then cs[i].index else i - 1)
  {
  }

  lemma EraseIndexed(cs: seq<Connection>, index: nat)
    requires Indexed(cs) && index < |cs|
    ensures Indexed(Erase(cs, index))
  {
    var es := Erase(cs, index);
    forall i, j | 0 <= i < j < |es| ensures es[i].key != es[j].key {
      var i', j' := if i < index then i else i + 1, if j < index then j else j + 1;
      assert es[i].key == cs[i'].key && es[j].key == cs[j'].key;
    }
  }

  lemma EraseDistinct(cs: seq<Connection>, index: nat)
    requires Distinct(cs) && index < |cs|
    ensures Distinct(Erase(cs, index))
  {
    var es := Erase(cs, index);
    forall i, j | 0 <= i < j < |es| && es[i].Usable() && es[j].Usable() ensures es[i].worker != es[j].worker {
      var i', j' := if i < index then i else i + 1, if j < index then j else j + 1;
      assert cs[i'].Usable() && cs[j'].Usable();
    }
  }

  lemma DropRouted(t: Table, index: nat)
    requires Routed(t) && index < |t.connections|
    ensures Routed(Drop(t, index))
  {
    var t' := Drop(t, index);
    forall i | 0 <= i < |t'.pending| && !t'.pending[i].answered
      ensures t'.pending[i].connection < |t'.connections|
    {
      assert t'.pending[i] == DropPending(t.pending[i], index);
    }
  }

  lemma DropKeepsInv(t: Table, index: nat)
    requires Inv(t)
    ensures Inv(Drop(t, index))
  {
    if index < |t.connections| {
      var cs := t.connections[index := t.connections[index].(closed := true)];
      EraseIndexed(cs, index);
      EraseDistinct(cs, index);
      DropRouted(t, index);
    }
  }

  /**
   * Dropping a connection: attempts carried by others stay with the same connection although indices moved;
   * its own go to a usable connection of the same worker and incarnation when there is one, and are
   * forgotten otherwise; no attempt gets a route it did not have.
   */
  lemma DropCarriers(t: Table, index: nat, attempt: nat)
    requires Inv(t) && index < |t.connections|
    ensures Inv(Drop(t, index))
    ensures var t', gone := Drop(t, index), t.connections[index];
            && (attempt !in t.routes ==> attempt !in t'.routes)
            && (attempt in t.routes && t.routes[attempt] != index ==> Carrier(t', attempt) == Carrier(t, attempt))
            && (attempt in t.routes && t.routes[attempt] == index ==>
                  if attempt in t'.routes then
                    var c := t'.connections[t'.routes[attempt]];
                    c.Usable() && c.worker == gone.worker && c.incarnation == gone.incarnation && c.key != gone.key
                  else
                    forall i :: 0 <= i < |t.connections| && i != index && t.connections[i].Usable() ==>
                      !(t.connections[i].worker == gone.worker && t.connections[i].incarnation == gone.incarnation))
  {
    DropKeepsInv(t, index);
    var t' := Drop(t, index);
    var cs := t.connections[index := t.connections[index].(closed := true)];
    var r := Replacement(cs, index, 0);
    if attempt in t.routes {
      if t.routes[attempt] != index {
        ErasedAt(cs, index, t.routes[attempt]);
      } else if r < |cs| {
        ErasedAt(cs, index, r);
      } else {
        assert forall i :: 0 <= i < |t.connections| && i != index ==> cs[i] == t.connections[i];
      }
    }
  }

  /** Unanswered reconciles stay with their connection; those of the dropped one are answered: all unknown. */
  lemma DropPendings(t: Table, index: nat, i: nat)
    requires Inv(t) && index < |t.connections| && i < |t.pending| && !t.pending[i].answered
    ensures |Drop(t, index).pending| == |t.pending|
    ensures var t', p := Drop(t, index), t.pending[i];
            var p' := t'.pending[i];
            && p'.fences == p.fences
            && (if p.connection == index then p'.answered && p'.unknown == p.unknown + p.fences
                else !p'.answered && p'.connection < |t'.connections| &&
                     t'.connections[p'.connection].key == t.connections[p.connection].key)
  {
    var cs := t.connections[index := t.connections[index].(closed := true)];
    if t.pending[i].connection != index {
      ErasedAt(cs, index, t.pending[i].connection);
    }
  }

  // ----- the other operations -----

  lemma AttachKeepsInv(t: Table)
    requires Inv(t) && Attached(t).Some?
    ensures Inv(Attached(t).value)
    ensures forall a :: a in t.routes ==> Carrier(Attached(t).value, a) == Carrier(t, a)
  {
  }

  /** Closing the older connections of a worker leaves it one usable connection at most. */
  lemma HelloDistinct(t: Table, index: nat, worker: nat, incarnation: nat, capacity: nat, acknowledged: bool)
    requires Indexed(t.connections) && Distinct(t.connections)
    ensures Distinct(Hello(t, index, worker, incarnation, capacity, acknowledged).connections)
  {
    var cs := Hello(t, index, worker, incarnation, capacity, acknowledged).connections;
    forall i, j | 0 <= i < j < |cs| && cs[i].Usable() && cs[j].Usable() ensures cs[i].worker != cs[j].worker {
      assert i != index ==> t.connections[i].Usable() && cs[i].worker == t.connections[i].worker;
      assert j != index ==> t.connections[j].Usable() && cs[j].worker == t.connections[j].worker;
    }
  }

  lemma HelloKeepsKeys(t: Table, index: nat, worker: nat, incarnation: nat, capacity: nat, acknowledged: bool)
    ensures var cs := Hello(t, index, worker, incarnation, capacity, acknowledged).connections;
            |cs| == |t.connections| && forall i :: 0 <= i < |cs| ==>
              cs[i].key == t.connections[i].key && cs[i].index == t.connections[i].index
  {
  }

  lemma HelloKeepsInv(t: Table, index: nat, worker: nat, incarnation: nat, capacity: nat, acknowledged: bool)
    requires Inv(t)
    ensures var t' := Hello(t, index, worker, incarnation, capacity, acknowledged);
            Inv(t') && t'.routes == t.routes && forall a :: a in t.routes ==> Carrier(t', a) == Carrier(t, a)
  {
    HelloDistinct(t, index, worker, incarnation, capacity, acknowledged);
    HelloKeepsKeys(t, index, worker, incarnation, capacity, acknowledged);
    HelloFrame(t, index, worker, incarnation, capacity, acknowledged);
    hide Hello, Distinct;
  }

  lemma HelloFrame(t: Table, index: nat, worker: nat, incarnation: nat, capacity: nat, acknowledged: bool)
    ensures var t' := Hello(t, index, worker, incarnation, capacity, acknowledged);
            t'.routes == t.routes && t'.pending == t.pending && t'.nextKey == t.nextKey
  {
  }

  /** The walk finds an eligible connection whenever there is one. */
  lemma {:induction false} PickFinds(cs: seq<Connection>, start: nat, step: nat)
    requires step <= |cs|
    ensures var i := Pick(cs, start, step);
            && i <= |cs| && (i < |cs| ==> Eligible(cs[i]))
            && (i == |cs| ==> forall k :: step <= k < |cs| ==> !EligibleFrom(cs, start, k))
    decreases |cs| - step
  {
    if step < |cs| {
      PickFinds(cs, start, step + 1);
    }
  }

  /** Walking all the way round from `start` comes past every connection. */
  lemma WalkCovers(cs: seq<Connection>, start: nat, i: nat)
    requires start < |cs| && i < |cs|
    requires forall k :: 0 <= k < |cs| ==> !EligibleFrom(cs, start, k)
    ensures !Eligible(cs[i])
  {
    var k := if i >= start then i - start else i + |cs| - start;
    var turns := if i >= start then 0 else 1;
    Exact.DivUnique(start + k, |cs|, turns);
    Exact.DivStep(start + k, |cs|);
    assert (start + k) % |cs| == i;
    assert !EligibleFrom(cs, start, k);
  }

  lemma PickWorkerFinds(t: Table)
    ensures Chosen(t) < |t.connections| ==> Eligible(t.connections[Chosen(t)])
    ensures Chosen(t) >= |t.connections| ==> forall k :: 0 <= k < |t.connections| ==> !Eligible(t.connections[k])
  {
    var cs := t.connections;
    if |cs| > 0 {
      var start := t.dispatched % |cs|;
      PickFinds(cs, start, 0);
      if Chosen(t) >= |cs| {
        forall i | 0 <= i < |cs| ensures !Eligible(cs[i]) {
          WalkCovers(cs, start, i);
        }
      }
    }
  }

  /** A frame queued on connection `i` adds one route and leaves every other carrier as it was. */
  lemma QueuedKeepsInv(t: Table, i: nat, attempt: nat)
    requires Inv(t) && i < |t.connections| && Eligible(t.connections[i])
    ensures var c := t.connections[i];
            var t' := t.(dispatched := t.dispatched + 1,
                        connections := t.connections[i := c.(inFlight := c.inFlight + 1)],
                         routes := t.routes[attempt := i]);
            && Inv(t')
            && forall a :: a in t.routes && a != attempt ==> Carrier(t', a) == Carrier(t, a)
  {
  }

  lemma DispatchedKeepsInv(t: Table, attempt: nat, send: Sent)
    requires Inv(t)
    ensures Inv(Dispatched(t, attempt, send).0)
  {
    hide Inv, Drop, Chosen;
    var t1 := t.(dispatched := t.dispatched + 1);
    CountingKeepsInv(t);
    PickWorkerFinds(t1);
    if attempt != 0 && Chosen(t1) < |t.connections| {
      if send.Broken? {
        DropKeepsInv(t1, Chosen(t1));
      } else if send.Queued? {
        QueuedKeepsInv(t, Chosen(t1), attempt);
      }
    }
  }

  lemma CountingKeepsInv(t: Table)
    requires Inv(t)
    ensures Inv(t.(dispatched := t.dispatched + 1))
  {
  }

  lemma RoutesExist(t: Table)
    requires Inv(t)
    ensures forall a :: a in t.routes ==> t.routes[a] < |t.connections|
  {
  }

  /** An accepted dispatch is carried by an eligible connection; every other attempt keeps its carrier. */
  lemma DispatchRoutes(t: Table, attempt: nat, send: Sent)
    requires Inv(t)
    ensures var (t', outcome) := Dispatched(t, attempt, send);
            && Inv(t')
            && (outcome.Accepted? ==>
                  && attempt in t'.routes
                  && Eligible(t.connections[t'.routes[attempt]])
                  && (forall a :: a in t.routes && a != attempt ==> Carrier(t', a) == Carrier(t, a)))
            && (outcome.Throttled? || outcome.Fenced? ==> t'.routes == t.routes && t'.connections == t.connections)
            && (attempt != 0 && outcome.Unavailable? ==>
                  send.Broken? || forall k :: 0 <= k < |t.connections| ==> !Eligible(t.connections[k]))
  {
    hide Inv, Drop, Chosen;
    var t1 := t.(dispatched := t.dispatched + 1);
    DispatchedKeepsInv(t, attempt, send);
    RoutesExist(t);
    RoutesExist(Dispatched(t, attempt, send).0);
    PickWorkerFinds(t1);
    if attempt != 0 && Chosen(t1) < |t.connections| && send.Queued? {
      QueuedKeepsInv(t, Chosen(t1), attempt);
    }
  }

  lemma ReleaseKeepsInv(t: Table, index: nat, attempt: nat)
    requires Inv(t)
    ensures Inv(Release(t, index, attempt))
    ensures forall a :: a in t.routes && a != attempt ==>
              a in Release(t, index, attempt).routes && Carrier(Release(t, index, attempt), a) == Carrier(t, a)
  {
  }

  lemma {:induction false} AnswerKeepsInv(t: Table, request: nat, from: nat)
    requires Inv(t) && from <= |t.pending|
    ensures Inv(Answer(t, request, from))
    decreases |t.pending| - from
  {
    if from < |t.pending| {
      AnswerKeepsInv(t, request, from + 1);
    }
  }

  // ----- the adapter -----

  class ProcessAdapter {
    var connections: seq<Connection>
    var routes: map<nat, nat>
    var pending: seq<Pending>
    var dispatched: nat
    var nextKey: nat
    var nextRequest: nat
    var maxWorkers: nat

    ghost function State(): Table
      reads this
    {
      Table(connections, routes, pending, dispatched, nextKey, nextRequest, maxWorkers)
    }

    constructor (max: nat)
      ensures State() == Table([], map[], [], 0, 1, 0, if max == 0 then 1 else max)
      ensures Inv(State())
    {
      connections, routes, pending, dispatched := [], map[], [], 0;
      nextKey, nextRequest, maxWorkers := 1, 0, if max == 0 then 1 else max;
    }

    method Attach() returns (ok: bool)
      modifies this
      ensures ok <==> Attached(old(State())).Some?
      ensures State() == if ok then Attached(old(State())).value else old(State())
    {
      if |connections| >= maxWorkers {
        return false;
      }
      connections := connections + [NewConnection(nextKey, |connections|)];
      nextKey := nextKey + 1;
      ok := true;
    }

    /** Round robin over the attachment order, skipping connections that cannot take work. */
    method PickWorker() returns (i: nat)
      ensures i == Chosen(State())
    {
      var count := |connections|;
      if count == 0 {
        return 0;
      }
      var start := dispatched % count;
      for step := 0 to count
        invariant Pick(connections, start, step) == Chosen(State())
      {
        if EligibleFrom(connections, start, step) {
          return (start + step) % count;
        }
      }
      i := count;
    }

    method Dispatch(attempt: nat, send: Sent) returns (outcome: Outcome)
      modifies this
      ensures (State(), outcome) == Dispatched(old(State()), attempt, send)
    {
      dispatched := dispatched + 1;
      if attempt == 0 {
        return Fenced;
      }
      var i := PickWorker();
      if i >= |connections| {
        return Unavailable;
      }
      match send {
        case Queued =>
          connections := connections[i := connections[i].(inFlight := connections[i].inFlight + 1)];
          routes := routes[attempt := i];
          outcome := Accepted;
        case Full =>
          outcome := Throttled;
        case Broken =>
          DropConnection(i);
          outcome := Unavailable;
      }
    }

    method FindReplacement(index: nat) returns (r: nat)
      requires index < |connections|
      ensures r == Replacement(connections, index, 0)
    {
      for other := 0 to |connections|
        invariant Replacement(connections, index, other) == Replacement(connections, index, 0)
      {
        var c := connections[other];
        if other != index && c.Usable() && c.worker == connections[index].worker &&
           c.incarnation == connections[index].incarnation {
          return other;
        }
      }
      r := |connections|;
    }

    /** Re-points the dropped connection's routes, forgets them if nobody took over, and renumbers the rest. */
    method Rekey(index: nat, replacement: Option<nat>)
      modifies this`routes
      ensures routes == Reroute(old(routes), index, replacement)
    {
      var left, rekeyed := routes.Keys, map[];
      while left != {}
        invariant left <= routes.Keys
        invariant forall a :: a in rekeyed <==> a in Reroute(routes, index, replacement) && a !in left
        invariant forall a :: a in rekeyed ==> rekeyed[a] == Reroute(routes, index, replacement)[a]
        decreases |left|
      {
        var a :| a in left;
        left := left - {a};
        if routes[a] != index {
          rekeyed := rekeyed[a := Shift(routes[a], index)];
        } else if replacement.Some? {
          rekeyed := rekeyed[a := replacement.value];
        }
      }
      assert rekeyed == Reroute(routes, index, replacement);
      routes := rekeyed;
    }

    /** Answers the dropped connection's unanswered requests as unknown and renumbers the rest. */
    method SettlePending(index: nat)
      modifies this`pending
      ensures |pending| == |old(pending)|
      ensures forall i :: 0 <= i < |pending| ==> pending[i] == DropPending(old(pending)[i], index)
    {
      ghost var before := pending;
      for i := 0 to |pending|
        invariant |pending| == |before|
        invariant forall k :: 0 <= k < i ==> pending[k] == DropPending(before[k], index)
        invariant forall k :: i <= k < |pending| ==> pending[k] == before[k]
      {
        var p := pending[i];
        if p.connection == index {
          if !p.answered {
            pending := pending[i := p.(answered := true, unknown := p.unknown + p.fences)];
          }
        } else if p.connection > index {
          pending := pending[i := p.(connection := p.connection - 1)];
        }
      }
    }

    /** Erases one connection and gives the ones behind it their new index. */
    method EraseConnection(index: nat)
      requires index < |connections|
      modifies this`connections
      ensures connections == Erase(old(connections), index)
    {
      ghost var before := connections;
      connections := connections[..index] + connections[index + 1..];
      ghost var erased := connections;
      for position := index to |connections|
        invariant |connections| == |erased|
        invariant forall k :: 0 <= k < |connections| ==>
                    connections[k] == if index <= k < position then erased[k].(index := k) else erased[k]
      {
        connections := connections[position := connections[position].(index := position)];
      }
      assert connections == Erase(before, index);
    }

    method DropConnection(index: nat)
      modifies this
      ensures State() == Drop(old(State()), index)
    {
      if index >= |connections| {
        return;
      }
      connections := connections[index := connections[index].(closed := true)];
      var r := FindReplacement(index);
      var replacement := if r == |connections| then None else Some(Shift(r, index));
      Rekey(index, replacement);
      SettlePending(index);
      EraseConnection(index);
      assert pending == Drop(old(State()), index).pending;
    }

    /** Sorts fences by the connection that carries them; the ones nobody carries are unknown at once. */
    method GroupFences(fences: seq<nat>) returns (groups: map<nat, seq<nat>>, unknown: set<nat>, expected: nat)
      requires forall a :: a in routes ==> routes[a] < |connections|
      ensures forall g: nat :: g in groups <==> GroupOf(routes, fences, g) != []
      ensures forall g :: g in groups ==> groups[g] == GroupOf(routes, fences, g)
      ensures unknown == set a | a in fences && a !in routes
      ensures expected == Expected(routes, fences)
    {
      hide GroupOf;
      groups, unknown, expected := map[], {}, 0;
      forall g: nat ensures GroupOf(routes, [], g) == [] {
        NoGroup(routes, g);
      }
      assert fences[..0] == [];
      for i := 0 to |fences|
        invariant forall g: nat :: g in groups <==> GroupOf(routes, fences[..i], g) != []
        invariant forall g :: g in groups ==> groups[g] == GroupOf(routes, fences[..i], g)
        invariant unknown == set a | a in fences[..i] && a !in routes
        invariant expected == Expected(routes, fences[..i])
      {
        assert fences[..i + 1][..i] == fences[..i];
        assert fences[..i + 1] == fences[..i] + [fences[i]];
        forall g: nat ensures GroupOf(routes, fences[..i + 1], g) ==
            GroupOf(routes, fences[..i], g) +
             (if fences[i] in routes && routes[fences[i]] == g then [fences[i]] else [])
        {
          GroupStep(routes, fences[..i], fences[i], g);
        }
        if fences[i] in unknown {
          continue;
        }
        expected := expected + 1;
        if fences[i] !in routes {
          unknown := unknown + {fences[i]};
          continue;
        }
        var g := routes[fences[i]];
        groups := groups[g := (if g in groups then groups[g] else []) + [fences[i]]];
      }
      assert fences[..|fences|] == fences;
    }

    /** Closes older connections of the same worker, then takes on the announced identity. */
    method HandleHello(index: nat, worker: nat, incarnation: nat, capacity: nat, acknowledged: bool)
      modifies this`connections
      ensures State() == Hello(old(State()), index, worker, incarnation, capacity, acknowledged)
    {
      if index >= |connections| {
        return;
      }
      if worker == 0 || incarnation == 0 {
        connections := connections[index := connections[index].(failed := true)];
        return;
      }
      ghost var before := connections;
      var self := connections[index].index;
      for other := 0 to |connections|
        invariant |connections| == |before|
        invariant forall k :: 0 <= k < |connections| ==>
                    connections[k] == if k < other && Superseded(before[k], self, worker)
                                      then before[k].(closed := true) else before[k]
      {
        if Superseded(connections[other], self, worker) {
          connections := connections[other := connections[other].(closed := true)];
        }
      }
      var c := connections[index];
      connections := connections[index := c.(worker := worker, incarnation := incarnation, capacity := capacity,
                                             inFlight := 0, hello := true, failed := c.failed || !acknowledged)];
      assert connections == Hello(old(State()), index, worker, incarnation, capacity, acknowledged).connections;
    }
  }

  // ----- reconciling -----

  /** The fences carried by connection `g`, in the order they were asked about. */
  function GroupOf(routes: map<nat, nat>, fences: seq<nat>, g: nat): seq<nat> {
    if fences == [] then []
    else
      var n := |fences| - 1;
      GroupOf(routes, fences[..n], g) +
      (if fences[n] in routes && routes[fences[n]] == g then [fences[n]] else [])
  }

  function SetOf(s: seq<nat>): set<nat> { set a | a in s }

  /**
   * Asks the connections below `g`, highest first, about the fences they carried when reconciliation began.
   * An undeliverable request drops its connection and answers its group: all unknown.
   */
  function Ask(t: Table, routes: map<nat, nat>, fences: seq<nat>, g: nat, delivers: nat -> bool): (Table, set<nat>)
    decreases g
  {
    if g == 0 then (t, {})
    else
      var c, group := g - 1, GroupOf(routes, fences, g - 1);
      if group == [] || c >= |t.connections| then Ask(t, routes, fences, c, delivers)
      else if delivers(t.connections[c].key) then
        var p := Pending(t.nextRequest + 1, c, group, false, []);
        Ask(t.(nextRequest := t.nextRequest + 1, pending := t.pending + [p]), routes, fences, c, delivers)
      else
        var (t', unknown) := Ask(Drop(t, c), routes, fences, c, delivers);
        (t', unknown + SetOf(group))
  }

  /** Fences without a route are unknown at once; the rest are asked of whoever carries them. */
  function Reconcile(t: Table, fences: seq<nat>, delivers: nat -> bool): (Table, set<nat>) {
    var (t', unknown) := Ask(t, t.routes, fences, |t.connections|, delivers);
    (t', unknown + set a | a in fences && a !in t.routes)
  }

  ghost predicate Asks(t: Table, p: Pending, key: nat, attempt: nat, from: nat) {
    && !p.answered && attempt in p.fences
    && from <= p.connection < |t.connections| && t.connections[p.connection].key == key
  }

  /** An unanswered request on the connection object `key`, at index `from` or above, covers the attempt. */
  ghost predicate Asked(t: Table, key: nat, attempt: nat, from: nat) {
    exists i :: 0 <= i < |t.pending| && Asks(t, t.pending[i], key, attempt, from)
  }

  lemma DropKeepsAsked(t: Table, c: nat, key: nat, attempt: nat)
    requires Inv(t) && c < |t.connections| && Asked(t, key, attempt, c + 1)
    ensures Asked(Drop(t, c), key, attempt, c)
  {
    var i :| 0 <= i < |t.pending| && Asks(t, t.pending[i], key, attempt, c + 1);
    DropPendings(t, c, i);
    assert Asks(Drop(t, c), Drop(t, c).pending[i], key, attempt, c);
  }

  lemma LowerAsked(t: Table, key: nat, attempt: nat, from: nat, lower: nat)
    requires Asked(t, key, attempt, from) && lower <= from
    ensures Asked(t, key, attempt, lower)
  {
    var i :| 0 <= i < |t.pending| && Asks(t, t.pending[i], key, attempt, from);
    assert Asks(t, t.pending[i], key, attempt, lower);
  }

  lemma AskOne(t: Table, c: nat, group: seq<nat>)
    requires Inv(t) && c < |t.connections|
    ensures var t' := t.(nextRequest := t.nextRequest + 1,
                         pending := t.pending + [Pending(t.nextRequest + 1, c, group, false, [])]);
            && Inv(t')
            && (forall a :: a in group ==> Asked(t', t.connections[c].key, a, c))
            && (forall key, a, from :: Asked(t, key, a, from) ==> Asked(t', key, a, from))
  {
    var p := Pending(t.nextRequest + 1, c, group, false, []);
    var t' := t.(nextRequest := t.nextRequest + 1, pending := t.pending + [p]);
    forall a | a in group ensures Asked(t', t.connections[c].key, a, c) {
      assert Asks(t', t'.pending[|t.pending|], t.connections[c].key, a, c);
    }
    forall key, a, from | Asked(t, key, a, from) ensures Asked(t', key, a, from) {
      var i :| 0 <= i < |t.pending| && Asks(t, t.pending[i], key, a, from);
      assert Asks(t', t'.pending[i], key, a, from);
    }
  }

  /** Requests already sent stay where they were sent while lower connections are asked or dropped. */
  lemma {:induction false} AskKeeps(t: Table, routes: map<nat, nat>, fences: seq<nat>, g: nat, delivers: nat -> bool,
                                    key: nat, attempt: nat)
    requires Inv(t) && Asked(t, key, attempt, g)
    ensures Inv(Ask(t, routes, fences, g, delivers).0)
    ensures Asked(Ask(t, routes, fences, g, delivers).0, key, attempt, 0)
    decreases g
  {
    hide Inv, Asked;
    if g > 0 {
      var c, group := g - 1, GroupOf(routes, fences, g - 1);
      if group == [] || c >= |t.connections| {
        LowerAsked(t, key, attempt, g, c);
        AskKeeps(t, routes, fences, c, delivers, key, attempt);
      } else if delivers(t.connections[c].key) {
        AskOne(t, c, group);
        var t' := t.(nextRequest := t.nextRequest + 1,
                     pending := t.pending + [Pending(t.nextRequest + 1, c, group, false, [])]);
        LowerAsked(t', key, attempt, g, c);
        AskKeeps(t', routes, fences, c, delivers, key, attempt);
      } else {
        DropKeepsInv(t, c);
        DropKeepsAsked(t, c, key, attempt);
        AskKeeps(Drop(t, c), routes, fences, c, delivers, key, attempt);
      }
    }
  }

  lemma {:induction false} AskKeepsInv(t: Table, routes: map<nat, nat>, fences: seq<nat>, g: nat, delivers: nat -> bool)
    requires Inv(t)
    ensures Inv(Ask(t, routes, fences, g, delivers).0)
    decreases g
  {
    hide Inv;
    if g > 0 {
      var c, group := g - 1, GroupOf(routes, fences, g - 1);
      if group == [] || c >= |t.connections| {
        AskKeepsInv(t, routes, fences, c, delivers);
      } else if delivers(t.connections[c].key) {
        AskOne(t, c, group);
        AskKeepsInv(t.(nextRequest := t.nextRequest + 1,
                       pending := t.pending + [Pending(t.nextRequest + 1, c, group, false, [])]),
                    routes, fences, c, delivers);
      } else {
        DropKeepsInv(t, c);
        AskKeepsInv(Drop(t, c), routes, fences, c, delivers);
      }
    }
  }

  lemma {:induction false} InGroup(routes: map<nat, nat>, fences: seq<nat>, g: nat, attempt: nat)
    requires attempt in fences && attempt in routes && routes[attempt] == g
    ensures attempt in GroupOf(routes, fences, g)
  {
    var n := |fences| - 1;
    if fences[n] != attempt {
      assert fences == fences[..n] + [fences[n]];
      InGroup(routes, fences[..n], g, attempt);
    }
  }

  /** Connections below `g` are still the ones they were when reconciliation began. */
  ghost predicate Below(t: Table, was: Table, g: nat) {
    && g <= |t.connections| && g <= |was.connections|
    && (forall i :: 0 <= i < g ==> t.connections[i].key == was.connections[i].key)
  }

  lemma {:induction false} AskReaches(t: Table, was: Table, fences: seq<nat>, g: nat,
                                    delivers: nat -> bool, attempt: nat)
    requires Inv(t) && Below(t, was, g) && attempt in fences && attempt in was.routes && was.routes[attempt] < g
    ensures var (t', unknown) := Ask(t, was.routes, fences, g, delivers);
            attempt in unknown || Asked(t', was.connections[was.routes[attempt]].key, attempt, 0)
    decreases g
  {
    hide Inv, Asked, GroupOf;
    var c, group := g - 1, GroupOf(was.routes, fences, g - 1);
    var mine := was.routes[attempt] == c;
    if mine { InGroup(was.routes, fences, c, attempt); }
    if group == [] {
      AskReaches(t, was, fences, c, delivers, attempt);
    } else if delivers(t.connections[c].key) {
      var t1 := t.(nextRequest := t.nextRequest + 1,
                   pending := t.pending + [Pending(t.nextRequest + 1, c, group, false, [])]);
      AskOne(t, c, group);
      if mine {
        AskKeeps(t1, was.routes, fences, c, delivers, t.connections[c].key, attempt);
      } else {
        AskReaches(t1, was, fences, c, delivers, attempt);
      }
    } else {
      DropKeepsInv(t, c);
      if !mine {
        AskReaches(Drop(t, c), was, fences, c, delivers, attempt);
      }
    }
  }

  /**
   * Every fence submitted for reconciliation is answered as unknown, or asked of the very connection that
   * carried it when reconciliation began, whatever connections are dropped on the way.
   */
  lemma ReconcileReaches(t: Table, fences: seq<nat>, delivers: nat -> bool, attempt: nat)
    requires Inv(t) && attempt in fences
    ensures var (t', unknown) := Reconcile(t, fences, delivers);
            && Inv(t')
            && (attempt in unknown ||
                   (attempt in t.routes && Asked(t', t.connections[t.routes[attempt]].key, attempt, 0)))
  {
    AskKeepsInv(t, t.routes, fences, |t.connections|, delivers);
    if attempt in t.routes {
      AskReaches(t, t, fences, |t.connections|, delivers, attempt);
    }
  }

  function Occurrences(s: seq<nat>, x: nat): (n: nat)
    ensures n > 0 <==> x in s
  {
    if s == [] then 0
    else
      assert s == s[..|s| - 1] + [s[|s| - 1]];
      Occurrences(s[..|s| - 1], x) + (if s[|s| - 1] == x then 1 else 0)
  }

  lemma OccursInFront(s: seq<nat>, y: nat, x: nat)
    ensures Occurrences(s + [y], x) == Occurrences(s, x) + (if y == x then 1 else 0)
  {
    assert (s + [y])[..|s|] == s;
  }

  lemma NoGroup(routes: map<nat, nat>, g: nat)
    ensures GroupOf(routes, [], g) == []
  {
  }

  lemma GroupStep(routes: map<nat, nat>, front: seq<nat>, x: nat, g: nat)
    ensures GroupOf(routes, front + [x], g) ==
            GroupOf(routes, front, g) + (if x in routes && routes[x] == g then [x] else [])
  {
    assert (front + [x])[..|front|] == front;
  }

  /** A connection is asked about a fence it carries as often as the fence was submitted. */
  lemma {:induction false} AskedAsOften(routes: map<nat, nat>, fences: seq<nat>, g: nat, attempt: nat)
    ensures Occurrences(GroupOf(routes, fences, g), attempt) ==
            if attempt in routes && routes[attempt] == g then Occurrences(fences, attempt) else 0
  {
    if fences != [] {
      var n := |fences| - 1;
      AskedAsOften(routes, fences[..n], g, attempt);
      OccursInFront(GroupOf(routes, fences[..n], g), fences[n], attempt);
      assert GroupOf(routes, fences[..n], g) + [] == GroupOf(routes, fences[..n], g);
    }
  }

  /** No routed fence was submitted twice. */
  ghost predicate RoutedOnce(routes: map<nat, nat>, fences: seq<nat>) {
    forall a :: a in routes ==> Occurrences(fences, a) <= 1
  }

  /** Every fence is asked about at most once if and only if no routed fence was submitted twice. */
  lemma AskedOnceIff(routes: map<nat, nat>, fences: seq<nat>)
    ensures (forall g: nat, a: nat :: Occurrences(GroupOf(routes, fences, g), a) <= 1) <==> RoutedOnce(routes, fences)
  {
    hide GroupOf, Occurrences;
    if RoutedOnce(routes, fences) {
      forall g: nat, a: nat ensures Occurrences(GroupOf(routes, fences, g), a) <= 1 {
        AskedAsOften(routes, fences, g, a);
      }
    } else {
      var a :| a in routes && Occurrences(fences, a) > 1;
      AskedAsOften(routes, fences, routes[a], a);
    }
  }

  /** How many answers a reconciliation expects: it merges repeated fences only if they have no route. */
  function Expected(routes: map<nat, nat>, fences: seq<nat>): nat {
    if fences == [] then 0
    else
      var n := |fences| - 1;
      Expected(routes, fences[..n]) + (if fences[n] in routes || fences[n] !in fences[..n] then 1 else 0)
  }

  /** Whether a reconciliation reports success; `answers` tells of each answered fence whether its fate is known. */
  predicate Reconciled(routes: map<nat, nat>, fences: seq<nat>, unanswered: nat, answers: map<nat, bool>) {
    && unanswered == 0
    && (forall a :: a in fences && a in answers ==> answers[a])
    && |(set a | a in fences && a in answers)| == Expected(routes, fences)
  }

  lemma {:induction false} ExpectedIsMore(routes: map<nat, nat>, fences: seq<nat>)
    ensures |SetOf(fences)| <= Expected(routes, fences)
    ensures |SetOf(fences)| == Expected(routes, fences) <==> RoutedOnce(routes, fences)
  {
    if fences == [] {
      assert forall a :: Occurrences(fences, a) == 0;
    } else {
      hide RoutedOnce, Occurrences;
      var n := |fences| - 1;
      var front, last := fences[..n], fences[n];
      ExpectedIsMore(routes, front);
      assert fences == front + [last];
      OnceStep(routes, front, last);
      if last in front {
        assert SetOf(fences) == SetOf(front);
      } else {
        assert SetOf(fences) == SetOf(front) + {last};
      }
    }
  }

  lemma OnceStep(routes: map<nat, nat>, front: seq<nat>, last: nat)
    ensures RoutedOnce(routes, front + [last]) <==>
            RoutedOnce(routes, front) && (last in routes ==> last !in front)
  {
    forall a ensures Occurrences(front + [last], a) == Occurrences(front, a) + (if last == a then 1 else 0) {
      OccursInFront(front, last, a);
    }
    if RoutedOnce(routes, front + [last]) && last in routes {
      assert Occurrences(front + [last], last) <= 1;
    }
    if RoutedOnce(routes, front) {
      assert last in routes ==> Occurrences(front, last) <= 1;
    }
  }

  /**
   * When every request was answered and every fate is known, reconciliation succeeds if and only if no routed
   * fence was submitted twice: a repetition is counted although there is only one answer to it.
   */
  lemma RepetitionFailsReconcile(routes: map<nat, nat>, fences: seq<nat>, answers: map<nat, bool>)
    requires forall a :: a in fences ==> a in answers && answers[a]
    ensures Reconciled(routes, fences, 0, answers) <==> RoutedOnce(routes, fences)
  {
    ExpectedIsMore(routes, fences);
    assert (set a | a in fences && a in answers) == SetOf(fences);
  }

  /** One routed fence submitted twice is asked about twice and cannot be reconciled. */
  lemma RepeatedFenceIsAskedTwice()
    ensures GroupOf(map[5 := 0], [5, 5], 0) == [5, 5]
    ensures !Reconciled(map[5 := 0], [5, 5], 0, map[5 := true])
  {
    var routes: map<nat, nat>, fences: seq<nat> := map[5 := 0], [5, 5];
    assert fences[..1] == [5] && fences[..1][..0] == [];
    assert GroupOf(routes, [], 0) == [];
    assert GroupOf(routes, fences[..1], 0) == [5];
    RepetitionFailsReconcile(routes, fences, map[5 := true]);
    assert Occurrences([], 5) == 0;
    OccursInFront([], 5, 5);
    OccursInFront([5], 5, 5);
    assert [] + [5] == [5] && [5] + [5] == fences;
    assert Occurrences(fences, 5) == 2;
  }

  // ----- whole runs -----

  datatype Event =
    | OnAttach
    | OnDispatch(attempt: nat, send: Sent)
    | OnHello(index: nat, worker: nat, incarnation: nat, capacity: nat, acknowledged: bool)
    | OnRelease(index: nat, attempt: nat)
    | OnDrop(index: nat)
    | OnReconcile(fences: seq<nat>, delivers: nat -> bool)
    | OnAnswer(request: nat)

  function Step(t: Table, ev: Event): Table {
    match ev
    case OnAttach => if Attached(t).Some? then Attached(t).value else t
    case OnDispatch(attempt, send) => Dispatched(t, attempt, send).0
    case OnHello(index, worker, incarnation, capacity, acknowledged) =>
      Hello(t, index, worker, incarnation, capacity, acknowledged)
    case OnRelease(index, attempt) => Release(t, index, attempt)
    case OnDrop(index) => Drop(t, index)
    case OnReconcile(fences, delivers) => Reconcile(t, fences, delivers).0
    case OnAnswer(request) => Answer(t, request, 0)
  }

  function Run(t: Table, events: seq<Event>): Table
    decreases |events|
  {
    if events == [] then t else Run(Step(t, events[0]), events[1..])
  }

  /** Through any run, connections know their index, usable ones have distinct workers, and every route and
      unanswered request names a connection that exists. */
  lemma {:induction false} RunKeepsInv(t: Table, events: seq<Event>)
    requires Inv(t)
    ensures Inv(Run(t, events))
    decreases |events|
  {
    hide Inv;
    if events != [] {
      match events[0] {
        case OnAttach => if Attached(t).Some? { AttachKeepsInv(t); }
        case OnDispatch(attempt, send) => DispatchRoutes(t, attempt, send);
        case OnHello(index, worker, incarnation, capacity, acknowledged) =>
          HelloKeepsInv(t, index, worker, incarnation, capacity, acknowledged);
        case OnRelease(index, attempt) => ReleaseKeepsInv(t, index, attempt);
        case OnDrop(index) => DropKeepsInv(t, index);
        case OnReconcile(fences, delivers) => AskKeepsInv(t, t.routes, fences, |t.connections|, delivers);
        case OnAnswer(request) => AnswerKeepsInv(t, request, 0);
      }
      RunKeepsInv(Step(t, events[0]), events[1..]);
    }
  }
}
