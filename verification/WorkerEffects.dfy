/**
 * The effect table of a worker: a reactor and effect threads that share one completion queue. Fault
 * injection is off and attempt identifiers are fresh.
 */
module WorkerEffects {
  import opened Rollouts

  datatype Effect = Effect(
    key: nat, running: bool, terminal: bool, cancelled: bool, sequence: nat, succeeded: bool, deferred: Option<nat>)

  /** An effect thread: it may be asked to stop, and it ends by itself. */
  datatype Thread = Thread(live: bool, stop: bool)

  datatype Completion = Stopped(attempt: nat) | Progress(attempt: nat) | Finished(attempt: nat, succeeded: bool)
  {
    /** The last thing a thread ever says. */
    predicate Ends() { Stopped? || Finished? }
  }

  datatype ReportKind = AcceptedReport | ProgressReport | TerminalReport | CancelReport

  /** Evidence sent to the controller: about effect `effect`, under the attempt that asked for it. */
  datatype Report = Report(asked: nat, effect: nat, kind: ReportKind, succeeded: bool, sequence: nat)

  datatype Ack = Fenced | Suppressed | Unavailable | Throttled | Taken

  datatype Disposition = NotStarted | InProgress | Completed | Failed

  datatype State = State(
    capacity: nat, maxEntries: nat, accepting: bool,
    effects: map<nat, Effect>, order: seq<nat>, keyIndex: map<nat, nat>,
    threads: map<nat, Thread>, queue: seq<Completion>, sent: seq<Report>)

  function RunningSet(effects: map<nat, Effect>): set<nat> {
    set a | a in effects && effects[a].running
  }

  // ----- the reactor -----

  /** Looks through the admission order once for a finished effect to forget. */
  function EvictStep(s: State, steps: nat): State
    requires steps <= |s.order|
    decreases steps
  {
    if steps == 0 then s
    else
      var candidate, rest := s.order[0], s.order[1..];
      if candidate !in s.effects then EvictStep(s.(order := rest), steps - 1)
      else if s.effects[candidate].running then EvictStep(s.(order := rest + [candidate]), steps - 1)
      else s.(order := rest, keyIndex := s.keyIndex - {s.effects[candidate].key}, effects := s.effects - {candidate})
  }

  function Evict(s: State): State {
    if |s.effects| < s.maxEntries then s else EvictStep(s, |s.order|)
  }

  function Send(s: State, r: Report): State { s.(sent := s.sent + [r]) }

  function TerminalOf(asked: nat, a: nat, e: Effect): Report {
    Report(asked, a, TerminalReport, e.succeeded, e.sequence)
  }

  /** A fresh effect, its thread, and the acceptance that proves nothing more than that. */
  function Begin(s: State, attempt: nat, key: nat): State {
    var e := Effect(key, true, false, false, 1, false, None);
    Send(s.(effects := s.effects[attempt := e], keyIndex := s.keyIndex[key := attempt], order := s.order + [attempt],
            threads := s.threads[attempt := Thread(true, false)]),
         Report(attempt, attempt, AcceptedReport, true, 1))
  }

  /** A key the worker already holds replays or defers its recorded outcome; it never starts a second effect. */
  function Replay(s: State, attempt: nat, a: nat): State
    requires a in s.effects
  {
    if s.effects[a].terminal then Send(s, TerminalOf(attempt, a, s.effects[a]))
    else s.(effects := s.effects[a := s.effects[a].(deferred := Some(attempt))])
  }

  function Dispatch(s: State, target: nat, attempt: nat, key: nat): (State, Ack) {
    if target == 0 || attempt == 0 then (s, Fenced)
    else if key in s.keyIndex && s.keyIndex[key] in s.effects then (Replay(s, attempt, s.keyIndex[key]), Suppressed)
    else
      var s0 := s.(keyIndex := s.keyIndex - {key});
      if !s.accepting then (s0, Unavailable)
      else if |RunningSet(s.effects)| >= s.capacity then (s0, Throttled)
      else (Begin(Evict(s0), attempt, key), Taken)
  }

  function PublishTerminal(s: State, a: nat, succeeded: bool): State
    requires a in s.effects
  {
    var e := s.effects[a].(sequence := s.effects[a].sequence + 1, terminal := true, running := false,
                           succeeded := succeeded, deferred := None);
    var told := Send(s.(effects := s.effects[a := e]), TerminalOf(a, a, e));
    match s.effects[a].deferred
    case None => told
    case Some(asked) => Send(told, TerminalOf(asked, a, e))
  }

  function Idle(s: State, a: nat): State
    requires a in s.effects
  {
    s.(effects := s.effects[a := s.effects[a].(running := false)])
  }

  function Handle(s: State, c: Completion): State {
    if c.attempt !in s.effects then s
    else
      var a, e := c.attempt, s.effects[c.attempt];
      match c
      case Stopped(_) => Idle(s, a)
      case Progress(_) =>
        if e.terminal then s
        else Send(s.(effects := s.effects[a := e.(sequence := e.sequence + 1)]),
                  Report(a, a, ProgressReport, false, e.sequence + 1))
      case Finished(_, succeeded) =>
        if e.terminal || e.cancelled then Idle(s, a) else PublishTerminal(s, a, succeeded)
  }

  /** Handles everything the threads have said so far. */
  function Drain(s: State): State
    decreases |s.queue|
  {
    if s.queue == [] then s
    else
      HandleKeepsQueue(s.(queue := s.queue[1..]), s.queue[0]);
      Drain(Handle(s.(queue := s.queue[1..]), s.queue[0]))
  }

  lemma HandleKeepsQueue(s: State, c: Completion)
    ensures Handle(s, c).queue == s.queue
  {
  }

  /** Only a running effect can be asked to stop. */
  function Cancel(s: State, attempt: nat): (State, bool) {
    if attempt !in s.effects then (s, false)
    else
      var e := s.effects[attempt];
      var stopped := e.running && attempt in s.threads;
      var e' := e.(cancelled := e.cancelled || stopped, sequence := e.sequence + 1);
      var s1 := s.(effects := s.effects[attempt := e'],
                   threads := if stopped then s.threads[attempt := s.threads[attempt].(stop := true)] else s.threads);
      (Send(s1, Report(attempt, attempt, CancelReport, false, e'.sequence)), stopped)
  }

  function Reconcile(s: State, attempt: nat): Disposition {
    if attempt !in s.effects then NotStarted
    else if s.effects[attempt].running then InProgress
    else if s.effects[attempt].terminal then (if s.effects[attempt].succeeded then Completed else Failed)
    else Failed
  }

  // ----- the threads -----

  datatype Saying = SaysProgress | SaysStopped | SaysFinished(succeeded: bool)

  /** A live thread may report progress, notice the stop flag, or finish regardless of it. */
  predicate CanSay(s: State, attempt: nat, saying: Saying) {
    attempt in s.threads && s.threads[attempt].live && (saying.SaysStopped? ==> s.threads[attempt].stop)
  }

  function Say(s: State, attempt: nat, saying: Saying): State
    requires attempt in s.threads
  {
    var ended := s.(threads := s.threads[attempt := s.threads[attempt].(live := false)]);
    match saying
    case SaysProgress => s.(queue := s.queue + [Progress(attempt)])
    case SaysStopped => ended.(queue := s.queue + [Stopped(attempt)])
    case SaysFinished(succeeded) => ended.(queue := s.queue + [Finished(attempt, succeeded)])
  }

  // ----- every interleaving -----

  datatype Event =
    | OnDispatch(target: nat, attempt: nat, key: nat)
    | OnCancel(attempt: nat)
    | OnDrain
    | OnAccepting(accepting: bool)
    | OnThread(attempt: nat, saying: Saying)

  function Step(s: State, ev: Event): State {
    match ev
    case OnDispatch(target, attempt, key) => Dispatch(s, target, attempt, key).0
    case OnCancel(attempt) => Cancel(s, attempt).0
    case OnDrain => Drain(s)
    case OnAccepting(accepting) => s.(accepting := accepting)
    case OnThread(attempt, saying) => if CanSay(s, attempt, saying) then Say(s, attempt, saying) else s
  }

  /** The worker has met this attempt: it started it, reported to it, or owes it a report. */
  ghost predicate Known(s: State, attempt: nat) {
    || attempt in s.threads
    || (exists i :: 0 <= i < |s.sent| && s.sent[i].asked == attempt)
    || (exists a :: a in s.effects && s.effects[a].deferred == Some(attempt))
  }

  /** The controller never reuses an attempt identifier. */
  ghost predicate Allowed(s: State, ev: Event) { ev.OnDispatch? ==> !Known(s, ev.attempt) }

  ghost predicate Happens(s: State, events: seq<Event>, s': State)
    decreases |events|
  {
    if events == [] then s' == s
    else Allowed(s, events[0]) && Happens(Step(s, events[0]), events[1..], s')
  }

  predicate Fresh(s: State) {
    s.effects == map[] && s.order == [] && s.keyIndex == map[] && s.threads == map[] && s.queue == [] && s.sent == []
  }

  // ----- invariants -----

  /** Keys and retained effects match one to one. */
  ghost predicate Indexed(s: State) {
    && (forall k :: k in s.keyIndex ==> s.keyIndex[k] in s.effects && s.effects[s.keyIndex[k]].key == k)
    && (forall a :: a in s.effects ==> s.effects[a].key in s.keyIndex && s.keyIndex[s.effects[a].key] == a)
  }

  /** The admission order holds every retained effect once. */
  ghost predicate Ordered(s: State) {
    && (forall i, j :: 0 <= i < j < |s.order| ==> s.order[i] != s.order[j])
    && (forall a :: a in s.order <==> a in s.effects)
  }

  ghost predicate EndQueued(queue: seq<Completion>, a: nat) {
    exists i :: 0 <= i < |queue| && queue[i].Ends() && queue[i].attempt == a
  }

  /** An effect runs exactly as long as its thread lives or its last word waits in the queue. */
  ghost predicate Tracked(s: State) {
    && (forall a :: a in s.effects ==> a in s.threads)
    && (forall a :: a in s.threads && (s.threads[a].live || EndQueued(s.queue, a)) ==>
          a in s.effects && s.effects[a].running)
    && (forall a :: a in s.effects && s.effects[a].running ==> s.threads[a].live || EndQueued(s.queue, a))
    && (forall i :: 0 <= i < |s.queue| ==> s.queue[i].attempt in s.threads)
    && (forall a :: a in s.threads && s.threads[a].live ==> !EndQueued(s.queue, a))
    && (forall i, j :: 0 <= i < j < |s.queue| && s.queue[i].Ends() && s.queue[j].Ends() ==>
          s.queue[i].attempt != s.queue[j].attempt)
  }

  /** A terminal effect is not running, was never cancelled and owes nobody an answer. */
  ghost predicate Settled(s: State) {
    forall a :: a in s.effects ==>
      && (s.effects[a].terminal ==> !s.effects[a].running && !s.effects[a].cancelled && s.effects[a].deferred.None?)
      && (a in s.threads ==> (s.effects[a].cancelled <==> s.threads[a].stop))
  }

  /** Two terminal reports about one effect tell the same outcome. */
  predicate SameStory(r: Report, r': Report) {
    r.kind.TerminalReport? && r'.kind.TerminalReport? && r.effect == r'.effect ==> r.succeeded == r'.succeeded
  }

  /** Every terminal report is what its effect recorded, and nobody had asked that effect to stop. */
  ghost predicate Truthful(s: State) {
    && (forall i :: 0 <= i < |s.sent| && s.sent[i].kind.TerminalReport? ==>
          var r := s.sent[i];
          && r.effect in s.threads && !s.threads[r.effect].stop
          && !s.threads[r.effect].live
          && (r.effect in s.effects ==> s.effects[r.effect].terminal && s.effects[r.effect].succeeded == r.succeeded))
    && (forall i, j :: 0 <= i < j < |s.sent| ==> SameStory(s.sent[i], s.sent[j]))
  }

  function Max(a: nat, b: nat): nat { if a < b then b else a }

  ghost predicate Bounded(s: State) { |s.effects| <= Max(s.maxEntries, s.capacity) }

  ghost predicate Inv(s: State) {
    Indexed(s) && Ordered(s) && Tracked(s) && Settled(s) && Truthful(s) && Bounded(s)
  }

  // ----- eviction -----

  /** Forgets one finished effect. */
  function Forget(s: State, a: nat, order: seq<nat>): State
    requires a in s.effects
  {
    s.(order := order, keyIndex := s.keyIndex - {s.effects[a].key}, effects := s.effects - {a})
  }

  /** Every effect from `from` on in the admission order is running. */
  ghost predicate AllRunning(s: State, from: nat) {
    forall i :: from <= i < |s.order| ==> s.order[i] in s.effects && s.effects[s.order[i]].running
  }

  lemma Rotated(s: State)
    requires Ordered(s) && s.order != []
    ensures Ordered(s.(order := s.order[1..] + [s.order[0]]))
  {
    var rest := s.order[1..] + [s.order[0]];
    assert s.order == [s.order[0]] + s.order[1..];
    forall a ensures a in rest <==> a in s.order {
    }
  }

  lemma Dropped(s: State)
    requires Ordered(s) && s.order != []
    ensures Ordered(Forget(s, s.order[0], s.order[1..]))
  {
    var a, rest := s.order[0], s.order[1..];
    assert s.order == [a] + rest;
    forall b ensures b in rest <==> b in s.effects - {a} {
      assert b in rest ==> b != a;
    }
  }

  lemma HeadIsRetained(s: State)
    requires Ordered(s) && s.order != []
    ensures s.order[0] in s.effects
  {
    assert s.order[0] in s.order;
  }

  lemma EveryoneRuns(s: State)
    requires Ordered(s) && AllRunning(s, 0)
    ensures RunningSet(s.effects) == s.effects.Keys
  {
    forall a | a in s.effects ensures s.effects[a].running {
      assert a in s.order;
    }
  }

  /** One pass over the order either forgets one finished effect or finds every effect running. */
  lemma {:induction false} EvictStepKeeps(s: State, steps: nat) returns (victim: Option<nat>)
    requires Ordered(s) && steps <= |s.order| && AllRunning(s, steps)
    ensures Ordered(EvictStep(s, steps))
    ensures victim.None? ==>
              EvictStep(s, steps) == s.(order := EvictStep(s, steps).order) && RunningSet(s.effects) == s.effects.Keys
    ensures victim.Some? ==>
              && victim.value in s.effects && !s.effects[victim.value].running
              && EvictStep(s, steps) == Forget(s, victim.value, EvictStep(s, steps).order)
    decreases steps
  {
    hide Ordered, RunningSet;
    victim := None;
    if steps == 0 {
      EveryoneRuns(s);
    } else {
      HeadIsRetained(s);
      if s.effects[s.order[0]].running {
        var turned := s.(order := s.order[1..] + [s.order[0]]);
        Rotated(s);
        assert AllRunning(turned, steps - 1);
        victim := EvictStepKeeps(turned, steps - 1);
      } else {
        Dropped(s);
        victim := Some(s.order[0]);
      }
    }
  }

  lemma ForgetKeeps(s: State, a: nat, order: seq<nat>)
    requires Indexed(s) && Tracked(s) && Settled(s) && Truthful(s)
    requires a in s.effects && !s.effects[a].running
    ensures var s' := Forget(s, a, order); Indexed(s') && Tracked(s') && Settled(s') && Truthful(s')
    ensures |Forget(s, a, order).effects| == |s.effects| - 1
  {
    assert (s.effects - {a}).Keys == s.effects.Keys - {a};
  }

  /** Eviction keeps every invariant and leaves room for one more effect. */
  lemma EvictKeepsInv(s: State)
    requires Inv(s) && |RunningSet(s.effects)| < s.capacity
    ensures Inv(Evict(s)) && |Evict(s).effects| + 1 <= Max(s.maxEntries, s.capacity)
    ensures Evict(s).threads == s.threads
    ensures forall k :: k in Evict(s).keyIndex ==> k in s.keyIndex
    ensures Evict(s).capacity == s.capacity && Evict(s).maxEntries == s.maxEntries
  {
    hide Tracked, Settled, Truthful, Indexed, Ordered, EvictStep;
    if |s.effects| >= s.maxEntries {
      var victim := EvictStepKeeps(s, |s.order|);
      if victim.Some? {
        ForgetKeeps(s, victim.value, Evict(s).order);
      } else {
        SameTracked(s, Evict(s));
      }
    }
  }

  lemma SameTracked(s: State, s': State)
    requires Indexed(s) && Tracked(s) && Settled(s) && Truthful(s)
    requires s'.effects == s.effects && s'.keyIndex == s.keyIndex && s'.threads == s.threads
    requires s'.queue == s.queue && s'.sent == s.sent
    ensures Indexed(s') && Tracked(s') && Settled(s') && Truthful(s')
  {
  }

  // ----- dispatch -----

  lemma BeginKeepsInv(s: State, attempt: nat, key: nat)
    requires Inv(s) && attempt !in s.threads && key !in s.keyIndex
    requires |s.effects| + 1 <= Max(s.maxEntries, s.capacity)
    ensures Inv(Begin(s, attempt, key))
  {
    hide Tracked, Settled, Truthful, Indexed, Ordered;
    BeginRetained(s, attempt, key);
    BeginTracked(s, attempt, key);
    BeginTruthful(s, attempt, key);
    assert Begin(s, attempt, key).effects.Keys == s.effects.Keys + {attempt};
  }

  lemma BeginRetained(s: State, attempt: nat, key: nat)
    requires Indexed(s) && Ordered(s) && Settled(s) && Tracked(s) && attempt !in s.threads && key !in s.keyIndex
    ensures var s' := Begin(s, attempt, key); Indexed(s') && Ordered(s') && Settled(s')
    ensures attempt !in s.effects
  {
    hide Indexed, Ordered, Settled, EndQueued;
    BeginIndexed(s, attempt, key);
    BeginOrdered(s, attempt, key);
    BeginSettled(s, attempt, key);
  }

  lemma BeginIndexed(s: State, attempt: nat, key: nat)
    requires Indexed(s) && attempt !in s.effects && key !in s.keyIndex
    ensures Indexed(Begin(s, attempt, key))
  {
  }

  lemma BeginOrdered(s: State, attempt: nat, key: nat)
    requires Ordered(s) && attempt !in s.effects
    ensures Ordered(Begin(s, attempt, key))
  {
    var s' := Begin(s, attempt, key);
    assert s'.order == s.order + [attempt];
    forall a ensures a in s'.order <==> a in s'.effects {
      assert a in s'.order <==> a in s.order || a == attempt;
    }
  }

  lemma BeginSettled(s: State, attempt: nat, key: nat)
    requires Settled(s) && attempt !in s.effects && attempt !in s.threads
    ensures Settled(Begin(s, attempt, key))
  {
  }

  lemma BeginTracked(s: State, attempt: nat, key: nat)
    requires Tracked(s) && attempt !in s.threads
    ensures Tracked(Begin(s, attempt, key))
  {
    var s' := Begin(s, attempt, key);
    assert s'.queue == s.queue;
    assert !EndQueued(s.queue, attempt);
  }

  lemma BeginTruthful(s: State, attempt: nat, key: nat)
    requires Truthful(s) && attempt !in s.threads
    ensures Truthful(Begin(s, attempt, key))
  {
  }

  /** A terminal effect may be reported again, under any attempt: the story stays the same. */
  lemma RetellTruthful(s: State, asked: nat, a: nat)
    requires Truthful(s) && a in s.effects && a in s.threads && s.effects[a].terminal
    requires !s.threads[a].stop && !s.threads[a].live
    ensures Truthful(Send(s, TerminalOf(asked, a, s.effects[a])))
  {
  }

  lemma SendKeeps(s: State, r: Report)
    requires Indexed(s) && Ordered(s) && Tracked(s) && Settled(s) && Bounded(s)
    ensures var s' := Send(s, r); Indexed(s') && Ordered(s') && Tracked(s') && Settled(s') && Bounded(s')
  {
  }

  lemma SendOther(s: State, r: Report)
    requires Truthful(s) && !r.kind.TerminalReport?
    ensures Truthful(Send(s, r))
  {
  }

  /** Same retained effects, keys and running flags. */
  ghost predicate SameShape(s: State, s': State) {
    && s'.effects.Keys == s.effects.Keys && s'.order == s.order && s'.keyIndex == s.keyIndex && s'.queue == s.queue
    && s'.capacity == s.capacity && s'.maxEntries == s.maxEntries
    && s'.threads.Keys == s.threads.Keys
    && (forall a :: a in s.threads ==> s'.threads[a].live == s.threads[a].live)
    && (forall a :: a in s.effects ==>
          s'.effects[a].key == s.effects[a].key && s'.effects[a].running == s.effects[a].running)
  }

  lemma ShapeKeeps(s: State, s': State)
    requires Indexed(s) && Ordered(s) && Tracked(s) && Bounded(s) && SameShape(s, s')
    ensures Indexed(s') && Ordered(s') && Tracked(s') && Bounded(s')
  {
    assert |s'.effects.Keys| == |s'.effects| && |s.effects.Keys| == |s.effects|;
  }

  /** An effect may change its sequence, and while it has no outcome whom it owes one. */
  lemma AmendKeepsInv(s: State, a: nat, e: Effect)
    requires Inv(s) && a in s.effects
    requires e == s.effects[a].(sequence := e.sequence, deferred := e.deferred)
    requires e.terminal ==> e.deferred.None?
    ensures Inv(s.(effects := s.effects[a := e]))
  {
    hide Tracked, Indexed, Ordered, Bounded, Settled, Truthful;
    var s' := s.(effects := s.effects[a := e]);
    assert s'.effects.Keys == s.effects.Keys;
    ShapeKeeps(s, s');
    AmendSettled(s, a, e);
  }

  lemma AmendSettled(s: State, a: nat, e: Effect)
    requires Settled(s) && Truthful(s) && a in s.effects
    requires e == s.effects[a].(sequence := e.sequence, deferred := e.deferred)
    requires e.terminal ==> e.deferred.None?
    ensures var s' := s.(effects := s.effects[a := e]); Settled(s') && Truthful(s')
  {
  }

  lemma ReplayKeepsInv(s: State, asked: nat, a: nat)
    requires Inv(s) && a in s.effects
    ensures Inv(Replay(s, asked, a))
  {
    if s.effects[a].terminal {
      SettledEnded(s, a);
      RetellTruthful(s, asked, a);
      SendKeeps(s, TerminalOf(asked, a, s.effects[a]));
    } else {
      AmendKeepsInv(s, a, s.effects[a].(deferred := Some(asked)));
    }
  }

  lemma SettledEnded(s: State, a: nat)
    requires Tracked(s) && Settled(s) && a in s.effects && s.effects[a].terminal
    ensures a in s.threads && !s.threads[a].stop && !s.threads[a].live
  {
  }

  lemma DispatchKeepsInv(s: State, target: nat, attempt: nat, key: nat)
    requires Inv(s) && attempt !in s.threads
    ensures Inv(Dispatch(s, target, attempt, key).0)
  {
    hide Tracked, Settled, Truthful, Bounded, Ordered;
    if target != 0 && attempt != 0 {
      if key in s.keyIndex {
        ReplayKeepsInv(s, attempt, s.keyIndex[key]);
      } else {
        assert s.keyIndex - {key} == s.keyIndex;
        assert s.(keyIndex := s.keyIndex - {key}) == s;
        if s.accepting && |RunningSet(s.effects)| < s.capacity {
          EvictKeepsInv(s);
          BeginKeepsInv(Evict(s), attempt, key);
        }
      }
    }
  }

  // ----- completions -----

  /** The state with one completion taken off the queue and still to be handled. */
  ghost predicate Handling(s: State, c: Completion) {
    Inv(s.(queue := [c] + s.queue))
  }

  lemma QueueFacts(s: State, c: Completion)
    requires Handling(s, c)
    ensures Indexed(s) && Ordered(s) && Settled(s) && Truthful(s) && Bounded(s)
    ensures c.attempt in s.threads
    ensures c.Ends() ==> c.attempt in s.effects && s.effects[c.attempt].running &&
                         !s.threads[c.attempt].live && !EndQueued(s.queue, c.attempt)
    ensures forall a :: EndQueued([c] + s.queue, a) <==> EndQueued(s.queue, a) || (c.Ends() && c.attempt == a)
  {
    var s0 := s.(queue := [c] + s.queue);
    assert s0.queue[0] == c;
    forall a ensures EndQueued(s0.queue, a) <==> EndQueued(s.queue, a) || (c.Ends() && c.attempt == a) {
      QueueSplit(s.queue, c, a);
    }
    forall i | 0 <= i < |s.queue| && s.queue[i].Ends() && c.Ends() ensures s.queue[i].attempt != c.attempt {
      assert s0.queue[i + 1] == s.queue[i];
    }
  }

  lemma QueueSplit(queue: seq<Completion>, c: Completion, a: nat)
    ensures EndQueued([c] + queue, a) <==> EndQueued(queue, a) || (c.Ends() && c.attempt == a)
  {
    var q := [c] + queue;
    if EndQueued(queue, a) {
      var i :| 0 <= i < |queue| && queue[i].Ends() && queue[i].attempt == a;
      assert q[i + 1] == queue[i];
    }
    if c.Ends() && c.attempt == a {
      assert q[0] == c;
    }
  }

  /** Once the end of an effect's thread is handled the effect is idle; everything else is tracked as before. */
  lemma TrackedAfter(s: State, c: Completion, s': State)
    requires Tracked(s.(queue := [c] + s.queue)) && c.attempt in s.threads
    requires forall a :: EndQueued([c] + s.queue, a) <==> EndQueued(s.queue, a) || (c.Ends() && c.attempt == a)
    requires c.Ends() ==> !s.threads[c.attempt].live && !EndQueued(s.queue, c.attempt)
    requires s'.effects.Keys == s.effects.Keys && s'.threads == s.threads && s'.queue == s.queue
    requires forall a :: a in s.effects ==>
               s'.effects[a].running == (s.effects[a].running && !(c.Ends() && c.attempt == a))
    ensures Tracked(s')
  {
    var s0 := s.(queue := [c] + s.queue);
    forall i | 0 <= i < |s'.queue| ensures s'.queue[i].attempt in s'.threads {
      assert s0.queue[i + 1] == s.queue[i];
    }
    forall i, j | 0 <= i < j < |s'.queue| && s'.queue[i].Ends() && s'.queue[j].Ends()
      ensures s'.queue[i].attempt != s'.queue[j].attempt
    {
      assert s0.queue[i + 1] == s.queue[i] && s0.queue[j + 1] == s.queue[j];
    }
  }

  lemma IdleKeepsInv(s: State, c: Completion)
    requires Handling(s, c) && c.Ends() && c.attempt in s.effects
    requires c.Stopped? || s.effects[c.attempt].terminal || s.effects[c.attempt].cancelled
    ensures Inv(Idle(s, c.attempt))
  {
    hide Indexed, Ordered, Tracked, Settled, Truthful, EndQueued;
    QueueFacts(s, c);
    var s' := Idle(s, c.attempt);
    AfterCompletion(s, c, s');
    IdleSettled(s, c.attempt);
  }

  lemma IdleSettled(s: State, a: nat)
    requires Settled(s) && Truthful(s) && a in s.effects
    ensures Settled(Idle(s, a)) && Truthful(Idle(s, a))
  {
  }

  /** Everything but the outcome itself, after the completion `c` made the effects what they are in `s'`. */
  lemma AfterCompletion(s: State, c: Completion, s': State)
    requires Handling(s, c) && s' == s.(effects := s'.effects) && s'.effects.Keys == s.effects.Keys
    requires forall a :: a in s.effects ==>
               && s'.effects[a].key == s.effects[a].key
               && s'.effects[a].running == (s.effects[a].running && !(c.Ends() && c.attempt == a))
    ensures Indexed(s') && Ordered(s') && Tracked(s') && Bounded(s')
  {
    hide Settled, Truthful, EndQueued, Tracked;
    QueueFacts(s, c);
    TrackedAfter(s, c, s');
    assert |s'.effects.Keys| == |s'.effects| && |s.effects.Keys| == |s.effects|;
  }

  lemma ProgressKeepsInv(s: State, c: Completion)
    requires Handling(s, c) && c.Progress?
    ensures Inv(Handle(s, c))
  {
    hide Indexed, Ordered, Tracked, Settled, Truthful, EndQueued;
    QueueFacts(s, c);
    AfterCompletion(s, c, s);
    if c.attempt in s.effects && !s.effects[c.attempt].terminal {
      var e := s.effects[c.attempt];
      var moved := s.(effects := s.effects[c.attempt := e.(sequence := e.sequence + 1)]);
      var report := Report(c.attempt, c.attempt, ProgressReport, false, e.sequence + 1);
      AmendKeepsInv(s, c.attempt, e.(sequence := e.sequence + 1));
      SendKeeps(moved, report);
      SendOther(moved, report);
    }
  }

  /** The effect takes its outcome; nothing terminal had been told about it before. */
  lemma RecordsOutcome(s: State, c: Completion, e: Effect)
    requires Handling(s, c) && c.Finished? && c.attempt in s.effects
    requires !s.effects[c.attempt].terminal && !s.effects[c.attempt].cancelled
    requires e == s.effects[c.attempt].(sequence := s.effects[c.attempt].sequence + 1, terminal := true,
                                        running := false, succeeded := c.succeeded, deferred := None)
    ensures var s' := s.(effects := s.effects[c.attempt := e]);
            Inv(s') && !s'.threads[c.attempt].stop && !s'.threads[c.attempt].live
  {
    hide Indexed, Ordered, Tracked, Settled, Truthful, EndQueued;
    QueueFacts(s, c);
    AfterCompletion(s, c, s.(effects := s.effects[c.attempt := e]));
    OutcomeSettled(s, c.attempt, e);
  }

  lemma OutcomeSettled(s: State, a: nat, e: Effect)
    requires Settled(s) && Truthful(s) && a in s.effects && a in s.threads
    requires !s.effects[a].terminal && !s.effects[a].cancelled
    requires e.terminal && !e.running && !e.cancelled && e.deferred.None?
    ensures var s' := s.(effects := s.effects[a := e]); Settled(s') && Truthful(s')
    ensures !s.threads[a].stop
  {
  }

  lemma FinishedKeepsInv(s: State, c: Completion)
    requires Handling(s, c) && c.Finished? && c.attempt in s.effects
    requires !s.effects[c.attempt].terminal && !s.effects[c.attempt].cancelled
    ensures Inv(PublishTerminal(s, c.attempt, c.succeeded))
  {
    hide Tracked, Settled, Truthful, Bounded, Ordered, Indexed, Handling;
    var a := c.attempt;
    var e := s.effects[a].(sequence := s.effects[a].sequence + 1, terminal := true, running := false,
                           succeeded := c.succeeded, deferred := None);
    var s' := s.(effects := s.effects[a := e]);
    RecordsOutcome(s, c, e);
    TellKeepsInv(s', a, a);
    if s.effects[a].deferred.Some? {
      TellKeepsInv(Send(s', TerminalOf(a, a, e)), s.effects[a].deferred.value, a);
    }
  }

  lemma TellKeepsInv(s: State, asked: nat, a: nat)
    requires Inv(s) && a in s.effects && s.effects[a].terminal
    ensures Inv(Send(s, TerminalOf(asked, a, s.effects[a])))
  {
    hide Truthful, Bounded, Ordered, Indexed;
    SettledEnded(s, a);
    RetellTruthful(s, asked, a);
    SendKeeps(s, TerminalOf(asked, a, s.effects[a]));
  }

  lemma HandleKeepsInv(s: State, c: Completion)
    requires Handling(s, c)
    ensures Inv(Handle(s, c))
  {
    QueueFacts(s, c);
    if c.Progress? {
      ProgressKeepsInv(s, c);
    } else if c.Stopped? || s.effects[c.attempt].terminal || s.effects[c.attempt].cancelled {
      IdleKeepsInv(s, c);
    } else {
      FinishedKeepsInv(s, c);
    }
  }

  lemma {:induction false} DrainKeepsInv(s: State)
    requires Inv(s)
    ensures Inv(Drain(s))
    decreases |s.queue|
  {
    hide Inv;
    if s.queue != [] {
      var rest := s.(queue := s.queue[1..]);
      assert [s.queue[0]] + s.queue[1..] == s.queue;
      assert rest.(queue := [s.queue[0]] + rest.queue) == s;
      HandleKeepsInv(rest, s.queue[0]);
      HandleKeepsQueue(rest, s.queue[0]);
      DrainKeepsInv(Handle(rest, s.queue[0]));
    }
  }

  // ----- cancellation and threads -----

  lemma CancelKeepsInv(s: State, attempt: nat)
    requires Inv(s)
    ensures Inv(Cancel(s, attempt).0)
  {
    hide Indexed, Ordered, Tracked, Settled, Truthful, Bounded, SameShape;
    if attempt in s.effects {
      var e := s.effects[attempt];
      var stopped := e.running && attempt in s.threads;
      var s1 := s.(effects := s.effects[attempt := e.(cancelled := e.cancelled || stopped, sequence := e.sequence + 1)],
                   threads := if stopped then s.threads[attempt := s.threads[attempt].(stop := true)] else s.threads);
      var report := Report(attempt, attempt, CancelReport, false, e.sequence + 1);
      StopShape(s, s1, attempt);
      ShapeKeeps(s, s1);
      StopKeeps(s, s1, attempt);
      SendKeeps(s1, report);
      SendOther(s1, report);
    }
  }

  lemma StopShape(s: State, s1: State, attempt: nat)
    requires attempt in s.effects && s1 == s.(effects := s1.effects, threads := s1.threads)
    requires attempt in s1.effects && s1.effects == s.effects[attempt := s1.effects[attempt]]
    requires s1.effects[attempt].key == s.effects[attempt].key
    requires s1.effects[attempt].running == s.effects[attempt].running
    requires s1.threads == s.threads ||
             (attempt in s.threads && s1.threads == s.threads[attempt := s.threads[attempt].(stop := true)])
    ensures SameShape(s, s1)
  {
    assert s1.effects.Keys == s.effects.Keys && s1.threads.Keys == s.threads.Keys;
  }

  /** An effect that is still running has told nothing terminal, so it can be stopped. */
  lemma StopKeeps(s: State, s1: State, attempt: nat)
    requires Tracked(s) && Settled(s) && Truthful(s) && attempt in s.effects
    requires var e := s.effects[attempt];
             var stopped := e.running && attempt in s.threads;
             && s1.effects == s.effects[attempt := e.(cancelled := e.cancelled || stopped, sequence := e.sequence + 1)]
             && s1.threads == (if stopped then s.threads[attempt := s.threads[attempt].(stop := true)] else s.threads)
             && s1.sent == s.sent
    ensures Settled(s1) && Truthful(s1)
  {
  }

  lemma SayKeepsInv(s: State, attempt: nat, saying: Saying)
    requires Inv(s) && CanSay(s, attempt, saying)
    ensures Inv(Say(s, attempt, saying))
  {
    hide Tracked, EndQueued;
    var s' := Say(s, attempt, saying);
    forall a ensures EndQueued(s'.queue, a) <==>
                     EndQueued(s.queue, a) || (s'.queue[|s.queue|].Ends() && attempt == a)
    {
      QueueGrows(s.queue, s'.queue[|s.queue|], a);
    }
    SayTracked(s, attempt, saying);
    SayKeepsRest(s, attempt, saying);
  }

  lemma SayKeepsRest(s: State, attempt: nat, saying: Saying)
    requires Indexed(s) && Ordered(s) && Settled(s) && Truthful(s) && Bounded(s) && CanSay(s, attempt, saying)
    ensures var s' := Say(s, attempt, saying);
            Indexed(s') && Ordered(s') && Settled(s') && Truthful(s') && Bounded(s')
  {
  }

  lemma QueueGrows(queue: seq<Completion>, c: Completion, a: nat)
    ensures EndQueued(queue + [c], a) <==> EndQueued(queue, a) || (c.Ends() && c.attempt == a)
  {
    var q := queue + [c];
    if EndQueued(queue, a) {
      var i :| 0 <= i < |queue| && queue[i].Ends() && queue[i].attempt == a;
      assert q[i] == queue[i];
    }
    if c.Ends() && c.attempt == a {
      assert q[|queue|] == c;
    }
  }

  lemma SayTracked(s: State, attempt: nat, saying: Saying)
    requires Tracked(s) && CanSay(s, attempt, saying)
    requires var s' := Say(s, attempt, saying);
             forall a :: EndQueued(s'.queue, a) <==>
                         EndQueued(s.queue, a) || (s'.queue[|s.queue|].Ends() && attempt == a)
    ensures Tracked(Say(s, attempt, saying))
  {
    var s' := Say(s, attempt, saying);
    assert !EndQueued(s.queue, attempt);
    forall i, j | 0 <= i < j < |s'.queue| && s'.queue[i].Ends() && s'.queue[j].Ends()
      ensures s'.queue[i].attempt != s'.queue[j].attempt
    {
      assert s.queue[i].attempt == attempt ==> EndQueued(s.queue, attempt);
    }
  }

  // ----- every interleaving -----

  lemma FreshIsInv(s: State)
    requires Fresh(s)
    ensures Inv(s) && Strangers(s)
  {
  }

  lemma StepKeepsInv(s: State, ev: Event)
    requires Inv(s) && Allowed(s, ev)
    ensures Inv(Step(s, ev))
  {
    match ev
    case OnDispatch(target, attempt, key) => DispatchKeepsInv(s, target, attempt, key);
    case OnCancel(attempt) => CancelKeepsInv(s, attempt);
    case OnDrain => DrainKeepsInv(s);
    case OnAccepting(accepting) => SameTracked(s, s.(accepting := accepting));
    case OnThread(attempt, saying) => if CanSay(s, attempt, saying) { SayKeepsInv(s, attempt, saying); }
  }

  lemma {:induction false} RunKeepsInv(s: State, events: seq<Event>, s': State)
    requires Inv(s) && Happens(s, events, s')
    ensures Inv(s')
    decreases |events|
  {
    hide Inv;
    if events != [] {
      StepKeepsInv(s, events[0]);
      RunKeepsInv(Step(s, events[0]), events[1..], s');
    }
  }

  /** Attempts that are answered for another attempt's effect never had an effect of their own. */
  ghost predicate Strangers(s: State) {
    && (forall i :: 0 <= i < |s.sent| && s.sent[i].kind.TerminalReport? && s.sent[i].asked != s.sent[i].effect ==>
          s.sent[i].asked !in s.threads)
    && (forall a :: a in s.effects && s.effects[a].deferred.Some? ==> s.effects[a].deferred.value !in s.threads)
  }

  lemma HandleKeepsStrangers(s: State, c: Completion)
    requires Strangers(s)
    ensures Strangers(Handle(s, c))
  {
  }

  lemma {:induction false} DrainKeepsStrangers(s: State)
    requires Strangers(s)
    ensures Strangers(Drain(s))
    decreases |s.queue|
  {
    hide Handle;
    if s.queue != [] {
      var rest := s.(queue := s.queue[1..]);
      HandleKeepsQueue(rest, s.queue[0]);
      HandleKeepsStrangers(rest, s.queue[0]);
      DrainKeepsStrangers(Handle(rest, s.queue[0]));
    }
  }

  /** Eviction changes the table only, and only by forgetting. */
  lemma {:induction false} EvictForgets(s: State, steps: nat)
    requires steps <= |s.order|
    ensures var s' := EvictStep(s, steps);
            && s'.threads == s.threads && s'.sent == s.sent && s'.queue == s.queue
            && (forall a :: a in s'.effects ==> a in s.effects && s'.effects[a] == s.effects[a])
            && (forall k :: k in s'.keyIndex ==> k in s.keyIndex && s'.keyIndex[k] == s.keyIndex[k])
    decreases steps
  {
    if steps > 0 {
      var rest := s.order[1..];
      if s.order[0] !in s.effects {
        EvictForgets(s.(order := rest), steps - 1);
      } else if s.effects[s.order[0]].running {
        EvictForgets(s.(order := rest + [s.order[0]]), steps - 1);
      }
    }
  }

  lemma DispatchKeepsStrangers(s: State, target: nat, attempt: nat, key: nat)
    requires Strangers(s) && !Known(s, attempt)
    ensures Strangers(Dispatch(s, target, attempt, key).0)
  {
    hide EvictStep;
    EvictForgets(s.(keyIndex := s.keyIndex - {key}), |s.order|);
  }

  lemma StepKeepsStrangers(s: State, ev: Event)
    requires Strangers(s) && Allowed(s, ev)
    ensures Strangers(Step(s, ev))
  {
    match ev
    case OnDispatch(target, attempt, key) => DispatchKeepsStrangers(s, target, attempt, key);
    case OnDrain => DrainKeepsStrangers(s);
    case _ =>
  }

  lemma {:induction false} RunKeepsStrangers(s: State, events: seq<Event>, s': State)
    requires Strangers(s) && Happens(s, events, s')
    ensures Strangers(s')
    decreases |events|
  {
    hide Strangers;
    if events != [] {
      StepKeepsStrangers(s, events[0]);
      RunKeepsStrangers(Step(s, events[0]), events[1..], s');
    }
  }

  ghost predicate Attained(s: State) {
    exists first, events :: Fresh(first) && Happens(first, events, s)
  }

  lemma AttainedIsInv(s: State)
    requires Attained(s)
    ensures Inv(s) && Strangers(s)
  {
    var first, events :| Fresh(first) && Happens(first, events, s);
    FreshIsInv(first);
    hide Inv, Strangers;
    RunKeepsInv(first, events, s);
    RunKeepsStrangers(first, events, s);
  }

  // ----- what holds in every interleaving -----

  /** A retained idempotency key never starts a second effect. */
  lemma KeyStartsOnce(s: State, target: nat, attempt: nat, key: nat)
    requires Attained(s) && key in s.keyIndex && target != 0 && attempt != 0
    ensures var (s', ack) := Dispatch(s, target, attempt, key);
            && ack.Suppressed? && s'.threads == s.threads && s'.effects.Keys == s.effects.Keys
            && (forall a :: a in s.effects ==> s'.effects[a].running == s.effects[a].running)
  {
    hide Attained;
    AttainedIsInv(s);
    hide Truthful, Settled, Tracked, Bounded;
  }

  /** At any moment at most one thread works for a key, and its effect is retained. */
  lemma OneThreadPerKey(s: State, a: nat, b: nat)
    requires Attained(s) && a in s.threads && b in s.threads && s.threads[a].live && s.threads[b].live
    ensures a in s.effects && b in s.effects
    ensures s.effects[a].key == s.effects[b].key ==> a == b
  {
    AttainedIsInv(s);
  }

  lemma {:induction false} StopPersists(s: State, events: seq<Event>, s': State, a: nat)
    requires Inv(s) && Happens(s, events, s') && a in s.threads && s.threads[a].stop
    ensures Inv(s') && a in s'.threads && s'.threads[a].stop
    decreases |events|
  {
    hide Inv;
    if events != [] {
      StepKeepsInv(s, events[0]);
      StepKeepsStop(s, events[0], a);
      StopPersists(Step(s, events[0]), events[1..], s', a);
    }
  }

  lemma StepKeepsStop(s: State, ev: Event, a: nat)
    requires Allowed(s, ev) && a in s.threads && s.threads[a].stop
    ensures a in Step(s, ev).threads && Step(s, ev).threads[a].stop
  {
    match ev
    case OnDispatch(_, _, _) => EvictKeepsThreads(s.(keyIndex := s.keyIndex - {ev.key}), |s.order|);
    case OnDrain => DrainKeepsThreads(s);
    case _ =>
  }

  lemma {:induction false} EvictKeepsThreads(s: State, steps: nat)
    requires steps <= |s.order|
    ensures EvictStep(s, steps).threads == s.threads
    decreases steps
  {
    if steps > 0 {
      var rest := s.order[1..];
      if s.order[0] !in s.effects {
        EvictKeepsThreads(s.(order := rest), steps - 1);
      } else if s.effects[s.order[0]].running {
        EvictKeepsThreads(s.(order := rest + [s.order[0]]), steps - 1);
      }
    }
  }

  lemma {:induction false} DrainKeepsThreads(s: State)
    ensures Drain(s).threads == s.threads
    decreases |s.queue|
  {
    if s.queue != [] {
      var s1 := Handle(s.(queue := s.queue[1..]), s.queue[0]);
      HandleKeepsQueue(s.(queue := s.queue[1..]), s.queue[0]);
      assert s1.threads == s.threads;
      DrainKeepsThreads(s1);
    }
  }

  /** A cancelled effect never publishes a terminal outcome, however its thread ends. */
  lemma CancelledStaysSilent(s: State, a: nat, events: seq<Event>, s': State)
    requires Attained(s) && a in s.effects && s.effects[a].cancelled && Happens(s, events, s')
    ensures forall i :: 0 <= i < |s'.sent| && s'.sent[i].kind.TerminalReport? ==> s'.sent[i].effect != a
  {
    AttainedIsInv(s);
    StopPersists(s, events, s', a);
  }

  /** An effect has one outcome: every terminal report about it, replays included, tells the same one. */
  lemma OneOutcome(s: State, i: nat, j: nat)
    requires Attained(s) && i < |s.sent| && j < |s.sent|
    requires s.sent[i].kind.TerminalReport? && s.sent[j].kind.TerminalReport? && s.sent[i].effect == s.sent[j].effect
    ensures s.sent[i].succeeded == s.sent[j].succeeded
  {
    AttainedIsInv(s);
    if i < j {
      assert SameStory(s.sent[i], s.sent[j]);
    } else if j < i {
      assert SameStory(s.sent[j], s.sent[i]);
    }
  }

  /**
   * Reconciliation agrees with what was published, to whichever attempt: the one whose effect it is, as long as
   * the effect is retained; an attempt that was sent another one's outcome is always told it never started.
   */
  lemma ReconcileAgrees(s: State, i: nat)
    requires Attained(s) && i < |s.sent| && s.sent[i].kind.TerminalReport?
    ensures var r := s.sent[i];
            Reconcile(s, r.asked) ==
            if r.asked != r.effect || r.effect !in s.effects then NotStarted
            else if r.succeeded then Completed else Failed
  {
    AttainedIsInv(s);
  }

  /**
   * Completed is only ever answered for an effect whose outcome was recorded as a success, and in progress
   * exactly while its thread lives or its last word waits to be handled.
   */
  lemma CompletedIsRecorded(s: State, a: nat)
    requires Attained(s)
    ensures Reconcile(s, a).Completed? <==> a in s.effects && s.effects[a].terminal && s.effects[a].succeeded
    ensures Reconcile(s, a).InProgress? <==> a in s.threads && (s.threads[a].live || EndQueued(s.queue, a))
    ensures a in s.threads && s.threads[a].stop ==> !Reconcile(s, a).Completed?
  {
    AttainedIsInv(s);
  }

  // ----- what "not started" is worth -----

  /** Along the run an effect was started for attempt `a` under key `k`. */
  ghost predicate Took(s: State, events: seq<Event>, a: nat, k: nat)
    decreases |events|
  {
    events != [] &&
    ((events[0].OnDispatch? && events[0].attempt == a && events[0].key == k &&
      Dispatch(s, events[0].target, a, k).1.Taken?) ||
     Took(Step(s, events[0]), events[1..], a, k))
  }

  /** No effect was started for the key, whoever asked. */
  ghost predicate NothingBegan(s: State, events: seq<Event>, k: nat) { forall a :: !Took(s, events, a, k) }

  predicate Names(events: seq<Event>, a: nat) {
    exists i :: 0 <= i < |events| && events[i].OnDispatch? && events[i].attempt == a
  }

  /** A drain starts nothing and forgets nothing. */
  lemma {:induction false} DrainKeepsKeys(s: State)
    ensures Drain(s).threads == s.threads && Drain(s).keyIndex == s.keyIndex
    ensures Drain(s).effects.Keys == s.effects.Keys
    decreases |s.queue|
  {
    if s.queue != [] {
      var rest := s.(queue := s.queue[1..]);
      HandleKeepsQueue(rest, s.queue[0]);
      var s1 := Handle(rest, s.queue[0]);
      assert s1.threads == s.threads && s1.keyIndex == s.keyIndex && s1.effects.Keys == s.effects.Keys;
      DrainKeepsKeys(s1);
    }
  }

  lemma DispatchStarts(s: State, target: nat, attempt: nat, key: nat)
    ensures var (s', ack) := Dispatch(s, target, attempt, key);
            && (forall k :: k in s'.keyIndex && k !in s.keyIndex ==> k == key && ack.Taken?)
            && (forall a :: a in s'.threads && a !in s.threads ==> a == attempt && ack.Taken?)
            && (forall a :: a in s.threads ==> a in s'.threads)
  {
    hide EvictStep, RunningSet, Replay;
    EvictForgets(s.(keyIndex := s.keyIndex - {key}), |s.order|);
    if key in s.keyIndex && s.keyIndex[key] in s.effects {
      ReplayStarts(s, attempt, s.keyIndex[key]);
      hide Begin, Evict;
    }
  }

  lemma ReplayStarts(s: State, attempt: nat, a: nat)
    requires a in s.effects
    ensures Replay(s, attempt, a).threads == s.threads && Replay(s, attempt, a).keyIndex == s.keyIndex
  {
  }

  lemma QuietStarts(s: State, ev: Event)
    requires !ev.OnDispatch?
    ensures Step(s, ev).keyIndex == s.keyIndex && Step(s, ev).threads.Keys == s.threads.Keys
  {
    hide Drain;
    match ev
    case OnDrain => DrainKeepsKeys(s);
    case _ =>
  }

  /** New keys and new threads come only from a dispatch that was taken. */
  lemma StepStarts(s: State, ev: Event)
    ensures forall k :: k in Step(s, ev).keyIndex && k !in s.keyIndex ==>
              ev.OnDispatch? && ev.key == k && Dispatch(s, ev.target, ev.attempt, k).1.Taken?
    ensures forall a :: a in Step(s, ev).threads && a !in s.threads ==>
              ev.OnDispatch? && ev.attempt == a && Dispatch(s, ev.target, a, ev.key).1.Taken?
    ensures forall a :: a in s.threads ==> a in Step(s, ev).threads
  {
    if ev.OnDispatch? {
      DispatchStarts(s, ev.target, ev.attempt, ev.key);
      assert Step(s, ev) == Dispatch(s, ev.target, ev.attempt, ev.key).0;
      hide Dispatch, Step;
    } else {
      QuietStarts(s, ev);
      hide Step;
    }
  }

  /** A key the worker holds was taken by someone along the run. */
  lemma {:induction false} HeldKeyWasTaken(s: State, events: seq<Event>, s': State, k: nat) returns (a: nat)
    requires Happens(s, events, s') && k in s'.keyIndex && k !in s.keyIndex
    ensures Took(s, events, a, k)
    decreases |events|
  {
    StepStarts(s, events[0]);
    if k in Step(s, events[0]).keyIndex {
      a := events[0].attempt;
    } else {
      a := HeldKeyWasTaken(Step(s, events[0]), events[1..], s', k);
    }
  }

  /** A thread belongs to an attempt that a dispatch of the run named and the worker took. */
  lemma {:induction false} ThreadWasTaken(s: State, events: seq<Event>, s': State, a: nat)
    requires Happens(s, events, s') && a in s'.threads && a !in s.threads
    ensures Names(events, a)
    decreases |events|
  {
    StepStarts(s, events[0]);
    if a in Step(s, events[0]).threads {
      assert events[0].OnDispatch? && events[0].attempt == a;
    } else {
      ThreadWasTaken(Step(s, events[0]), events[1..], s', a);
      var i :| 0 <= i < |events[1..]| && events[1..][i].OnDispatch? && events[1..][i].attempt == a;
      assert events[i + 1].OnDispatch? && events[i + 1].attempt == a;
    }
  }

  lemma {:induction false} ThreadsStay(s: State, events: seq<Event>, s': State, a: nat)
    requires Happens(s, events, s') && a in s.threads
    ensures a in s'.threads
    decreases |events|
  {
    if events != [] {
      StepStarts(s, events[0]);
      ThreadsStay(Step(s, events[0]), events[1..], s', a);
    }
  }

  /** Runs put together start what either starts. */
  lemma {:induction false} TookJoins(s: State, before: seq<Event>, mid: State, after: seq<Event>, a: nat, k: nat)
    requires Happens(s, before, mid)
    ensures Took(s, before + after, a, k) <==> Took(s, before, a, k) || Took(mid, after, a, k)
    decreases |before|
  {
    if before == [] {
      assert before + after == after;
    } else {
      assert (before + after)[1..] == before[1..] + after;
      TookJoins(Step(s, before[0]), before[1..], mid, after, a, k);
    }
  }

  /** One dispatch in the middle of a run, the only one that names its attempt. */
  ghost predicate DispatchedOnce(first: State, before: seq<Event>, mid: State, ev: Event, after: seq<Event>, s: State) {
    && Fresh(first) && Happens(first, before, mid) && ev.OnDispatch? && Allowed(mid, ev)
    && Happens(Step(mid, ev), after, s)
    && !Names(before, ev.attempt) && !Names(after, ev.attempt)
  }

  /** Which attempts are told "not started": all that the worker did not take, and those it has forgotten. */
  lemma NotStartedIff(first: State, before: seq<Event>, mid: State, ev: Event, after: seq<Event>, s: State)
    requires DispatchedOnce(first, before, mid, ev, after, s)
    ensures var ack := Dispatch(mid, ev.target, ev.attempt, ev.key).1;
            Reconcile(s, ev.attempt).NotStarted? <==> !ack.Taken? || ev.attempt !in s.effects
    ensures var ack := Dispatch(mid, ev.target, ev.attempt, ev.key).1;
            !ack.Taken? ==> ev.attempt !in s.threads
  {
    var b := ev.attempt;
    hide Inv, Strangers, Dispatch, Known;
    StepStarts(mid, ev);
    BeginsAtOnce(mid, ev);
    FreshIsInv(first);
    RunKeepsInv(first, before, mid);
    StepKeepsInv(mid, ev);
    RunKeepsInv(Step(mid, ev), after, s);
    if b in s.threads && b !in Step(mid, ev).threads {
      ThreadWasTaken(Step(mid, ev), after, s, b);
    }
    EffectsHaveThreads(s);
  }

  lemma BeginsAtOnce(s: State, ev: Event)
    requires ev.OnDispatch? && !Known(s, ev.attempt)
    ensures ev.attempt !in s.threads
  {
  }

  lemma EffectsHaveThreads(s: State)
    requires Inv(s)
    ensures forall a :: a in s.effects ==> a in s.threads
  {
  }

  /** A dispatch that is suppressed or taken has an effect begun for its key, by then or right away. */
  lemma AnsweredKeyBegan(first: State, before: seq<Event>, mid: State, ev: Event)
    requires Fresh(first) && Happens(first, before, mid) && ev.OnDispatch?
    ensures var ack := Dispatch(mid, ev.target, ev.attempt, ev.key).1;
            && (ack.Suppressed? ==> !NothingBegan(first, before, ev.key))
            && (ack.Taken? <==> Took(mid, [ev], ev.attempt, ev.key))
            && (!ack.Taken? ==> NothingBegan(mid, [ev], ev.key))
  {
    if Dispatch(mid, ev.target, ev.attempt, ev.key).1.Suppressed? {
      var a := HeldKeyWasTaken(first, before, mid, ev.key);
    }
    hide Dispatch;
    assert [ev][1..] == [] && [ev][0] == ev;
    forall a ensures Took(mid, [ev], a, ev.key) <==>
                     a == ev.attempt && Dispatch(mid, ev.target, a, ev.key).1.Taken?
    {
      assert !Took(Step(mid, ev), [], a, ev.key);
    }
  }

  /**
   * "Not started" is believed to mean that nothing was ever done for the attempt's key. It is never true of an
   * attempt the worker took or suppressed: at that moment at the latest an effect had begun for its key.
   */
  lemma AskedKeyBegan(first: State, before: seq<Event>, mid: State, ev: Event, after: seq<Event>)
    requires Fresh(first) && Happens(first, before, mid) && ev.OnDispatch? && Allowed(mid, ev)
    ensures var ack := Dispatch(mid, ev.target, ev.attempt, ev.key).1;
            ack.Taken? || ack.Suppressed? ==> !NothingBegan(first, before + ([ev] + after), ev.key)
  {
    AnsweredKeyBegan(first, before, mid, ev);
    assert [ev][1..] == [] && Happens(Step(mid, ev), [], Step(mid, ev));
    forall a ensures Took(first, before + ([ev] + after), a, ev.key) <==>
                     Took(first, before, a, ev.key) || Took(mid, [ev], a, ev.key)
                     || Took(Step(mid, ev), after, a, ev.key)
    {
      TookJoins(first, before, mid, [ev] + after, a, ev.key);
      TookJoins(mid, [ev], Step(mid, ev), after, a, ev.key);
    }
    hide Dispatch, Took;
  }

  /** Some thread works for the key. */
  ghost predicate WorkedFor(s: State, k: nat) {
    exists a :: a in s.effects && s.effects[a].key == k && a in s.threads && s.threads[a].live
  }

  /** What the worker can look up: the thread of the effect its table has under the key is alive. */
  predicate HeldLive(s: State, k: nat) {
    k in s.keyIndex && s.keyIndex[k] in s.threads && s.threads[s.keyIndex[k]].live
  }

  lemma WorkedForIff(s: State, k: nat)
    requires Attained(s)
    ensures WorkedFor(s, k) <==> HeldLive(s, k)
  {
    hide Attained;
    AttainedIsInv(s);
    hide Ordered, Settled, Truthful, Bounded, Strangers;
  }

  /**
   * An attempt is told "not started" while a thread works for its key if and only if the worker's table has
   * that key under another attempt whose thread is alive.
   */
  lemma NotStartedWhileWorkingIff(first: State, before: seq<Event>, mid: State, ev: Event, after: seq<Event>, s: State)
    requires DispatchedOnce(first, before, mid, ev, after, s)
    ensures Reconcile(s, ev.attempt).NotStarted? && WorkedFor(s, ev.key) <==>
            HeldLive(s, ev.key) && s.keyIndex[ev.key] != ev.attempt
  {
    hide Inv, Dispatch, Known, HeldLive, WorkedFor, Strangers;
    RunThrough(first, before, mid, ev, after, s);
    AttainedIsInv(s);
    WorkedForIff(s, ev.key);
    KeyIsItsOwn(first, before, mid, ev, after, s);
    OwnKeyOnly(s, ev.attempt, ev.key);
  }

  lemma OwnKeyOnly(s: State, attempt: nat, k: nat)
    requires Inv(s) && (attempt in s.effects ==> s.effects[attempt].key == k)
    ensures HeldLive(s, k) ==> (attempt in s.effects <==> s.keyIndex[k] == attempt)
  {
    hide Ordered, Settled, Truthful, Bounded, Tracked;
  }

  lemma {:induction false} HappensJoins(s: State, before: seq<Event>, mid: State, after: seq<Event>, s': State)
    requires Happens(s, before, mid) && Happens(mid, after, s')
    ensures Happens(s, before + after, s')
    decreases |before|
  {
    if before == [] {
      assert before + after == after;
    } else {
      assert (before + after)[1..] == before[1..] + after;
      HappensJoins(Step(s, before[0]), before[1..], mid, after, s');
    }
  }

  lemma RunThrough(first: State, before: seq<Event>, mid: State, ev: Event, after: seq<Event>, s: State)
    requires DispatchedOnce(first, before, mid, ev, after, s)
    ensures Attained(mid) && Attained(Step(mid, ev)) && Attained(s)
  {
    hide Dispatch, Known, Step;
    assert [ev][1..] == [] && Happens(Step(mid, ev), [], Step(mid, ev));
    HappensJoins(first, before, mid, [ev], Step(mid, ev));
    HappensJoins(first, before + [ev], Step(mid, ev), after, s);
  }

  /** An effect that is retained was retained before the step under the same key, or its thread is new. */
  lemma StepKeepsKeys(s: State, ev: Event, a: nat)
    requires Inv(s) && Allowed(s, ev) && a in s.threads && a in Step(s, ev).effects
    ensures a in s.effects && Step(s, ev).effects[a].key == s.effects[a].key
  {
    hide Inv;
    match ev
    case OnDispatch(target, attempt, key) =>
      hide EvictStep;
      EvictForgets(s.(keyIndex := s.keyIndex - {key}), |s.order|);
    case OnDrain => DrainKeepsEffectKeys(s);
    case _ =>
  }

  lemma {:induction false} DrainKeepsEffectKeys(s: State)
    ensures Drain(s).effects.Keys == s.effects.Keys
    ensures forall a :: a in s.effects ==> Drain(s).effects[a].key == s.effects[a].key
    decreases |s.queue|
  {
    if s.queue != [] {
      var rest := s.(queue := s.queue[1..]);
      HandleKeepsQueue(rest, s.queue[0]);
      var s1 := Handle(rest, s.queue[0]);
      assert s1.effects.Keys == s.effects.Keys;
      assert forall a :: a in s.effects ==> s1.effects[a].key == s.effects[a].key;
      DrainKeepsEffectKeys(s1);
    }
  }

  lemma {:induction false} RunKeepsKeys(s: State, events: seq<Event>, s': State, a: nat)
    requires Inv(s) && Happens(s, events, s') && a in s.threads && a in s'.effects
    ensures a in s.effects && s'.effects[a].key == s.effects[a].key
    decreases |events|
  {
    hide Inv;
    if events != [] {
      StepKeepsInv(s, events[0]);
      StepStarts(s, events[0]);
      RunKeepsKeys(Step(s, events[0]), events[1..], s', a);
      StepKeepsKeys(s, events[0], a);
    }
  }

  /** An effect is retained under the key its attempt was dispatched with. */
  lemma KeyIsItsOwn(first: State, before: seq<Event>, mid: State, ev: Event, after: seq<Event>, s: State)
    requires DispatchedOnce(first, before, mid, ev, after, s) && Attained(mid) && Attained(Step(mid, ev)) && Attained(s)
    ensures ev.attempt in s.effects ==> s.effects[ev.attempt].key == ev.key
  {
    if ev.attempt in s.effects {
      hide Inv, Strangers, Dispatch, Known, Attained;
      AttainedIsInv(s);
      AttainedIsInv(Step(mid, ev));
      AttainedIsInv(mid);
      EffectsHaveThreads(s);
      EffectsHaveThreads(mid);
      BeginsAtOnce(mid, ev);
      if ev.attempt !in Step(mid, ev).threads {
        ThreadWasTaken(Step(mid, ev), after, s, ev.attempt);
      }
      RunKeepsKeys(Step(mid, ev), after, s, ev.attempt);
      FreshEffect(mid, ev);
    }
  }

  lemma FreshEffect(s: State, ev: Event)
    requires ev.OnDispatch? && ev.attempt !in s.effects && ev.attempt in Step(s, ev).effects
    ensures Step(s, ev).effects[ev.attempt].key == ev.key
  {
    hide EvictStep;
    EvictForgets(s.(keyIndex := s.keyIndex - {ev.key}), |s.order|);
  }

  /** The same key asked for under a second attempt: it runs, and that attempt is told it never started. */
  lemma SuppressedIsToldNotStarted(capacity: nat, maxEntries: nat)
    requires capacity > 0
    ensures var s0 := State(capacity, maxEntries, true, map[], [], map[], map[], [], []);
            var s1 := Dispatch(s0, 1, 1, 7).0;
            var (s2, ack) := Dispatch(s1, 1, 2, 7);
            && Attained(s2) && ack.Suppressed?
            && Reconcile(s2, 2) == NotStarted && Reconcile(s2, 1) == InProgress
            && s2.threads[1].live && s2.effects[1].key == 7 && s2.effects[1].deferred == Some(2)
            && WorkedFor(s2, 7) && HeldLive(s2, 7) && s2.keyIndex[7] == 1
  {
    var s0 := State(capacity, maxEntries, true, map[], [], map[], map[], [], []);
    var s1 := Dispatch(s0, 1, 1, 7).0;
    var s2 := Dispatch(s1, 1, 2, 7).0;
    assert RunningSet(s0.effects) == {};
    assert Evict(s0) == s0;
    assert s0.(keyIndex := s0.keyIndex - {7}) == s0;
    assert s1 == Begin(s0, 1, 7);
    var events := [OnDispatch(1, 1, 7), OnDispatch(1, 2, 7)];
    assert events[1..] == [OnDispatch(1, 2, 7)] && events[1..][1..] == [];
    assert Happens(s2, [], s2) && Happens(s1, events[1..], s2) && Happens(s0, events, s2);
  }

  lemma TableIsBounded(s: State)
    requires Attained(s)
    ensures |s.effects| <= Max(s.maxEntries, s.capacity)
  {
    AttainedIsInv(s);
  }

  // ----- the worker -----

  class Worker {
    var capacity: nat
    var maxEntries: nat
    var accepting: bool
    var effects: map<nat, Effect>
    var order: seq<nat>
    var keyIndex: map<nat, nat>
    var threads: map<nat, Thread>
    var queue: seq<Completion>
    var sent: seq<Report>

    ghost function View(): State
      reads this
    {
      State(capacity, maxEntries, accepting, effects, order, keyIndex, threads, queue, sent)
    }

    constructor (capacity: nat, maxEntries: nat)
      ensures Fresh(View()) && this.capacity == capacity && this.maxEntries == maxEntries
    {
      this.capacity, this.maxEntries, accepting := capacity, maxEntries, true;
      effects, order, keyIndex, threads, queue, sent := map[], [], map[], map[], [], [];
    }

    method RunningEffects() returns (count: nat)
      ensures count == |RunningSet(effects)|
    {
      var left, running := effects.Keys, {};
      while left != {}
        invariant left <= effects.Keys
        invariant running == set a | a in effects && a !in left && effects[a].running
        decreases |left|
      {
        var a :| a in left;
        left := left - {a};
        if effects[a].running {
          running := running + {a};
        }
      }
      assert running == RunningSet(effects);
      count := |running|;
    }

    /** Bounds the effect table: forgets the first finished effect in admission order, if there is one. */
    method EvictIfNeeded()
      modifies this`effects, this`order, this`keyIndex
      ensures View() == Evict(old(View()))
    {
      if |effects| < maxEntries {
        return;
      }
      ghost var final := EvictStep(View(), |order|);
      var steps: nat := |order|;
      while steps > 0
        invariant 0 <= steps <= |order| && EvictStep(View(), steps) == final
        decreases steps
      {
        var candidate := order[0];
        order := order[1..];
        steps := steps - 1;
        if candidate !in effects {
          continue;
        }
        if effects[candidate].running {
          order := order + [candidate];
          continue;
        }
        keyIndex := keyIndex - {effects[candidate].key};
        effects := effects - {candidate};
        return;
      }
    }

    method Emit(r: Report)
      modifies this`sent
      ensures View() == Send(old(View()), r)
    {
      sent := sent + [r];
    }

    method HandleDispatch(target: nat, attempt: nat, key: nat) returns (ack: Ack)
      modifies this
      ensures (View(), ack) == Dispatch(old(View()), target, attempt, key)
    {
      if target == 0 || attempt == 0 {
        return Fenced;
      }
      if key in keyIndex && keyIndex[key] in effects {
        var a := keyIndex[key];
        if effects[a].terminal {
          Emit(TerminalOf(attempt, a, effects[a]));
        } else {
          effects := effects[a := effects[a].(deferred := Some(attempt))];
        }
        return Suppressed;
      }
      keyIndex := keyIndex - {key};
      if !accepting {
        return Unavailable;
      }
      var running := RunningEffects();
      if running >= capacity {
        return Throttled;
      }
      EvictIfNeeded();
      effects := effects[attempt := Effect(key, true, false, false, 1, false, None)];
      keyIndex := keyIndex[key := attempt];
      order := order + [attempt];
      threads := threads[attempt := Thread(true, false)];
      Emit(Report(attempt, attempt, AcceptedReport, true, 1));
      ack := Taken;
    }

    method Record(a: nat, succeeded: bool)
      requires a in effects
      modifies this`effects, this`sent
      ensures View() == PublishTerminal(old(View()), a, succeeded)
    {
      var owed := effects[a].deferred;
      var e := effects[a].(sequence := effects[a].sequence + 1, terminal := true, running := false,
                           succeeded := succeeded, deferred := None);
      effects := effects[a := e];
      Emit(TerminalOf(a, a, e));
      if owed.Some? {
        Emit(TerminalOf(owed.value, a, e));
      }
    }

    method HandleCompletion(c: Completion)
      modifies this`effects, this`sent
      ensures View() == Handle(old(View()), c)
    {
      if c.attempt !in effects {
        return;
      }
      var a, e := c.attempt, effects[c.attempt];
      match c {
        case Stopped(_) =>
          effects := effects[a := e.(running := false)];
        case Progress(_) =>
          if !e.terminal {
            effects := effects[a := e.(sequence := e.sequence + 1)];
            Emit(Report(a, a, ProgressReport, false, e.sequence + 1));
          }
        case Finished(_, succeeded) =>
          if e.terminal || e.cancelled {
            effects := effects[a := e.(running := false)];
          } else {
            Record(a, succeeded);
          }
      }
    }

    /** Takes everything queued so far and handles it in order. */
    method DrainCompletions()
      modifies this`effects, this`sent, this`queue
      ensures View() == Drain(old(View()))
    {
      ghost var final := Drain(View());
      while queue != []
        invariant Drain(View()) == final
        decreases |queue|
      {
        var c := queue[0];
        ghost var taken := View().(queue := queue[1..]);
        HandleKeepsQueue(taken, c);
        queue := queue[1..];
        HandleCompletion(c);
      }
    }

    method HandleCancel(attempt: nat) returns (stopped: bool)
      modifies this`effects, this`threads, this`sent
      ensures (View(), stopped) == Cancel(old(View()), attempt)
    {
      if attempt !in effects {
        return false;
      }
      var e := effects[attempt];
      stopped := e.running && attempt in threads;
      if stopped {
        threads := threads[attempt := threads[attempt].(stop := true)];
      }
      effects := effects[attempt := e.(cancelled := e.cancelled || stopped, sequence := e.sequence + 1)];
      Emit(Report(attempt, attempt, CancelReport, false, e.sequence + 1));
    }

    method HandleReconcile(attempts: seq<nat>) returns (answers: seq<Disposition>)
      ensures |answers| == |attempts|
      ensures forall i :: 0 <= i < |attempts| ==> answers[i] == Reconcile(View(), attempts[i])
    {
      answers := [];
      for i := 0 to |attempts|
        invariant |answers| == i
        invariant forall k :: 0 <= k < i ==> answers[k] == Reconcile(View(), attempts[k])
      {
        answers := answers + [Reconcile(
          State(capacity, maxEntries, accepting, effects, order, keyIndex, threads, queue, sent), attempts[i])];
      }
    }
  }
}
