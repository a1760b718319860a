/**
 * What a controller rebuilds from its journal when it opens: the epoch to claim,
 * and the newest of everything stored.
 */
module Opening {
  import opened Rollouts
  import opened Bytes
  import opened Journal
  import opened JournalRuns

  const INVENTORY_KIND: nat := 2
  const PLAN_KIND: nat := 3
  const CREATED_KIND: nat := 4
  const SNAPSHOT_KIND: nat := 15

  /** A stored plan or rollout: whose it is, and what it says. */
  datatype Named = Named(id: nat, content: seq<byte>)

  /** The payload decoders, which nothing here looks into. */
  datatype Codec = Codec(
    inventory: seq<byte> -> Option<seq<byte>>, plan: seq<byte> -> Option<Named>, rollout: seq<byte> -> Option<Named>)

  datatype Memory =
    | Refused
    | Rebuilt(inventory: Option<seq<byte>>, plans: map<nat, seq<byte>>, rollouts: map<nat, seq<byte>>)

  predicate IsSnapshot(r: Rec) { r.kind == CREATED_KIND || r.kind == SNAPSHOT_KIND }

  /** One record folded in: a later one of the same identity supersedes an earlier one. */
  function Take(c: Codec, b: Memory, r: Rec): Memory {
    if b.Refused? then b
    else if r.kind == INVENTORY_KIND then
      (match c.inventory(r.payload)
       case None => Refused
       case Some(inventory) => b.(inventory := Some(inventory)))
    else if r.kind == PLAN_KIND then
      (match c.plan(r.payload)
       case None => Refused
       case Some(plan) => b.(plans := b.plans[plan.id := plan.content]))
    else if IsSnapshot(r) then
      (match c.rollout(r.payload)
       case None => Refused
       case Some(rollout) => b.(rollouts := b.rollouts[rollout.id := rollout.content]))
    else b
  }

  function Rebuild(c: Codec, records: seq<Rec>): Memory {
    if records == [] then Rebuilt(None, map[], map[])
    else Take(c, Rebuild(c, records[..|records| - 1]), records[|records| - 1])
  }

  /** The fold as the controller runs it; the first record that cannot be read refuses the journal. */
  method Fold(c: Codec, records: seq<Rec>) returns (memory: Memory)
    ensures memory == Rebuild(c, records)
  {
    var inventory: Option<seq<byte>>, plans: map<nat, seq<byte>>, rollouts: map<nat, seq<byte>> := None, map[], map[];
    for i := 0 to |records|
      invariant Rebuild(c, records[..i]) == Rebuilt(inventory, plans, rollouts)
    {
      var r := records[i];
      assert records[..i + 1][..i] == records[..i];
      if r.kind == INVENTORY_KIND {
        var decoded := c.inventory(r.payload);
        if decoded.None? {
          RefusedStays(c, records, i + 1);
          return Refused;
        }
        inventory := Some(decoded.value);
      } else if r.kind == PLAN_KIND {
        var decoded := c.plan(r.payload);
        if decoded.None? {
          RefusedStays(c, records, i + 1);
          return Refused;
        }
        plans := plans[decoded.value.id := decoded.value.content];
      } else if IsSnapshot(r) {
        var decoded := c.rollout(r.payload);
        if decoded.None? {
          RefusedStays(c, records, i + 1);
          return Refused;
        }
        rollouts := rollouts[decoded.value.id := decoded.value.content];
      }
    }
    assert records[..|records|] == records;
    memory := Rebuilt(inventory, plans, rollouts);
  }

  lemma {:induction false} RefusedStays(c: Codec, records: seq<Rec>, n: nat)
    requires n <= |records| && Rebuild(c, records[..n]).Refused?
    ensures Rebuild(c, records).Refused?
    decreases |records|
  {
    if n == |records| {
      assert records[..n] == records;
    } else {
      assert records[..|records| - 1][..n] == records[..n];
      RefusedStays(c, records[..|records| - 1], n);
    }
  }

  predicate Readable(c: Codec, r: Rec) {
    && (r.kind == INVENTORY_KIND ==> c.inventory(r.payload).Some?)
    && (r.kind == PLAN_KIND ==> c.plan(r.payload).Some?)
    && (IsSnapshot(r) ==> c.rollout(r.payload).Some?)
  }

  /** A journal is refused exactly when one of its records cannot be read. */
  lemma {:induction false} RefusedIff(c: Codec, records: seq<Rec>)
    ensures Rebuild(c, records).Refused? <==> exists i :: 0 <= i < |records| && !Readable(c, records[i])
  {
    if records != [] {
      var front := records[..|records| - 1];
      RefusedIff(c, front);
      assert forall i :: 0 <= i < |front| ==> front[i] == records[i];
      if i :| 0 <= i < |front| && !Readable(c, front[i]) {
        assert !Readable(c, records[i]);
      }
    }
  }

  predicate Tells(c: Codec, r: Rec, id: nat) {
    IsSnapshot(r) && c.rollout(r.payload).Some? && c.rollout(r.payload).value.id == id
  }

  /** Record `i` tells about the rollout and no later one does. */
  ghost predicate Newest(c: Codec, records: seq<Rec>, id: nat, i: nat) {
    && i < |records| && Tells(c, records[i], id)
    && forall j :: i < j < |records| ==> !Tells(c, records[j], id)
  }

  /** Nothing is rebuilt that no record tells about. */
  lemma {:induction false} RebuiltWasTold(c: Codec, records: seq<Rec>, id: nat) returns (i: nat)
    requires Rebuild(c, records).Rebuilt? && id in Rebuild(c, records).rollouts
    ensures Newest(c, records, id, i)
  {
    var n := |records| - 1;
    if Tells(c, records[n], id) {
      i := n;
    } else {
      i := RebuiltWasTold(c, records[..n], id);
      assert Newest(c, records, id, i);
    }
  }

  /** A rollout some record tells about is rebuilt as the newest record tells it. */
  lemma {:induction false} NewestWins(c: Codec, records: seq<Rec>, id: nat, i: nat)
    requires Rebuild(c, records).Rebuilt? && Newest(c, records, id, i)
    ensures var rollouts := Rebuild(c, records).rollouts;
            id in rollouts && rollouts[id] == c.rollout(records[i].payload).value.content
  {
    var n := |records| - 1;
    if i < n {
      assert Newest(c, records[..n], id, i);
      NewestWins(c, records[..n], id, i);
      assert !Tells(c, records[n], id);
    }
  }

  /** The loop that finds the highest epoch any record carries. */
  method HighestEpoch(records: seq<Rec>) returns (highest: nat)
    ensures highest == MaxEpoch(records)
  {
    highest := 0;
    for i := 0 to |records|
      invariant highest == MaxEpoch(records[..i])
    {
      assert records[..i + 1][..i] == records[..i];
      if records[i].epoch > highest {
        highest := records[i].epoch;
      }
    }
    assert records[..|records|] == records;
  }

  lemma {:induction false} EpochsBelow(records: seq<Rec>)
    ensures forall i :: 0 <= i < |records| ==> records[i].epoch <= MaxEpoch(records)
    ensures MaxEpoch(records) > 0 ==> exists i :: 0 <= i < |records| && records[i].epoch == MaxEpoch(records)
  {
    if records != [] {
      var front := records[..|records| - 1];
      EpochsBelow(front);
      assert forall i :: 0 <= i < |front| ==> front[i] == records[i];
      if i :| 0 <= i < |front| && front[i].epoch == MaxEpoch(front) {
        assert records[i].epoch == MaxEpoch(front);
      }
    }
  }

  /** What the next controller remembers of a disk. */
  function Remembered(m: Media, c: Codec, d: Disk): Memory {
    match Recover(m, Image(m, d))
    case Recovered(_, records, _, _) => Rebuild(c, records)
    case _ => Refused
  }

  /**
   * Writing a record is atomic for whoever opens the journal next: after any history of sessions, an append
   * cut at any byte is either remembered in full or leaves what would be remembered as it was.
   */
  lemma AppendIsAtomic(m: Media, c: Codec, h: Header, deeds: seq<Deed>, s: Session,
                       kind: nat, at: nat, payload: seq<byte>, cut: nat)
    requires m.Valid() && HeaderFits(h)
    requires Happens(m, Session(Disk(h, [], []), false, [], 0, []), deeds, s)
    requires Allowed(m, s, Write(kind, at, payload, cut)) && s.open
    ensures var r := Rec(|s.disk.records| + 1, kind, s.writer, s.epoch, at, payload);
            var s' := Put(m, s, kind, at, payload, cut);
            && Remembered(m, c, s.disk) == Rebuild(c, s.disk.records)
            && Remembered(m, c, s'.disk) ==
               (if |s'.disk.records| > |s.disk.records| then Take(c, Remembered(m, c, s.disk), r)
                else Remembered(m, c, s.disk))
            && (s'.open && |s'.disk.records| == |s.disk.records| ==> s' == s)
  {
    hide Encode, Storable, Recover, Happens, Image, Torn, Take;
    var s' := Put(m, s, kind, at, payload, cut);
    var r := Rec(|s.disk.records| + 1, kind, s.writer, s.epoch, at, payload);
    StartIsInv(m, h);
    RunKeepsInv(m, Session(Disk(h, [], []), false, [], 0, []), deeds, s);
    WriteKeepsInv(m, s, kind, at, payload, cut);
    RecoversExactly(m, s.disk);
    RecoversExactly(m, s'.disk);
    assert (s.disk.records + [r])[..|s.disk.records|] == s.disk.records;
  }

  lemma StartIsInv(m: Media, h: Header)
    requires HeaderFits(h)
    ensures Inv(m, Session(Disk(h, [], []), false, [], 0, []))
  {
    hide Encode, Storable;
  }

  /** The epoch the next controller claims is above every epoch any earlier session recorded or claimed. */
  lemma NextClaimIsNew(m: Media, h: Header, deeds: seq<Deed>, s: Session)
    requires m.Valid() && HeaderFits(h)
    requires Happens(m, Session(Disk(h, [], []), false, [], 0, []), deeds, s)
    ensures forall i :: 0 <= i < |s.claims| ==> s.claims[i] < MaxEpoch(s.disk.records) + 1
    ensures forall i :: 0 <= i < |s.disk.records| ==> s.disk.records[i].epoch < MaxEpoch(s.disk.records) + 1
  {
    hide Encode, Storable, Recover, Happens, Image, Torn;
    EveryRunRecovers(m, h, deeds, s);
    EpochsBelow(s.disk.records);
  }
}
