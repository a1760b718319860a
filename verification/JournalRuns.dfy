/** Any number of sessions on one journal: claim, append, tear, crash, reopen and compact. */
module JournalRuns {
  import opened Rollouts
  import opened Bytes
  import opened Journal

  /** What a journal file holds: its header, whole records, and the torn start of one more. */
  datatype Disk = Disk(header: Header, records: seq<Rec>, torn: seq<byte>)

  function Image(m: Media, d: Disk): seq<byte> { EncodeHeader(m, d.header) + (Log(m, d.records) + d.torn) }

  ghost predicate WellKept(m: Media, d: Disk) {
    HeaderFits(d.header) && Counted(m, d.records, 0) && Torn(m, d.torn)
  }

  function LastOf(records: seq<Rec>): Option<nat> { if records == [] then None else Some(|records|) }

  /** Reopening finds exactly the fully written records, in order, and where they end. */
  lemma RecoversExactly(m: Media, d: Disk)
    requires m.Valid() && WellKept(m, d)
    ensures Recover(m, Image(m, d)) ==
            Recovered(d.header, d.records, |Image(m, d)| - |d.torn|, LastOf(d.records))
    ensures Image(m, d)[..|Image(m, d)| - |d.torn|] == Image(m, d.(torn := []))
  {
    hide Encode, EncodeHeader, Parse, DecodeHeader, Storable, Torn;
    HeaderReadsBack(m, d.header);
    ParseLog(m, d.records, d.torn, 0, None);
    var image := Image(m, d);
    assert image[..FILE_HEADER] == EncodeHeader(m, d.header);
    assert image[FILE_HEADER..] == Log(m, d.records) + d.torn;
    assert Log(m, d.records) + [] == Log(m, d.records);
    assert image[..|image| - |d.torn|] == Image(m, d.(torn := []));
  }

  /** A kept file is never empty, and without its torn tail it is kept still. */
  lemma ImageStands(m: Media, d: Disk)
    requires m.Valid() && WellKept(m, d)
    ensures Image(m, d) != [] && WellKept(m, d.(torn := []))
  {
    hide Encode, EncodeHeader, Storable;
    HeaderReadsBack(m, d.header);
  }

  /** A crash while the file header itself is written leaves a journal that no reopening accepts. */
  lemma TornHeaderIsFatal(m: Media, h: Header, cut: nat)
    requires m.Valid() && HeaderFits(h) && cut < FILE_HEADER
    ensures |EncodeHeader(m, h)| == FILE_HEADER
    ensures Recover(m, EncodeHeader(m, h)[..cut]) == if cut == 0 then Empty else CorruptHeader
  {
    HeaderReadsBack(m, h);
  }

  lemma {:induction false} RecordsTakeRoom(m: Media, records: seq<Rec>)
    requires m.Valid() && forall i :: 0 <= i < |records| ==> Storable(m, records[i])
    ensures |Log(m, records)| >= RECORD_HEADER * |records|
  {
    if records != [] {
      EncodedFraming(m, records[0]);
      RecordsTakeRoom(m, records[1..]);
    }
  }

  // ----- the writer -----

  datatype Kept = Kept(kind: nat, payload: seq<byte>)

  /** A compaction marker closes what is kept. */
  function Closed(kept: seq<Kept>): seq<Kept> { kept + [Kept(MARKER_KIND, [])] }

  class JournalWriter {
    const m: Media
    var disk: seq<byte>
    var bytes: nat
    var lastSequence: nat
    var live: bool
    const journalId: seq<byte>
    ghost var held: Disk

    /** The file is as described, and a live writer knows where it ends. */
    ghost predicate Valid()
      reads this
    {
      && m.Valid() && WellKept(m, held) && disk == Image(m, held) && held.header.id == journalId
      && (live ==> held.torn == [] && bytes == |disk| && lastSequence == |held.records|)
    }

    constructor (m: Media, d: Disk)
      requires m.Valid() && WellKept(m, d)
      ensures Valid() && held == d && !live && this.m == m
    {
      this.m, journalId, disk, held := m, d.header.id, Image(m, d), d;
      bytes, lastSequence, live := 0, 0, false;
    }

    /** Reopening truncates the torn tail, keeps every whole record and continues after the last one. */
    method Open(offers: nat -> nat) returns (ok: bool)
      requires Valid()
      modifies this
      ensures Valid() && live == ok
      ensures ok <==> Granted(offers(0), FILE_HEADER) == FILE_HEADER
      ensures held == if ok then old(held).(torn := []) else old(held)
    {
      hide Recover, Image, WellKept;
      RecoversExactly(m, held);
      ImageStands(m, held);
      var r := Replay(m, disk, offers);
      if !r.Recovered? {
        live := false;
        return false;
      }
      disk := disk[..r.validEnd];
      held := held.(torn := []);
      bytes := r.validEnd;
      lastSequence := if r.last.Some? then r.last.value else 0;
      live := true;
      ok := true;
    }

    /** Whether a record of this size is accepted at all. */
    predicate Fits(payload: seq<byte>)
      reads this
    {
      |payload| <= m.maxPayload && bytes + RECORD_HEADER + |payload| <= m.maxBytes
    }

    /** Writes at most `cut` bytes of a record at the end; a short write ends the process. */
    method Append(kind: nat, epoch: nat, writer: seq<byte>, at: nat, payload: seq<byte>, cut: nat) returns (ok: bool)
      requires Valid() && live
      requires FIRST_KIND <= kind <= MARKER_KIND && epoch < Pow256(8) && |writer| == 16 && at < Pow256(8)
      modifies this
      ensures Valid()
      ensures var r := Rec(|old(held.records)| + 1, kind, writer, epoch, at, payload);
              && (!old(Fits(payload)) ==> !ok && live && held == old(held))
              && (old(Fits(payload)) ==>
                    && |Encode(m, r)| == RECORD_HEADER + |payload|
                    && ok == live == (cut >= |Encode(m, r)|)
                    && held == if ok then old(held).(records := old(held.records) + [r])
                               else old(held).(torn := Encode(m, r)[..cut]))
    {
      hide Encode, Image, WellKept;
      if |payload| > m.maxPayload || bytes + RECORD_HEADER + |payload| > m.maxBytes {
        return false;
      }
      var r := Rec(lastSequence + 1, kind, writer, epoch, at, payload);
      NextIsStorable(m, held, r);
      var encoded := Encode(m, r);
      var written := if cut < |encoded| then cut else |encoded|;
      AppendedImage(m, held, r, written);
      disk := disk[..bytes] + encoded[..written];
      if written < |encoded| {
        held := held.(torn := encoded[..written]);
        live := false;
        return false;
      }
      held := held.(records := held.records + [r]);
      bytes, lastSequence := bytes + |encoded|, r.sequence;
      ok := true;
    }

    /** Writes a new file with a new header, what is kept and a closing marker, and takes the old one's place. */
    method Rewrite(kept: seq<Kept>, epoch: nat, writer: seq<byte>, clock: nat -> nat)
      requires Valid() && live && |writer| == 16 && epoch < Pow256(8) && Ticks(clock)
      requires |kept| + 1 < Pow256(8) && Writable(m, kept)
      modifies this
      ensures Valid() && live
      ensures held == Disk(Restamped(old(held).header, clock), Renumber(writer, epoch, Closed(kept), clock), [])
    {
      hide Encode, EncodeHeader, Storable;
      var all := Closed(kept);
      var temp := [];
      for i := 0 to |all|
        modifies {}
        invariant temp == Log(m, Renumber(writer, epoch, all[..i], clock))
      {
        var r := Rec(i + 1, all[i].kind, writer, epoch, clock(i + 1), all[i].payload);
        assert all[..i + 1][..i] == all[..i];
        LogOne(m, Renumber(writer, epoch, all[..i], clock), r);
        temp := temp + Encode(m, r);
      }
      assert all[..|all|] == all;
      RenumberKeeps(m, writer, epoch, all, clock);
      var header := Header(journalId, clock(0));
      held := Disk(header, Renumber(writer, epoch, all, clock), []);
      assert temp + [] == temp;
      disk := EncodeHeader(m, header) + temp;
      bytes, lastSequence := |disk|, |all|;
    }
  }

  lemma LogOne(m: Media, records: seq<Rec>, r: Rec)
    ensures Log(m, records + [r]) == Log(m, records) + Encode(m, r)
  {
    LogJoins(m, records, [r]);
    assert [r][1..] == [];
    assert Log(m, []) == [];
    assert Encode(m, r) + [] == Encode(m, r);
  }

  /** Sequences stay within their field because every record takes room in a bounded file. */
  lemma NextIsStorable(m: Media, d: Disk, r: Rec)
    requires m.Valid() && WellKept(m, d) && d.torn == []
    requires |Image(m, d)| + RECORD_HEADER + |r.payload| <= m.maxBytes && |r.payload| <= m.maxPayload
    requires r.sequence == |d.records| + 1 && FIRST_KIND <= r.kind <= MARKER_KIND
    requires r.epoch < Pow256(8) && |r.writer| == 16 && r.writtenAt < Pow256(8)
    ensures Storable(m, r) && |Encode(m, r)| == RECORD_HEADER + |r.payload|
    ensures WellKept(m, d.(records := d.records + [r]))
    ensures forall cut: nat :: cut < |Encode(m, r)| ==> WellKept(m, d.(torn := Encode(m, r)[..cut]))
  {
    hide Encode;
    RecordsTakeRoom(m, d.records);
    EncodedRecord(m, r);
    forall cut: nat | cut < |Encode(m, r)| ensures Torn(m, Encode(m, r)[..cut]) {
    }
  }

  lemma AppendedImage(m: Media, d: Disk, r: Rec, written: nat)
    requires d.torn == [] && written <= |Encode(m, r)|
    ensures Image(m, d) + Encode(m, r)[..written] ==
            if written < |Encode(m, r)| then Image(m, d.(torn := Encode(m, r)[..written]))
            else Image(m, d.(records := d.records + [r]))
  {
    hide Encode, EncodeHeader;
    var log, encoded := Log(m, d.records), Encode(m, r);
    LogOne(m, d.records, r);
    assert log + [] == log;
    if written == |encoded| {
      assert encoded[..written] == encoded;
      assert (log + encoded) + [] == log + encoded;
      assert EncodeHeader(m, d.header) + log + encoded == EncodeHeader(m, d.header) + (log + encoded);
    } else {
      assert EncodeHeader(m, d.header) + log + encoded[..written] ==
             EncodeHeader(m, d.header) + (log + encoded[..written]);
    }
  }

  // ----- sessions -----

  /** One controller at a time owns the journal; `claims` are the epochs durably claimed so far. */
  datatype Session = Session(disk: Disk, open: bool, writer: seq<byte>, epoch: nat, claims: seq<nat>)

  datatype Deed =
    | Claim(writer: seq<byte>, at: nat, payload: seq<byte>, cut: nat)
    | Write(kind: nat, at: nat, payload: seq<byte>, cut: nat)
    | Compact(kept: seq<Kept>, clock: nat -> nat)

  function MaxEpoch(records: seq<Rec>): nat {
    if records == [] then 0
    else
      var before := MaxEpoch(records[..|records| - 1]);
      if records[|records| - 1].epoch > before then records[|records| - 1].epoch else before
  }

  /** An append that is refused for its size, cut short by a crash, or complete. */
  function Put(m: Media, s: Session, kind: nat, at: nat, payload: seq<byte>, cut: nat): Session {
    var r := Rec(|s.disk.records| + 1, kind, s.writer, s.epoch, at, payload);
    if !s.open || |payload| > m.maxPayload || |Image(m, s.disk)| + RECORD_HEADER + |payload| > m.maxBytes then s
    else if cut < |Encode(m, r)| then s.(disk := s.disk.(torn := Encode(m, r)[..cut]), open := false)
    else s.(disk := s.disk.(records := s.disk.records + [r]))
  }

  /** Opening truncates the tail, takes the next epoch, and records the claim before anything else. */
  function TakeOver(m: Media, s: Session, writer: seq<byte>, at: nat, payload: seq<byte>, cut: nat): Session {
    var epoch := MaxEpoch(s.disk.records) + 1;
    var begun := Session(s.disk.(torn := []), true, writer, epoch, s.claims);
    var put := Put(m, begun, CLAIM_KIND, at, payload, cut);
    if |put.disk.records| > |begun.disk.records| then put.(claims := s.claims + [epoch])
    else put.(open := false)
  }

  /** Compaction renumbers what is kept from one, under the compacting session's epoch, and closes with a marker. */
  function Renumber(writer: seq<byte>, epoch: nat, kept: seq<Kept>, clock: nat -> nat): seq<Rec> {
    if kept == [] then []
    else
      var n := |kept| - 1;
      Renumber(writer, epoch, kept[..n], clock) +
      [Rec(n + 1, kept[n].kind, writer, epoch, clock(n + 1), kept[n].payload)]
  }

  /** The header of a compacted file: the same journal, created anew. */
  function Restamped(h: Header, clock: nat -> nat): Header { h.(createdAt := clock(0)) }

  /** Every reading of the clock fits its field. */
  ghost predicate Ticks(clock: nat -> nat) { forall i :: clock(i) < Pow256(8) }

  function Rewrite(s: Session, kept: seq<Kept>, clock: nat -> nat): Session {
    if !s.open then s
    else s.(disk := Disk(Restamped(s.disk.header, clock), Renumber(s.writer, s.epoch, Closed(kept), clock), []))
  }

  function Do(m: Media, s: Session, deed: Deed): Session {
    match deed
    case Claim(writer, at, payload, cut) => TakeOver(m, s, writer, at, payload, cut)
    case Write(kind, at, payload, cut) => Put(m, s, kind, at, payload, cut)
    case Compact(kept, clock) => Rewrite(s, kept, clock)
  }

  /** Fields fit their widths; compaction is given records it can write. */
  ghost predicate Allowed(m: Media, s: Session, deed: Deed) {
    match deed
    case Claim(writer, at, _, _) => |writer| == 16 && at < Pow256(8) && MaxEpoch(s.disk.records) + 1 < Pow256(8)
    case Write(kind, at, _, _) => FIRST_KIND <= kind <= MARKER_KIND && at < Pow256(8)
    case Compact(kept, clock) => Ticks(clock) && |kept| + 1 < Pow256(8) && Writable(m, kept)
  }

  ghost predicate Happens(m: Media, s: Session, deeds: seq<Deed>, s': Session)
    decreases |deeds|
  {
    if deeds == [] then s' == s
    else Allowed(m, s, deeds[0]) && Happens(m, Do(m, s, deeds[0]), deeds[1..], s')
  }

  ghost predicate Rising(claims: seq<nat>) { forall i, j :: 0 <= i < j < |claims| ==> claims[i] < claims[j] }

  /** The newest claim is the highest epoch any record carries. */
  ghost predicate Owned(s: Session) {
    && Rising(s.claims)
    && MaxEpoch(s.disk.records) == (if s.claims == [] then 0 else s.claims[|s.claims| - 1])
    && (s.open ==> s.claims != [] && s.epoch == s.claims[|s.claims| - 1])
  }

  ghost predicate Inv(m: Media, s: Session) {
    && WellKept(m, s.disk) && Owned(s)
    && (s.open ==> s.disk.torn == [] && |s.writer| == 16 && s.epoch < Pow256(8))
  }

  lemma MaxEpochGrows(records: seq<Rec>, r: Rec)
    ensures MaxEpoch(records + [r]) == if r.epoch > MaxEpoch(records) then r.epoch else MaxEpoch(records)
  {
    assert (records + [r])[..|records|] == records;
  }

  /** What an append makes of a well-kept, open journal. */
  lemma PutKeeps(m: Media, s: Session, kind: nat, at: nat, payload: seq<byte>, cut: nat)
    requires m.Valid() && WellKept(m, s.disk) && s.open && s.disk.torn == []
    requires |s.writer| == 16 && s.epoch < Pow256(8) && FIRST_KIND <= kind <= MARKER_KIND && at < Pow256(8)
    ensures var s' := Put(m, s, kind, at, payload, cut);
            && WellKept(m, s'.disk) && (s'.open ==> s'.disk.torn == [])
            && s'.claims == s.claims && s'.epoch == s.epoch && s'.writer == s.writer
            && (s'.disk.records == s.disk.records ||
                (s'.open && |s'.disk.records| == |s.disk.records| + 1 &&
                 s'.disk.records[..|s.disk.records|] == s.disk.records &&
                 s'.disk.records[|s.disk.records|].epoch == s.epoch))
  {
    hide Encode, Storable;
    var r := Rec(|s.disk.records| + 1, kind, s.writer, s.epoch, at, payload);
    if |payload| <= m.maxPayload && |Image(m, s.disk)| + RECORD_HEADER + |payload| <= m.maxBytes {
      NextIsStorable(m, s.disk, r);
    }
  }

  lemma WriteKeepsInv(m: Media, s: Session, kind: nat, at: nat, payload: seq<byte>, cut: nat)
    requires m.Valid() && Inv(m, s) && Allowed(m, s, Write(kind, at, payload, cut))
    ensures Inv(m, Put(m, s, kind, at, payload, cut))
  {
    hide Encode, Storable;
    var s' := Put(m, s, kind, at, payload, cut);
    if s.open {
      PutKeeps(m, s, kind, at, payload, cut);
      if s'.disk.records != s.disk.records {
        assert s'.disk.records == s.disk.records + [s'.disk.records[|s.disk.records|]];
        MaxEpochGrows(s.disk.records, s'.disk.records[|s.disk.records|]);
      }
    }
  }

  lemma ClaimKeepsInv(m: Media, s: Session, writer: seq<byte>, at: nat, payload: seq<byte>, cut: nat)
    requires m.Valid() && Inv(m, s) && Allowed(m, s, Claim(writer, at, payload, cut))
    ensures Inv(m, TakeOver(m, s, writer, at, payload, cut))
  {
    hide Encode, Storable;
    var epoch := MaxEpoch(s.disk.records) + 1;
    var begun := Session(s.disk.(torn := []), true, writer, epoch, s.claims);
    var put := Put(m, begun, CLAIM_KIND, at, payload, cut);
    PutKeeps(m, begun, CLAIM_KIND, at, payload, cut);
    if put.disk.records != begun.disk.records {
      assert put.disk.records == s.disk.records + [put.disk.records[|s.disk.records|]];
      MaxEpochGrows(s.disk.records, put.disk.records[|s.disk.records|]);
    }
  }

  ghost predicate Writable(m: Media, kept: seq<Kept>) {
    forall i :: 0 <= i < |kept| ==> FIRST_KIND <= kept[i].kind <= MARKER_KIND && |kept[i].payload| <= m.maxPayload
  }

  lemma {:induction false} RenumberKeeps(m: Media, writer: seq<byte>, epoch: nat, kept: seq<Kept>, clock: nat -> nat)
    requires |writer| == 16 && epoch < Pow256(8) && Ticks(clock) && |kept| < Pow256(8) && Writable(m, kept)
    ensures var records := Renumber(writer, epoch, kept, clock);
            && |records| == |kept| && Counted(m, records, 0)
            && MaxEpoch(records) == if kept == [] then 0 else epoch
  {
    if kept != [] {
      var n := |kept| - 1;
      RenumberKeeps(m, writer, epoch, kept[..n], clock);
      MaxEpochGrows(Renumber(writer, epoch, kept[..n], clock),
                    Rec(n + 1, kept[n].kind, writer, epoch, clock(n + 1), kept[n].payload));
    }
  }

  lemma CompactKeepsInv(m: Media, s: Session, kept: seq<Kept>, clock: nat -> nat)
    requires m.Valid() && Inv(m, s) && Allowed(m, s, Compact(kept, clock))
    ensures Inv(m, Rewrite(s, kept, clock))
  {
    if s.open {
      RenumberKeeps(m, s.writer, s.epoch, Closed(kept), clock);
    }
  }

  lemma {:induction false} RunKeepsInv(m: Media, s: Session, deeds: seq<Deed>, s': Session)
    requires m.Valid() && Inv(m, s) && Happens(m, s, deeds, s')
    ensures Inv(m, s')
    decreases |deeds|
  {
    hide Inv;
    if deeds != [] {
      match deeds[0] {
        case Claim(writer, at, payload, cut) => ClaimKeepsInv(m, s, writer, at, payload, cut);
        case Write(kind, at, payload, cut) => WriteKeepsInv(m, s, kind, at, payload, cut);
        case Compact(kept, clock) => CompactKeepsInv(m, s, kept, clock);
      }
      RunKeepsInv(m, Do(m, s, deeds[0]), deeds[1..], s');
    }
  }

  /**
   * However many sessions claim, append, tear, crash and compact, with every append cut at any byte: the
   * file reopens to exactly the fully written records, their sequences count up from one, only the torn
   * tail is dropped, the journal keeps its identifier, and durably claimed epochs strictly increase.
   */
  lemma EveryRunRecovers(m: Media, h: Header, deeds: seq<Deed>, s: Session)
    requires m.Valid() && HeaderFits(h)
    requires Happens(m, Session(Disk(h, [], []), false, [], 0, []), deeds, s)
    ensures Recover(m, Image(m, s.disk)) ==
            Recovered(s.disk.header, s.disk.records, |Image(m, s.disk)| - |s.disk.torn|, LastOf(s.disk.records))
    ensures s.disk.header.id == h.id
    ensures (forall i :: 0 <= i < |deeds| ==> !deeds[i].Compact?) ==> s.disk.header == h
    ensures forall i :: 0 <= i < |s.disk.records| ==> s.disk.records[i].sequence == i + 1
    ensures Rising(s.claims)
    ensures MaxEpoch(s.disk.records) == (if s.claims == [] then 0 else s.claims[|s.claims| - 1])
  {
    hide Encode, Storable, Recover, Happens;
    RunKeepsInv(m, Session(Disk(h, [], []), false, [], 0, []), deeds, s);
    HeaderStays(m, Session(Disk(h, [], []), false, [], 0, []), deeds, s);
    RecoversExactly(m, s.disk);
  }

  lemma {:induction false} HeaderStays(m: Media, s: Session, deeds: seq<Deed>, s': Session)
    requires Happens(m, s, deeds, s')
    ensures s'.disk.header.id == s.disk.header.id
    ensures (forall i :: 0 <= i < |deeds| ==> !deeds[i].Compact?) ==> s'.disk.header == s.disk.header
    decreases |deeds|
  {
    hide Encode, Image;
    if deeds != [] {
      HeaderStays(m, Do(m, s, deeds[0]), deeds[1..], s');
    }
  }
}
