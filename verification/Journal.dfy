/**
 * The append-only journal: records framed by checksums, torn writes, replay with short reads, truncation
 * and appending again.
 */
module Journal {
  import opened Rollouts
  import opened Bytes

  const FILE_HEADER: nat := 48
  const RECORD_HEADER: nat := 96
  const JOURNAL_MAGIC: nat := 0x4A465231
  const RECORD_MAGIC: nat := 0x52454331
  const FORMAT: nat := 1
  const ABI: nat := 1
  const FIRST_KIND: nat := 1
  const CLAIM_KIND: nat := 17
  const MARKER_KIND: nat := 18

  /** The hash functions, which nothing here looks into, and the configured limits. */
  datatype Media = Media(crc: seq<byte> -> nat, sha: seq<byte> -> seq<byte>, maxPayload: nat, maxBytes: nat) {
    ghost predicate Valid() {
      && maxPayload < Pow256(4) && maxBytes < Pow256(8)
      && (forall s :: crc(s) < Pow256(4))
      && (forall s :: |sha(s)| == 32)
    }

    function ChunkSize(): (n: nat)
      ensures n > 0
    {
      if maxPayload + RECORD_HEADER < 0x80_0000 then maxPayload + RECORD_HEADER else 0x80_0000
    }
  }

  datatype Rec = Rec(sequence: nat, kind: nat, writer: seq<byte>, epoch: nat, writtenAt: nat, payload: seq<byte>)

  datatype Header = Header(id: seq<byte>, createdAt: nat)

  // ----- encoding -----

  function HeaderFields(h: Header): seq<seq<byte>> {
    [LE(JOURNAL_MAGIC, 4), LE(FORMAT, 4), LE(ABI, 4), LE(FILE_HEADER, 4), h.id, LE(h.createdAt, 8), LE(0, 4)]
  }

  function EncodeHeader(m: Media, h: Header): seq<byte> {
    Flat(HeaderFields(h)) + LE(m.crc(Flat(HeaderFields(h))), 4)
  }

  ghost predicate HeaderFits(h: Header) { |h.id| == 16 && h.createdAt < Pow256(8) }

  function RecordFields(m: Media, r: Rec): seq<seq<byte>> {
    [LE(RECORD_MAGIC, 4), LE(RECORD_HEADER, 4), LE(r.sequence, 8), LE(r.kind, 2), LE(0, 2), r.writer,
     LE(r.epoch, 8), LE(r.writtenAt, 8), LE(|r.payload|, 4), LE(m.crc(r.payload), 4), m.sha(r.payload)]
  }

  function RecordHeader(m: Media, r: Rec): seq<byte> {
    Flat(RecordFields(m, r)) + LE(m.crc(Flat(RecordFields(m, r))), 4)
  }

  function Encode(m: Media, r: Rec): seq<byte> { RecordHeader(m, r) + r.payload }

  ghost predicate Storable(m: Media, r: Rec) {
    && r.sequence < Pow256(8) && FIRST_KIND <= r.kind <= MARKER_KIND && |r.writer| == 16
    && r.epoch < Pow256(8) && r.writtenAt < Pow256(8) && |r.payload| <= m.maxPayload
  }

  // ----- decoding -----

  function DecodeHeader(m: Media, h: seq<byte>): Option<Header>
    requires |h| == FILE_HEADER
  {
    if At(h, 0, 4) != JOURNAL_MAGIC || At(h, 12, 4) != FILE_HEADER || m.crc(h[..44]) != At(h, 44, 4) ||
       At(h, 40, 4) != 0 || At(h, 4, 4) != FORMAT || At(h, 8, 4) != ABI then None
    else Some(Header(h[16..32], At(h, 32, 8)))
  }

  /** How long the record with this header is, if the header is one at all. */
  function Framing(m: Media, h: seq<byte>): (total: Option<nat>)
    requires |h| == RECORD_HEADER
    ensures total.Some? ==> total.value >= RECORD_HEADER
  {
    if At(h, 0, 4) != RECORD_MAGIC || At(h, 4, 4) != RECORD_HEADER || m.crc(h[..92]) != At(h, 92, 4) ||
       At(h, 16, 2) < FIRST_KIND || At(h, 16, 2) > MARKER_KIND || At(h, 18, 2) != 0 || At(h, 52, 4) > m.maxPayload
    then None
    else Some(RECORD_HEADER + At(h, 52, 4))
  }

  function RecordIn(s: seq<byte>): Rec
    requires |s| >= RECORD_HEADER
  {
    Rec(At(s, 8, 8), At(s, 16, 2), s[20..36], At(s, 36, 8), At(s, 44, 8), s[RECORD_HEADER..])
  }

  predicate PayloadMatches(m: Media, s: seq<byte>)
    requires |s| >= RECORD_HEADER
  {
    m.crc(s[RECORD_HEADER..]) == At(s, 56, 4) && m.sha(s[RECORD_HEADER..]) == s[60..92]
  }

  /** What stands at the front of a byte string: part of a record, no record, or a whole one. */
  datatype Front = NeedMore | Bad | Got(rec: Rec, total: nat)

  function FrontOf(m: Media, s: seq<byte>): (f: Front)
    ensures f.Got? ==> RECORD_HEADER <= f.total <= |s|
  {
    if |s| < RECORD_HEADER then NeedMore
    else
      match Framing(m, s[..RECORD_HEADER])
      case None => Bad
      case Some(total) =>
        if |s| < total then NeedMore
        else if PayloadMatches(m, s[..total]) then Got(RecordIn(s[..total]), total)
        else Bad
  }

  predicate Follows(last: Option<nat>, sequence: nat) { last.Some? ==> last.value < sequence }

  /** The records a byte string starts with, in strictly increasing sequence, and how far they reach. */
  datatype Parsed = Parsed(records: seq<Rec>, length: nat, last: Option<nat>)

  function Parse(m: Media, s: seq<byte>, last: Option<nat>): (p: Parsed)
    ensures p.length <= |s|
    decreases |s|
  {
    match FrontOf(m, s)
    case Got(rec, total) =>
      if Follows(last, rec.sequence) then
        var later := Parse(m, s[total..], Some(rec.sequence));
        Parsed([rec] + later.records, total + later.length, later.last)
      else Parsed([], 0, last)
    case _ => Parsed([], 0, last)
  }

  // ----- an encoded record reads back -----

  lemma RecordOffsets(m: Media, r: Rec)
    requires m.Valid() && |r.writer| == 16
    ensures var fs := RecordFields(m, r);
            && |fs| == 11 && Offset(fs, 1) == 4 && Offset(fs, 2) == 8 && Offset(fs, 3) == 16 && Offset(fs, 4) == 18
            && Offset(fs, 5) == 20 && Offset(fs, 6) == 36 && Offset(fs, 7) == 44 && Offset(fs, 8) == 52
            && Offset(fs, 9) == 56 && Offset(fs, 10) == 60 && |Flat(fs)| == 92
  {
    var fs := RecordFields(m, r);
    assert Offset(fs, 1) == 4;
    assert Offset(fs, 2) == 8;
    assert Offset(fs, 3) == 16;
    assert Offset(fs, 4) == 18;
    assert Offset(fs, 5) == 20;
    assert Offset(fs, 6) == 36;
    assert Offset(fs, 7) == 44;
    assert Offset(fs, 8) == 52;
    assert Offset(fs, 9) == 56;
    assert Offset(fs, 10) == 60;
    assert Offset(fs, 11) == 92;
    FlatLength(fs);
  }

  /** The integer field `i` of a layout reads back as what was written, whatever follows the layout. */
  lemma ReadsBack(fields: seq<seq<byte>>, tail: seq<byte>, i: nat, n: nat, width: nat)
    requires i < |fields| && fields[i] == LE(n, width) && n < Pow256(width)
    ensures Offset(fields, i) + width <= |Flat(fields)|
    ensures At(Flat(fields) + tail, Offset(fields, i), width) == n
  {
    FieldAt(fields, i);
    FromLEOfLE(n, width);
    var at := Offset(fields, i);
    assert (Flat(fields) + tail)[at..at + width] == Flat(fields)[at..at + width];
  }

  lemma ChecksumReadsBack(head: seq<byte>, n: nat, tail: seq<byte>)
    requires n < Pow256(4)
    ensures At(head + LE(n, 4) + tail, |head|, 4) == n
    ensures (head + LE(n, 4) + tail)[..|head|] == head
  {
    FromLEOfLE(n, 4);
    assert (head + LE(n, 4) + tail)[|head|..|head| + 4] == LE(n, 4);
  }

  lemma EncodedFraming(m: Media, r: Rec)
    requires m.Valid() && Storable(m, r)
    ensures |RecordHeader(m, r)| == RECORD_HEADER
    ensures Framing(m, RecordHeader(m, r)) == Some(RECORD_HEADER + |r.payload|)
  {
    var fs := RecordFields(m, r);
    var sum := m.crc(Flat(fs));
    var h := RecordHeader(m, r);
    RecordOffsets(m, r);
    Widths();
    ReadsBack(fs, LE(sum, 4), 0, RECORD_MAGIC, 4);
    ReadsBack(fs, LE(sum, 4), 1, RECORD_HEADER, 4);
    ReadsBack(fs, LE(sum, 4), 3, r.kind, 2);
    ReadsBack(fs, LE(sum, 4), 4, 0, 2);
    ReadsBack(fs, LE(sum, 4), 8, |r.payload|, 4);
    ChecksumReadsBack(Flat(fs), sum, []);
    assert h + [] == h;
  }

  lemma EncodedNumbers(m: Media, r: Rec)
    requires m.Valid() && Storable(m, r)
    ensures |Encode(m, r)| == RECORD_HEADER + |r.payload|
    ensures var s := Encode(m, r);
            && At(s, 8, 8) == r.sequence && At(s, 16, 2) == r.kind && At(s, 36, 8) == r.epoch
            && At(s, 44, 8) == r.writtenAt && At(s, 56, 4) == m.crc(r.payload)
  {
    var fs := RecordFields(m, r);
    var tail := LE(m.crc(Flat(fs)), 4) + r.payload;
    RecordOffsets(m, r);
    Widths();
    assert Encode(m, r) == Flat(fs) + tail;
    ReadsBack(fs, tail, 2, r.sequence, 8);
    ReadsBack(fs, tail, 3, r.kind, 2);
    ReadsBack(fs, tail, 6, r.epoch, 8);
    ReadsBack(fs, tail, 7, r.writtenAt, 8);
    ReadsBack(fs, tail, 9, m.crc(r.payload), 4);
  }

  lemma EncodedRecord(m: Media, r: Rec)
    requires m.Valid() && Storable(m, r)
    ensures |Encode(m, r)| == RECORD_HEADER + |r.payload|
    ensures RecordIn(Encode(m, r)) == r && PayloadMatches(m, Encode(m, r))
  {
    var fs, s := RecordFields(m, r), Encode(m, r);
    EncodedNumbers(m, r);
    RecordOffsets(m, r);
    FieldAt(fs, 5);
    FieldAt(fs, 10);
    assert s[20..36] == Flat(fs)[20..36];
    assert s[60..92] == Flat(fs)[60..92];
    assert s[RECORD_HEADER..] == r.payload;
  }

  /** A whole record is found again whatever comes after it. */
  lemma EncodedFront(m: Media, r: Rec, tail: seq<byte>)
    requires m.Valid() && Storable(m, r)
    ensures FrontOf(m, Encode(m, r) + tail) == Got(r, |Encode(m, r)|)
    ensures (Encode(m, r) + tail)[|Encode(m, r)|..] == tail
  {
    var s, total := Encode(m, r) + tail, |Encode(m, r)|;
    EncodedFraming(m, r);
    EncodedRecord(m, r);
    assert s[..RECORD_HEADER] == RecordHeader(m, r);
    assert s[..total] == Encode(m, r);
  }

  /** A torn record is never taken for a record, nor for corruption: it just is not all there. */
  lemma TornNeedsMore(m: Media, r: Rec, cut: nat)
    requires m.Valid() && Storable(m, r) && cut < |Encode(m, r)|
    ensures FrontOf(m, Encode(m, r)[..cut]).NeedMore?
  {
    EncodedFraming(m, r);
    if cut >= RECORD_HEADER {
      assert Encode(m, r)[..cut][..RECORD_HEADER] == RecordHeader(m, r);
    }
  }

  // ----- a journal on disk -----

  function Log(m: Media, records: seq<Rec>): seq<byte> {
    if records == [] then [] else Encode(m, records[0]) + Log(m, records[1..])
  }

  lemma {:induction false} LogJoins(m: Media, a: seq<Rec>, b: seq<Rec>)
    ensures Log(m, a + b) == Log(m, a) + Log(m, b)
  {
    hide Encode;
    if a == [] {
      assert a + b == b;
    } else {
      LogJoins(m, a[1..], b);
      assert (a + b)[1..] == a[1..] + b;
      assert Log(m, a + b) == Encode(m, a[0]) + (Log(m, a[1..]) + Log(m, b));
    }
  }

  ghost predicate Torn(m: Media, torn: seq<byte>) {
    torn == [] || exists r, cut: nat :: Storable(m, r) && cut < |Encode(m, r)| && torn == Encode(m, r)[..cut]
  }

  /** Sequences count from one, so they strictly increase. */
  ghost predicate Counted(m: Media, records: seq<Rec>, from: nat) {
    forall i :: 0 <= i < |records| ==> Storable(m, records[i]) && records[i].sequence == from + i + 1
  }

  lemma ParseTorn(m: Media, torn: seq<byte>, last: Option<nat>)
    requires m.Valid() && Torn(m, torn)
    ensures Parse(m, torn, last) == Parsed([], 0, last)
  {
    if torn != [] {
      var r, cut: nat :| Storable(m, r) && cut < |Encode(m, r)| && torn == Encode(m, r)[..cut];
      TornNeedsMore(m, r, cut);
    }
  }

  lemma ParseFirst(m: Media, r: Rec, rest: seq<byte>, last: Option<nat>)
    requires m.Valid() && Storable(m, r) && Follows(last, r.sequence)
    ensures var later := Parse(m, rest, Some(r.sequence));
            Parse(m, Encode(m, r) + rest, last) ==
            Parsed([r] + later.records, |Encode(m, r)| + later.length, later.last)
  {
    EncodedFront(m, r, rest);
  }

  lemma {:induction false} ParseLog(m: Media, records: seq<Rec>, torn: seq<byte>, from: nat, last: Option<nat>)
    requires m.Valid() && Counted(m, records, from) && Torn(m, torn)
    requires last.Some? ==> last.value <= from
    ensures Parse(m, Log(m, records) + torn, last) ==
            Parsed(records, |Log(m, records)|, if records == [] then last else Some(from + |records|))
    decreases |records|
  {
    hide Encode, Parse, Torn, Storable;
    if records == [] {
      assert Log(m, records) + torn == torn;
      ParseTorn(m, torn, last);
    } else {
      var r, rest := records[0], Log(m, records[1..]) + torn;
      assert Log(m, records) + torn == Encode(m, r) + rest;
      ParseFirst(m, r, rest, last);
      forall i | 0 <= i < |records[1..]|
        ensures Storable(m, records[1..][i]) && records[1..][i].sequence == from + 1 + i + 1
      {
        assert records[1..][i] == records[i + 1];
      }
      ParseLog(m, records[1..], torn, from + 1, Some(r.sequence));
      assert [r] + records[1..] == records;
    }
  }

  lemma HeaderOffsets(h: Header)
    requires HeaderFits(h)
    ensures var fs := HeaderFields(h);
            && |fs| == 7 && Offset(fs, 1) == 4 && Offset(fs, 2) == 8 && Offset(fs, 3) == 12 && Offset(fs, 4) == 16
            && Offset(fs, 5) == 32 && Offset(fs, 6) == 40 && |Flat(fs)| == 44
  {
    var fs := HeaderFields(h);
    assert Offset(fs, 1) == 4;
    assert Offset(fs, 2) == 8;
    assert Offset(fs, 3) == 12;
    assert Offset(fs, 4) == 16;
    assert Offset(fs, 5) == 32;
    assert Offset(fs, 6) == 40;
    assert Offset(fs, 7) == 44;
    FlatLength(fs);
  }

  lemma HeaderReadsBack(m: Media, h: Header)
    requires m.Valid() && HeaderFits(h)
    ensures |EncodeHeader(m, h)| == FILE_HEADER && DecodeHeader(m, EncodeHeader(m, h)) == Some(h)
  {
    var fs := HeaderFields(h);
    var sum := m.crc(Flat(fs));
    HeaderOffsets(h);
    Widths();
    ReadsBack(fs, LE(sum, 4), 0, JOURNAL_MAGIC, 4);
    ReadsBack(fs, LE(sum, 4), 1, FORMAT, 4);
    ReadsBack(fs, LE(sum, 4), 2, ABI, 4);
    ReadsBack(fs, LE(sum, 4), 3, FILE_HEADER, 4);
    ReadsBack(fs, LE(sum, 4), 5, h.createdAt, 8);
    ReadsBack(fs, LE(sum, 4), 6, 0, 4);
    ChecksumReadsBack(Flat(fs), sum, []);
    assert EncodeHeader(m, h) + [] == EncodeHeader(m, h);
    FieldAt(fs, 4);
    assert EncodeHeader(m, h)[16..32] == Flat(fs)[16..32];
  }

  // ----- replay -----

  /** A corrupt header, or the records proved and where they end. */
  datatype Replayed = CorruptHeader | Empty
    | Recovered(header: Header, records: seq<Rec>, validEnd: nat, last: Option<nat>)

  function Recover(m: Media, file: seq<byte>): Replayed {
    if file == [] then Empty
    else if |file| < FILE_HEADER then CorruptHeader
    else
      match DecodeHeader(m, file[..FILE_HEADER])
      case None => CorruptHeader
      case Some(h) =>
        var p := Parse(m, file[FILE_HEADER..], None);
        Recovered(h, p.records, FILE_HEADER + p.length, p.last)
  }

  /** A read returns at least one byte before the end of the file, and no more than asked for. */
  function Granted(offer: nat, want: nat): (n: nat)
    ensures n <= want && (want > 0 ==> n > 0)
  {
    if want == 0 then 0 else if offer == 0 then 1 else if offer < want then offer else want
  }

  lemma FrontOfPrefix(m: Media, pending: seq<byte>, rest: seq<byte>)
    requires |pending| <= |rest| && pending == rest[..|pending|]
    ensures !FrontOf(m, pending).NeedMore? ==> FrontOf(m, rest) == FrontOf(m, pending)
  {
    if |pending| >= RECORD_HEADER {
      assert pending[..RECORD_HEADER] == rest[..RECORD_HEADER];
      var framing := Framing(m, rest[..RECORD_HEADER]);
      if framing.Some? && |pending| >= framing.value {
        assert pending[..framing.value] == rest[..framing.value];
      }
    }
  }

  /** What has been replayed, and what the rest of the file will add. */
  ghost function Promise(m: Media, records: seq<Rec>, validEnd: nat, rest: seq<byte>, last: Option<nat>): Parsed {
    var p := Parse(m, rest, last);
    Parsed(records + p.records, validEnd + p.length, p.last)
  }

  lemma TakeOne(m: Media, taken: seq<Rec>, used: nat, rest: seq<byte>, last: Option<nat>, rec: Rec, total: nat)
    requires used <= |rest| && FrontOf(m, rest[used..]) == Got(rec, total) && Follows(last, rec.sequence)
    ensures used + total <= |rest|
    ensures Promise(m, taken, used, rest[used..], last) ==
            Promise(m, taken + [rec], used + total, rest[used + total..], Some(rec.sequence))
  {
    var left := rest[used..];
    assert left[total..] == rest[used + total..];
    var later := Parse(m, left[total..], Some(rec.sequence));
    assert taken + ([rec] + later.records) == (taken + [rec]) + later.records;
  }

  lemma StopsHere(m: Media, rest: seq<byte>, last: Option<nat>)
    requires FrontOf(m, rest).Got? ==> !Follows(last, FrontOf(m, rest).rec.sequence)
    ensures Parse(m, rest, last) == Parsed([], 0, last)
  {
  }

  /** The front of the file's rest is what its first bytes show, once they show anything. */
  lemma FrontShown(m: Media, pending: seq<byte>, rest: seq<byte>, used: nat)
    requires used <= |pending| <= |rest| && pending == rest[..|pending|]
    ensures !FrontOf(m, pending[used..]).NeedMore? ==> FrontOf(m, rest[used..]) == FrontOf(m, pending[used..])
  {
    assert pending[used..] == rest[used..][..|pending| - used];
    FrontOfPrefix(m, pending[used..], rest[used..]);
  }

  datatype Found = More | Stop | Take(rec: Rec, total: nat)

  /** Looks at the front of what has been read and not yet used. */
  method Look(m: Media, pending: seq<byte>, used: nat, last: Option<nat>, ghost rest: seq<byte>) returns (found: Found)
    requires used <= |pending| <= |rest| && pending == rest[..|pending|]
    ensures found.More? ==> FrontOf(m, pending[used..]).NeedMore?
    ensures found.Stop? ==> Parse(m, rest[used..], last) == Parsed([], 0, last)
    ensures found.Take? ==>
              && 0 < found.total <= |pending| - used
              && FrontOf(m, rest[used..]) == Got(found.rec, found.total) && Follows(last, found.rec.sequence)
  {
    FrontShown(m, pending, rest, used);
    var front := FrontOf(m, pending[used..]);
    if front.NeedMore? {
      found := More;
    } else if front.Bad? || !Follows(last, front.rec.sequence) {
      StopsHere(m, rest[used..], last);
      found := Stop;
    } else {
      found := Take(front.rec, front.total);
    }
  }

  /** Takes whole records off the front of what has been read, until more bytes are needed or replay ends. */
  method Consume(m: Media, pending: seq<byte>, last: Option<nat>, ghost rest: seq<byte>)
    returns (taken: seq<Rec>, used: nat, last': Option<nat>, stopped: bool)
    requires |pending| <= |rest| && pending == rest[..|pending|]
    ensures used <= |pending|
    ensures Promise(m, taken, used, rest[used..], last') == Promise(m, [], 0, rest, last)
    ensures stopped ==> Parse(m, rest[used..], last') == Parsed([], 0, last')
    ensures !stopped ==> FrontOf(m, pending[used..]).NeedMore?
  {
    hide Parse, FrontOf, Promise;
    taken, used, last', stopped := [], 0, last, false;
    assert rest[0..] == rest;
    var found := Look(m, pending, used, last', rest);
    while found.Take?
      invariant used <= |pending|
      invariant Promise(m, taken, used, rest[used..], last') == Promise(m, [], 0, rest, last)
      invariant found.More? ==> FrontOf(m, pending[used..]).NeedMore?
      invariant found.Stop? ==> Parse(m, rest[used..], last') == Parsed([], 0, last')
      invariant found.Take? ==>
                  && 0 < found.total <= |pending| - used
                  && FrontOf(m, rest[used..]) == Got(found.rec, found.total) && Follows(last', found.rec.sequence)
      decreases |pending| - used
    {
      TakeOne(m, taken, used, rest, last', found.rec, found.total);
      taken, used, last' := taken + [found.rec], used + found.total, Some(found.rec.sequence);
      found := Look(m, pending, used, last', rest);
    }
    stopped := found.Stop?;
  }

  /** Promises add up: what the front of the rest was found to hold comes after what was found before. */
  lemma PromisesAdd(m: Media, records: seq<Rec>, validEnd: nat, rest: seq<byte>, last: Option<nat>,
                    taken: seq<Rec>, used: nat, last': Option<nat>)
    requires used <= |rest| && Promise(m, taken, used, rest[used..], last') == Promise(m, [], 0, rest, last)
    ensures Promise(m, records + taken, validEnd + used, rest[used..], last') ==
            Promise(m, records, validEnd, rest, last)
  {
    hide Parse;
    var p, q := Parse(m, rest, last), Parse(m, rest[used..], last');
    assert [] + p.records == p.records;
    assert (records + taken) + q.records == records + (taken + q.records);
  }

  /** One read after what is pending: never empty before the end of the file, possibly short. */
  method ReadMore(m: Media, file: seq<byte>, validEnd: nat, pending: seq<byte>, offer: nat)
    returns (pending': seq<byte>)
    requires validEnd + |pending| <= |file| && pending == file[validEnd..validEnd + |pending|]
    ensures validEnd + |pending'| <= |file| && pending' == file[validEnd..validEnd + |pending'|]
    ensures validEnd + |pending| < |file| ==> |pending'| > |pending|
    ensures validEnd + |pending| == |file| ==> pending' == pending
  {
    pending' := pending;
    var at := validEnd + |pending|;
    if at < |file| {
      var want := if |file| - at < m.ChunkSize() then |file| - at else m.ChunkSize();
      var n := Granted(offer, want);
      pending' := pending + file[at..at + n];
      assert pending' == file[validEnd..at + n];
    }
  }

  lemma NothingLeft(m: Media, records: seq<Rec>, validEnd: nat, rest: seq<byte>, last: Option<nat>)
    requires FrontOf(m, rest).NeedMore? || Parse(m, rest, last) == Parsed([], 0, last)
    ensures Promise(m, records, validEnd, rest, last) == Parsed(records, validEnd, last)
  {
    assert records + [] == records;
  }

  /** The record loop of a replay: reads, takes whole records, and stops at the end or at the first bad byte. */
  method ReplayRecords(m: Media, file: seq<byte>, offers: nat -> nat)
    returns (records: seq<Rec>, validEnd: nat, last: Option<nat>)
    requires |file| >= FILE_HEADER
    ensures Promise(m, [], FILE_HEADER, file[FILE_HEADER..], None) == Parsed(records, validEnd, last)
  {
    hide Parse, FrontOf, Promise;
    records, validEnd, last := [], FILE_HEADER, None;
    var pending, stopped, round := [], false, 1;
    ghost var whole := Promise(m, [], FILE_HEADER, file[FILE_HEADER..], None);
    while !stopped
      invariant FILE_HEADER <= validEnd && validEnd + |pending| <= |file|
      invariant pending == file[validEnd..validEnd + |pending|]
      invariant Promise(m, records, validEnd, file[validEnd..], last) == whole
      invariant stopped ==> Parse(m, file[validEnd..], last) == Parsed([], 0, last)
      decreases !stopped, |file| - (validEnd + |pending|)
    {
      pending := ReadMore(m, file, validEnd, pending, offers(round));
      round := round + 1;
      ghost var rest, was := file[validEnd..], last;
      var taken, used;
      taken, used, last, stopped := Consume(m, pending, last, rest);
      PromisesAdd(m, records, validEnd, rest, was, taken, used, last);
      assert rest[used..] == file[validEnd + used..];
      pending, records, validEnd := pending[used..], records + taken, validEnd + used;
      if !stopped && validEnd + |pending| >= |file| {
        assert pending == file[validEnd..];
        break;
      }
    }
    NothingLeft(m, records, validEnd, file[validEnd..], last);
  }

  /**
   * Replay with any sequence of short reads recovers what parsing the whole file does. Only the header is
   * read in one go: if that read is short the file is refused as corrupt.
   */
  method Replay(m: Media, file: seq<byte>, offers: nat -> nat) returns (r: Replayed)
    ensures r == if file != [] && Granted(offers(0), FILE_HEADER) < FILE_HEADER then CorruptHeader else Recover(m, file)
  {
    if |file| == 0 {
      return Empty;
    }
    var got := Granted(offers(0), if |file| < FILE_HEADER then |file| else FILE_HEADER);
    if got < FILE_HEADER {
      return CorruptHeader;
    }
    var header := DecodeHeader(m, file[..FILE_HEADER]);
    if header.None? {
      return CorruptHeader;
    }
    var records, validEnd, last := ReplayRecords(m, file, offers);
    assert [] + Parse(m, file[FILE_HEADER..], None).records == Parse(m, file[FILE_HEADER..], None).records;
    r := Recovered(header.value, records, validEnd, last);
  }
}
