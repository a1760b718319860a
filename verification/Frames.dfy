/** The framed transport: an incremental decoder that agrees with decoding the whole stream. */
module Frames {
  import opened Rollouts
  import opened Bytes

  const HEADER: nat := 48
  const MAGIC: nat := 0x31424652
  const VERSION: nat := 1
  const LAST_TYPE: nat := 17

  datatype Frame = Frame(kind: nat, flags: nat, sequence: nat, body: seq<byte>)

  /** The hash functions, which nothing here looks into, and the configured ceiling for a body. */
  datatype Wire = Wire(crc: seq<byte> -> nat, digest: seq<byte> -> seq<byte>, maxBody: nat) {
    ghost predicate Valid() {
      && maxBody < Pow256(4)
      && (forall s :: crc(s) < Pow256(4))
      && (forall s :: |digest(s)| == 16)
    }
  }

  datatype Failure =
    | BadMagic | BadVersion | BadType | TooLong | BadHeaderChecksum | BadReserved | BadBodyDigest

  // ----- encoding -----

  function Checked(w: Wire, f: Frame): seq<seq<byte>> {
    [LE(MAGIC, 4), LE(VERSION, 2), LE(f.kind, 2), LE(f.flags, 4), LE(f.sequence, 8), LE(|f.body|, 4), w.digest(f.body)]
  }

  function Fields(w: Wire, f: Frame): seq<seq<byte>> {
    Checked(w, f) + [LE(w.crc(Flat(Checked(w, f))), 4), LE(0, 4)]
  }

  function Encoding(w: Wire, f: Frame): seq<byte> { Flat(Fields(w, f)) + f.body }

  /** A body over the ceiling is refused. */
  function Encode(w: Wire, f: Frame): Option<seq<byte>> {
    if |f.body| > w.maxBody then None else Some(Encoding(w, f))
  }

  /** A frame whose fields fit their widths. */
  ghost predicate Sendable(w: Wire, f: Frame) {
    && 0 < f.kind <= LAST_TYPE && f.flags < Pow256(4) && f.sequence < Pow256(8) && |f.body| <= w.maxBody
  }

  // ----- decoding a whole stream -----

  /** What the first header says: why it is refused, or how long its frame is. */
  datatype Header = Refused(failure: Failure) | Length(total: nat)

  function ParseHeader(w: Wire, h: seq<byte>): (r: Header)
    requires |h| == HEADER
    ensures r.Length? ==> HEADER <= r.total <= HEADER + w.maxBody
  {
    if At(h, 0, 4) != MAGIC then Refused(BadMagic)
    else if At(h, 4, 2) != VERSION then Refused(BadVersion)
    else if At(h, 6, 2) == 0 || At(h, 6, 2) > LAST_TYPE then Refused(BadType)
    else if At(h, 20, 4) > w.maxBody then Refused(TooLong)
    else if At(h, 40, 4) != w.crc(h[..40]) then Refused(BadHeaderChecksum)
    else if At(h, 44, 4) != 0 then Refused(BadReserved)
    else Length(HEADER + At(h, 20, 4))
  }

  function FrameIn(s: seq<byte>): Frame
    requires |s| >= HEADER
  {
    Frame(At(s, 6, 2), At(s, 8, 4), At(s, 12, 8), s[HEADER..])
  }

  predicate BodyMatches(w: Wire, s: seq<byte>)
    requires |s| >= HEADER
  {
    s[24..40] == w.digest(s[HEADER..])
  }

  /** The frames of a stream, then what is left: an incomplete frame, or the failure that latched. */
  datatype Decoded = Decoded(frames: seq<Frame>, rest: seq<byte>, failure: Option<Failure>)

  function Cons(f: Frame, d: Decoded): Decoded { d.(frames := [f] + d.frames) }

  function Decode(w: Wire, s: seq<byte>): (d: Decoded)
    ensures |d.rest| <= |s|
    ensures d.failure.Some? ==> d.rest == []
    decreases |s|
  {
    if |s| < HEADER then Decoded([], s, None)
    else
      match ParseHeader(w, s[..HEADER])
      case Refused(failure) => Decoded([], [], Some(failure))
      case Length(total) =>
        if |s| < total then Decoded([], s, None)
        else if !BodyMatches(w, s[..total]) then Decoded([], [], Some(BadBodyDigest))
        else
          Cons(FrameIn(s[..total]), Decode(w, s[total..]))
  }

  /** Decoding `b` after what `d` has left. */
  function Continue(w: Wire, d: Decoded, b: seq<byte>): Decoded {
    if d.failure.Some? then d
    else
      var later := Decode(w, d.rest + b);
      later.(frames := d.frames + later.frames)
  }

  lemma ConsContinues(w: Wire, f: Frame, d: Decoded, b: seq<byte>)
    ensures Continue(w, Cons(f, d), b) == Cons(f, Continue(w, d, b))
  {
    if d.failure.None? {
      var later := Decode(w, d.rest + b);
      assert ([f] + d.frames) + later.frames == [f] + (d.frames + later.frames);
    }
  }

  /** The header at the front of `a` is the header at the front of any stream starting with `a`. */
  lemma DecodeFront(w: Wire, a: seq<byte>, b: seq<byte>)
    requires |a| >= HEADER
    ensures var h := ParseHeader(w, a[..HEADER]);
            if h.Refused? then Decode(w, a + b) == Decoded([], [], Some(h.failure))
            else |a| >= h.total ==>
                   Decode(w, a + b) ==
                   if BodyMatches(w, a[..h.total]) then Cons(FrameIn(a[..h.total]), Decode(w, a[h.total..] + b))
                   else Decoded([], [], Some(BadBodyDigest))
  {
    assert (a + b)[..HEADER] == a[..HEADER];
    match ParseHeader(w, a[..HEADER])
    case Refused(_) =>
    case Length(total) =>
      if |a| >= total {
        assert (a + b)[..total] == a[..total];
        assert (a + b)[total..] == a[total..] + b;
      }
  }

  /** A stream may be cut anywhere: decoding the pieces in turn is decoding the whole. */
  lemma {:induction false} ChunksAgree(w: Wire, a: seq<byte>, b: seq<byte>)
    ensures Decode(w, a + b) == Continue(w, Decode(w, a), b)
    decreases |a|
  {
    if |a| >= HEADER {
      DecodeFront(w, a, b);
      match ParseHeader(w, a[..HEADER])
      case Refused(_) =>
      case Length(total) =>
        if |a| >= total && BodyMatches(w, a[..total]) {
          ChunksAgree(w, a[total..], b);
          ConsContinues(w, FrameIn(a[..total]), Decode(w, a[total..]), b);
        }
    }
  }

  /** What a decoder keeps cannot be decoded any further. */
  lemma {:induction false} RestIsStuck(w: Wire, s: seq<byte>)
    ensures Decode(w, s).failure.None? ==> Decode(w, Decode(w, s).rest) == Decoded([], Decode(w, s).rest, None)
    decreases |s|
  {
    if |s| >= HEADER && ParseHeader(w, s[..HEADER]).Length? {
      var total := ParseHeader(w, s[..HEADER]).total;
      if |s| >= total {
        RestIsStuck(w, s[total..]);
      }
    }
  }

  // ----- round trip -----

  lemma HeaderOffsets(w: Wire, f: Frame)
    requires w.Valid()
    ensures var fs := Fields(w, f);
            && |fs| == 9 && Offset(fs, 1) == 4 && Offset(fs, 2) == 6 && Offset(fs, 3) == 8 && Offset(fs, 4) == 12
            && Offset(fs, 5) == 20 && Offset(fs, 6) == 24 && Offset(fs, 7) == 40 && Offset(fs, 8) == 44
            && Offset(fs, 9) == 48 && |Flat(fs)| == 48
  {
    var fs := Fields(w, f);
    assert Offset(fs, 1) == 4;
    assert Offset(fs, 2) == 6;
    assert Offset(fs, 3) == 8;
    assert Offset(fs, 4) == 12;
    assert Offset(fs, 5) == 20;
    assert Offset(fs, 6) == 24;
    assert Offset(fs, 7) == 40;
    assert Offset(fs, 8) == 44;
    assert Offset(fs, 9) == 48;
    FlatLength(fs);
  }

  /** The integer field `i` of a layout reads back as what was written. */
  lemma ReadsBack(fields: seq<seq<byte>>, tail: seq<byte>, i: nat, n: nat, width: nat)
    requires i < |fields| && fields[i] == LE(n, width) && n < Pow256(width)
    ensures Offset(fields, i) + width <= |Flat(fields)|
    ensures At(Flat(fields) + tail, Offset(fields, i), width) == n
  {
    FieldAt(fields, i);
    FromLEOfLE(n, width);
    var at := Offset(fields, i);
    assert (Flat(fields) + tail)[at..at + width] == Flat(fields)[at..at + width];
  }

  lemma ChecksumCovers(w: Wire, f: Frame)
    requires w.Valid()
    ensures |Flat(Fields(w, f))| == 48 && Flat(Fields(w, f))[..40] == Flat(Checked(w, f))
  {
    var fs := Fields(w, f);
    HeaderOffsets(w, f);
    assert fs[..8][..7] == Checked(w, f);
    assert fs[..8] == Checked(w, f) + [fs[7]];
    FlatLength(fs[..8][..7]);
    OffsetInFront(fs, 7, 7);
    assert Flat(fs) == Flat(fs[..8]) + fs[8];
    assert Flat(fs[..8]) == Flat(Checked(w, f)) + fs[7];
  }

  lemma EncodedHeader(w: Wire, f: Frame)
    requires w.Valid() && Sendable(w, f)
    ensures |Flat(Fields(w, f))| == 48
    ensures ParseHeader(w, Flat(Fields(w, f))) == Length(HEADER + |f.body|)
  {
    var fs := Fields(w, f);
    HeaderOffsets(w, f);
    ChecksumCovers(w, f);
    Widths();
    var h := Flat(fs);
    assert h + [] == h;
    ReadsBack(fs, [], 0, MAGIC, 4);
    ReadsBack(fs, [], 1, VERSION, 2);
    ReadsBack(fs, [], 2, f.kind, 2);
    ReadsBack(fs, [], 5, |f.body|, 4);
    ReadsBack(fs, [], 7, w.crc(Flat(Checked(w, f))), 4);
    ReadsBack(fs, [], 8, 0, 4);
  }

  lemma EncodedFrame(w: Wire, f: Frame)
    requires w.Valid() && Sendable(w, f)
    ensures |Encoding(w, f)| == HEADER + |f.body|
    ensures FrameIn(Encoding(w, f)) == f && BodyMatches(w, Encoding(w, f))
  {
    var fs, e := Fields(w, f), Encoding(w, f);
    HeaderOffsets(w, f);
    Widths();
    ReadsBack(fs, f.body, 2, f.kind, 2);
    ReadsBack(fs, f.body, 3, f.flags, 4);
    ReadsBack(fs, f.body, 4, f.sequence, 8);
    FieldAt(fs, 6);
    assert e[24..40] == Flat(fs)[24..40];
    assert e[HEADER..] == f.body;
  }

  /** One encoded frame at the front of a stream decodes to itself. */
  lemma FrontDecodes(w: Wire, f: Frame, tail: seq<byte>)
    requires w.Valid() && Sendable(w, f)
    ensures var later := Decode(w, tail);
            Decode(w, Encoding(w, f) + tail) == Cons(f, later)
  {
    var s, total := Encoding(w, f) + tail, HEADER + |f.body|;
    EncodedHeader(w, f);
    EncodedFrame(w, f);
    assert s[..HEADER] == Flat(Fields(w, f));
    assert s[..total] == Encoding(w, f);
    assert s[total..] == tail;
  }

  function Stream(w: Wire, fs: seq<Frame>): seq<byte> {
    if fs == [] then [] else Encoding(w, fs[0]) + Stream(w, fs[1..])
  }

  /** Encoded frames one after another decode to exactly those frames, with a clean end. */
  lemma {:induction false} RoundTrip(w: Wire, fs: seq<Frame>)
    requires w.Valid() && (forall i :: 0 <= i < |fs| ==> Sendable(w, fs[i]))
    ensures Decode(w, Stream(w, fs)) == Decoded(fs, [], None)
  {
    if fs != [] {
      RoundTrip(w, fs[1..]);
      FrontDecodes(w, fs[0], Stream(w, fs[1..]));
    }
  }

  // ----- the incremental decoder -----

  class FrameDecoder {
    const wire: Wire
    var buffer: seq<byte>
    var declared: nat
    var failure: Option<Failure>
    var decoded: nat

    /** The buffer is a frame that has begun; its length is declared as soon as its header is complete. */
    ghost predicate Valid()
      reads this
    {
      && (failure.Some? ==> buffer == [] && declared == 0)
      && (failure.None? ==>
            && Decode(wire, buffer) == Decoded([], buffer, None)
            && (if |buffer| < HEADER then declared == 0
                else ParseHeader(wire, buffer[..HEADER]) == Length(declared) && |buffer| < declared))
    }

    /** What the decoder has left, as the outcome of decoding. */
    ghost function Left(frames: seq<Frame>): Decoded
      reads this
    {
      Decoded(frames, buffer, failure)
    }

    constructor (w: Wire)
      ensures Valid() && buffer == [] && failure == None && decoded == 0 && wire == w
    {
      wire, buffer, declared, failure, decoded := w, [], 0, None, 0;
    }

    method Fail(why: Failure)
      modifies this
      ensures failure == (if old(failure).Some? then old(failure) else Some(why))
      ensures old(failure).None? ==> buffer == [] && declared == 0
      ensures old(failure).Some? ==> buffer == old(buffer) && declared == old(declared)
      ensures decoded == old(decoded)
    {
      if failure.None? {
        failure, declared, buffer := Some(why), 0, [];
      }
    }

    /** Takes bytes from the chunk up to the end of the header, or of the frame once its length is known. */
    method Fill(data: seq<byte>, offset: nat) returns (next: nat)
      requires failure.None? && offset < |data|
      requires if declared == 0 then |buffer| < HEADER else |buffer| < declared
      requires declared != 0 ==> |buffer| >= HEADER && ParseHeader(wire, buffer[..HEADER]) == Length(declared)
      modifies this`buffer
      ensures offset < next <= |data|
      ensures buffer + data[next..] == old(buffer) + data[offset..]
      ensures if declared == 0 then |buffer| <= HEADER else |buffer| <= declared
      ensures declared != 0 ==> |buffer| >= HEADER && ParseHeader(wire, buffer[..HEADER]) == Length(declared)
    {
      var want := if |buffer| < HEADER then HEADER - |buffer| else declared - |buffer|;
      var take := if |data| - offset < want then |data| - offset else want;
      next := offset + take;
      assert data[offset..] == data[offset..next] + data[next..];
      assert |buffer| >= HEADER ==> (buffer + data[offset..next])[..HEADER] == buffer[..HEADER];
      buffer := buffer + data[offset..next];
    }

    /** Parses a complete header once; the frame's length is then known. */
    method Inspect()
      requires failure.None? && (declared == 0 || |buffer| >= HEADER)
      requires declared != 0 ==> ParseHeader(wire, buffer[..HEADER]) == Length(declared)
      modifies this
      ensures decoded == old(decoded)
      ensures failure.Some? ==>
                && |old(buffer)| >= HEADER && ParseHeader(wire, old(buffer)[..HEADER]) == Refused(failure.value)
                && buffer == [] && declared == 0
      ensures failure.None? ==>
                && buffer == old(buffer)
                && (if declared == 0 then |buffer| < HEADER
                    else |buffer| >= HEADER && ParseHeader(wire, buffer[..HEADER]) == Length(declared))
                && (old(declared) != 0 ==> declared == old(declared))
    {
      if declared == 0 && |buffer| >= HEADER {
        match ParseHeader(wire, buffer[..HEADER])
        case Refused(why) => Fail(why);
        case Length(total) => declared := total;
      }
    }

    /**
     * Whatever the chunking, feeding continues the decoding of the whole stream: the same frames, the same
     * remainder, the same latch, and a count of the frames.
     */
    method Feed(data: seq<byte>) returns (frames: seq<Frame>)
      requires Valid()
      modifies this
      ensures Valid()
      ensures Left(frames) == Continue(wire, old(Left([])), data)
      ensures decoded == old(decoded) + |frames|
    {
      frames := [];
      if failure.Some? {
        return;
      }
      ghost var whole := Continue(wire, Decoded([], buffer, None), data);
      assert data[0..] == data;
      var offset := 0;
      while true
        invariant failure.None? && offset <= |data|
        invariant declared == 0 || (|buffer| >= HEADER && ParseHeader(wire, buffer[..HEADER]) == Length(declared))
        invariant if declared == 0 then |buffer| <= HEADER else |buffer| <= declared
        invariant Continue(wire, Decoded(frames, buffer, None), data[offset..]) == whole
        invariant decoded == old(decoded) + |frames|
        decreases |data| - offset, |buffer|
      {
        hide Decode;
        ghost var had := buffer;
        Inspect();
        if failure.Some? {
          RefuseFrame(wire, frames, had, data[offset..]);
          return;
        }
        if declared != 0 && |buffer| >= declared {
          TakeFrame(wire, frames, buffer, data[offset..], declared);
          if !BodyMatches(wire, buffer[..declared]) {
            Fail(BadBodyDigest);
            return;
          }
          frames := frames + [FrameIn(buffer[..declared])];
          buffer, declared, decoded := buffer[declared..], 0, decoded + 1;
          continue;
        }
        if offset >= |data| {
          break;
        }
        offset := Fill(data, offset);
      }
      NothingMore(wire, frames, buffer, data[offset..]);
    }

    /** The stream may end only between frames. */
    method ExpectCleanEnd() returns (clean: bool)
      ensures clean <==> failure.None? && buffer == []
    {
      clean := failure.None? && buffer == [];
    }
  }

  lemma RefuseFrame(w: Wire, frames: seq<Frame>, buffer: seq<byte>, more: seq<byte>)
    requires |buffer| >= HEADER && ParseHeader(w, buffer[..HEADER]).Refused?
    ensures Continue(w, Decoded(frames, buffer, None), more) ==
            Decoded(frames, [], Some(ParseHeader(w, buffer[..HEADER]).failure))
  {
    DecodeFront(w, buffer, more);
  }

  /** A complete frame at the front of what is buffered is either taken or refused. */
  lemma TakeFrame(w: Wire, frames: seq<Frame>, buffer: seq<byte>, more: seq<byte>, total: nat)
    requires HEADER <= total <= |buffer| && ParseHeader(w, buffer[..HEADER]) == Length(total)
    ensures var before := Continue(w, Decoded(frames, buffer, None), more);
            if BodyMatches(w, buffer[..total]) then
              before == Continue(w, Decoded(frames + [FrameIn(buffer[..total])], buffer[total..], None), more)
            else before == Decoded(frames, [], Some(BadBodyDigest))
  {
    hide Decode;
    DecodeFront(w, buffer, more);
    var later := Decode(w, buffer[total..] + more);
    assert frames + ([FrameIn(buffer[..total])] + later.frames) ==
           frames + [FrameIn(buffer[..total])] + later.frames;
  }

  /** An incomplete frame and no more bytes: the decoder keeps what it has. */
  lemma NothingMore(w: Wire, frames: seq<Frame>, buffer: seq<byte>, more: seq<byte>)
    requires more == []
    requires |buffer| >= HEADER ==>
               ParseHeader(w, buffer[..HEADER]).Length? && |buffer| < ParseHeader(w, buffer[..HEADER]).total
    ensures Continue(w, Decoded(frames, buffer, None), more) == Decoded(frames, buffer, None)
    ensures Decode(w, buffer) == Decoded([], buffer, None)
  {
    assert buffer + more == buffer;
    assert Decode(w, buffer) == Decoded([], buffer, None);
  }
}
