/** SHA-256 over a stream of updates, and the table-driven CRC-32. */
module Digests {
  import opened Bytes
  import Exact

  // ----- the compression function, section 6.2.2 of FIPS 180-4 -----

  const ROUND_CONSTANTS: seq<bv32> := [
    0x428a2f98, 0x71374491, 0xb5c0fbcf, 0xe9b5dba5, 0x3956c25b, 0x59f111f1, 0x923f82a4, 0xab1c5ed5,
    0xd807aa98, 0x12835b01, 0x243185be, 0x550c7dc3, 0x72be5d74, 0x80deb1fe, 0x9bdc06a7, 0xc19bf174,
    0xe49b69c1, 0xefbe4786, 0x0fc19dc6, 0x240ca1cc, 0x2de92c6f, 0x4a7484aa, 0x5cb0a9dc, 0x76f988da,
    0x983e5152, 0xa831c66d, 0xb00327c8, 0xbf597fc7, 0xc6e00bf3, 0xd5a79147, 0x06ca6351, 0x14292967,
    0x27b70a85, 0x2e1b2138, 0x4d2c6dfc, 0x53380d13, 0x650a7354, 0x766a0abb, 0x81c2c92e, 0x92722c85,
    0xa2bfe8a1, 0xa81a664b, 0xc24b8b70, 0xc76c51a3, 0xd192e819, 0xd6990624, 0xf40e3585, 0x106aa070,
    0x19a4c116, 0x1e376c08, 0x2748774c, 0x34b0bcb5, 0x391c0cb3, 0x4ed8aa4a, 0x5b9cca4f, 0x682e6ff3,
    0x748f82ee, 0x78a5636f, 0x84c87814, 0x8cc70208, 0x90befffa, 0xa4506ceb, 0xbef9a3f7, 0xc67178f2]

  datatype Words = Words(a: bv32, b: bv32, c: bv32, d: bv32, e: bv32, f: bv32, g: bv32, h: bv32)

  const INITIAL := Words(0x6a09e667, 0xbb67ae85, 0x3c6ef372, 0xa54ff53a, 0x510e527f, 0x9b05688c, 0x1f83d9ab, 0x5be0cd19)

  function Rotr(x: bv32, n: nat): bv32
    requires 0 < n < 32
  {
    (x >> n) | (x << (32 - n))
  }

  function Load(block: seq<byte>, i: nat): bv32
    requires i * 4 + 4 <= |block|
  {
    ((block[i * 4] as bv32) << 24) | ((block[i * 4 + 1] as bv32) << 16) | ((block[i * 4 + 2] as bv32) << 8) |
    (block[i * 4 + 3] as bv32)
  }

  /** The first `n` words of the message schedule. */
  function Schedule(block: seq<byte>, n: nat): (w: seq<bv32>)
    requires |block| == 64 && n <= 64
    ensures |w| == n
  {
    if n == 0 then []
    else
      var w := Schedule(block, n - 1);
      var i := n - 1;
      if i < 16 then w + [Load(block, i)]
      else
        var s0 := Rotr(w[i - 15], 7) ^ Rotr(w[i - 15], 18) ^ (w[i - 15] >> 3);
        var s1 := Rotr(w[i - 2], 17) ^ Rotr(w[i - 2], 19) ^ (w[i - 2] >> 10);
        w + [w[i - 16] + s0 + w[i - 7] + s1]
  }

  function Round(s: Words, k: bv32, w: bv32): Words {
    var sigma1 := Rotr(s.e, 6) ^ Rotr(s.e, 11) ^ Rotr(s.e, 25);
    var choose := (s.e & s.f) ^ (!s.e & s.g);
    var temp1 := s.h + sigma1 + choose + k + w;
    var sigma0 := Rotr(s.a, 2) ^ Rotr(s.a, 13) ^ Rotr(s.a, 22);
    var majority := (s.a & s.b) ^ (s.a & s.c) ^ (s.b & s.c);
    Words(temp1 + sigma0 + majority, s.a, s.b, s.c, s.d + temp1, s.e, s.f, s.g)
  }

  function Rounds(s: Words, w: seq<bv32>, n: nat): Words
    requires |w| == 64 && n <= 64 && |ROUND_CONSTANTS| == 64
  {
    if n == 0 then s else Round(Rounds(s, w, n - 1), ROUND_CONSTANTS[n - 1], w[n - 1])
  }

  function Compress(s: Words, block: seq<byte>): Words
    requires |block| == 64
  {
    var r := Rounds(s, Schedule(block, 64), 64);
    Words(s.a + r.a, s.b + r.b, s.c + r.c, s.d + r.d, s.e + r.e, s.f + r.f, s.g + r.g, s.h + r.h)
  }

  // ----- hashing a whole message block by block -----

  function Blocks(s: Words, m: seq<byte>): Words
    decreases |m|
  {
    if |m| < 64 then s else Blocks(Compress(s, m[..64]), m[64..])
  }

  /** What is left after the last whole block. */
  function Rest(m: seq<byte>): (r: seq<byte>)
    ensures |r| == |m| % 64
  {
    m[|m| - |m| % 64..]
  }

  function BigEndian(n: nat, k: nat): (s: seq<byte>)
    ensures |s| == k
  {
    if k == 0 then [] else BigEndian(n / 256, k - 1) + [n % 256]
  }

  /** How many zero bytes bring a message and its marker to eight bytes short of a whole block. */
  function Zeros(length: nat): (z: nat)
    ensures z < 64 && (length + 1 + z) % 64 == 56
  {
    if length % 64 < 56 then 55 - length % 64 else 119 - length % 64
  }

  /** Section 5.1.1 of FIPS 180-4: a one bit, zeros, and the length of the message in bits. */
  function Padded(m: seq<byte>): seq<byte> { PaddedAs(m, |m|) }

  /** The padding of one message under the length of another. */
  function PaddedAs(m: seq<byte>, length: nat): seq<byte> {
    m + [0x80] + seq(Zeros(|m|), _ => 0) + BigEndian(length * 8 % Pow256(8), 8)
  }

  /** The padded message is whole blocks, and no shorter padding would do. */
  lemma PaddedIsWhole(m: seq<byte>)
    ensures |Padded(m)| % 64 == 0 && |m| + 9 <= |Padded(m)| < |m| + 9 + 64
  {
    hide BigEndian, Pow256;
    var z := Zeros(|m|);
    assert |Padded(m)| == (|m| + 1 + z) + 8;
    Exact.DivStep(|m| + 1 + z, 64);
    Exact.DivUnique(|m| + 1 + z + 8, 64, (|m| + 1 + z) / 64 + 1);
  }

  lemma {:induction false} BlocksJoin(s: Words, a: seq<byte>, b: seq<byte>)
    requires |a| % 64 == 0
    ensures Blocks(s, a + b) == Blocks(Blocks(s, a), b)
    decreases |a|
  {
    hide Compress;
    if a == [] {
      assert a + b == b;
    } else {
      assert |a| >= 64;
      assert (a + b)[..64] == a[..64] && (a + b)[64..] == a[64..] + b;
      BlocksJoin(Compress(s, a[..64]), a[64..], b);
    }
  }

  /** Absorbing after `m` is absorbing after what `m` has left. */
  lemma BlocksContinue(s: Words, m: seq<byte>, b: seq<byte>)
    ensures Blocks(s, m + b) == Blocks(Blocks(s, m), Rest(m) + b)
    ensures Rest(m + b) == Rest(Rest(m) + b)
  {
    hide Compress;
    var n := |m| - |m| % 64;
    var whole := m[..n];
    assert m == whole + Rest(m) && whole + (Rest(m) + b) == m + b;
    BlocksJoin(s, whole, Rest(m) + b);
    BlocksJoin(s, whole, Rest(m));
    assert Blocks(Blocks(s, whole), Rest(m)) == Blocks(s, whole);
    var k := |Rest(m) + b| - |Rest(m) + b| % 64;
    assert |m + b| % 64 == |Rest(m) + b| % 64;
    assert (m + b)[n + k..] == (Rest(m) + b)[k..];
  }

  lemma OneBlock(s: Words, block: seq<byte>)
    requires |block| == 64
    ensures Blocks(s, block) == Compress(s, block) && Rest(block) == []
  {
    assert block[..64] == block && block[64..] == [];
  }

  // ----- the streaming hasher -----

  class Sha256 {
    var state: Words
    var buffer: array<byte>
    var buffered: nat
    var total: nat
    var finalized: bool
    ghost var message: seq<byte>

    /** State and buffer hold exactly what has been fed in: whole blocks compressed, the rest buffered. */
    ghost predicate Valid()
      reads this, buffer
    {
      && buffer.Length == 64 && buffered < 64 && total == |message| % Pow256(8)
      && (!finalized ==>
            && state == Blocks(INITIAL, message)
            && buffered == |message| % 64 && buffer[..buffered] == Rest(message))
    }

    constructor ()
      ensures Valid() && fresh(buffer) && message == [] && !finalized
    {
      state, buffered, total, finalized := INITIAL, 0, 0, false;
      buffer := new byte[64](_ => 0);
      message := [];
    }

    method Reset()
      requires buffer.Length == 64
      modifies this, buffer
      ensures Valid() && message == [] && !finalized && buffer == old(buffer)
    {
      state, buffered, total, finalized, message := INITIAL, 0, 0, false, [];
      forall i | 0 <= i < 64 {
        buffer[i] := 0;
      }
    }

    /** Copies `count` bytes of `data` from `from` into the buffer at `at`. */
    method Fill(at: nat, data: seq<byte>, from: nat, count: nat)
      requires buffer.Length == 64 && at + count <= 64 && from + count <= |data|
      modifies buffer
      ensures buffer[..at] == old(buffer[..at])
      ensures buffer[at..at + count] == data[from..from + count]
    {
      forall i | 0 <= i < count {
        buffer[at + i] := data[from + i];
      }
    }

    /** Tops up a started block; compresses it if that completes it. */
    method TopUp(data: seq<byte>) returns (offset: nat)
      requires buffer.Length == 64 && 0 < buffered < 64
      modifies this`state, this`buffered, buffer
      ensures buffer.Length == 64 && offset <= |data| && buffered < 64
      ensures var had := old(buffer[..buffered]);
              && state == Blocks(old(state), had + data[..offset])
              && buffer[..buffered] == Rest(had + data[..offset])
              && buffered == |had + data[..offset]| % 64
              && (buffered != 0 ==> offset == |data|)
    {
      hide Compress;
      ghost var had := buffer[..buffered];
      var want := if 64 - buffered < |data| then 64 - buffered else |data|;
      Fill(buffered, data, 0, want);
      buffered := buffered + want;
      offset := want;
      assert buffer[..buffered] == had + data[..offset];
      if buffered == 64 {
        assert buffer[..] == had + data[..offset];
        OneBlock(state, buffer[..]);
        state := Compress(state, buffer[..]);
        buffered := 0;
      } else {
        assert Rest(had + data[..offset]) == had + data[..offset];
      }
    }

    /** Whole blocks straight from the data, then what is left goes into the buffer. */
    method Absorb(data: seq<byte>, from: nat)
      requires buffer.Length == 64 && buffered == 0 && from <= |data|
      modifies this`state, this`buffered, buffer
      ensures buffer.Length == 64
      ensures state == Blocks(old(state), data[from..])
      ensures buffered == |data[from..]| % 64 && buffer[..buffered] == Rest(data[from..])
    {
      hide Compress;
      var offset := from;
      while offset + 64 <= |data|
        invariant buffered == 0 && from <= offset <= |data| && (|data| - offset) % 64 == (|data| - from) % 64
        invariant Blocks(state, data[offset..]) == Blocks(old(state), data[from..])
      {
        Fill(0, data, offset, 64);
        assert buffer[..] == buffer[0..64] == data[offset..offset + 64] == data[offset..][..64];
        assert data[offset..][64..] == data[offset + 64..];
        state := Compress(state, buffer[..]);
        offset := offset + 64;
      }
      assert data[offset..] == Rest(data[from..]);
      if offset < |data| {
        Fill(0, data, offset, |data| - offset);
        buffered := |data| - offset;
      }
    }

    /** Tops up a started block first, then takes whole blocks, then buffers what is left. */
    method Feed(data: seq<byte>)
      requires buffer.Length == 64 && buffered < 64
      modifies this`state, this`buffered, buffer
      ensures var all := old(buffer[..buffered]) + data;
              && state == Blocks(old(state), all)
              && buffered == |all| % 64 && buffer[..buffered] == Rest(all)
    {
      hide Compress, Blocks, Rest;
      ghost var had, was := buffer[..buffered], state;
      var offset := 0;
      if buffered != 0 {
        offset := TopUp(data);
        if buffered != 0 {
          assert data[..offset] == data;
          return;
        }
        BlocksContinue(was, had + data[..offset], data[offset..]);
        assert had + data == (had + data[..offset]) + data[offset..];
        assert Rest(had + data[..offset]) + data[offset..] == data[offset..];
      } else {
        assert had + data == data[0..];
      }
      Absorb(data, offset);
    }

    method Update(data: seq<byte>)
      requires Valid()
      modifies this, buffer
      ensures Valid() && !finalized && buffer == old(buffer)
      ensures message == (if old(finalized) then [] else old(message)) + data
    {
      hide Compress, Blocks;
      if finalized {
        Reset();
      }
      total := (total + |data|) % Pow256(8);
      ghost var m := message;
      BlocksContinue(INITIAL, m, data);
      ModAdd(|m|, |data|, Pow256(8));
      Feed(data);
      message := m + data;
    }

    /** Feeds zero bytes until eight bytes short of a block: exactly as many as the padding asks for. */
    method FeedZeros(ghost m: seq<byte>)
      requires Valid() && !finalized && message == m + [0x80]
      modifies this, buffer
      ensures Valid() && !finalized && buffer == old(buffer)
      ensures message == m + [0x80] + seq(Zeros(|m|), _ => 0) && buffered == 56
    {
      hide Compress, Blocks, Rest;
      ghost var n := 0;
      assert m + [0x80] == m + [0x80] + seq(0, _ => 0);
      while buffered != 56
        invariant Valid() && !finalized && buffer == old(buffer)
        invariant message == m + [0x80] + seq(n, _ => 0)
        invariant n <= Zeros(|m|)
        decreases Zeros(|m|) - n
      {
        Update([0]);
        n := n + 1;
        assert seq(n, _ => 0) == seq(n - 1, _ => 0) + [0];
        assert message == m + [0x80] + seq(n, _ => 0);
        OnlyOnePadding(|m|, n);
      }
      OnlyOnePadding(|m|, n);
    }

    /** Completes the last block with the length field and compresses it. */
    method CloseBlock(length: seq<byte>)
      requires Valid() && !finalized && buffered == 56 && |length| == 8
      modifies this`state, this`buffered, this`finalized, buffer
      ensures Valid() && finalized && state == Blocks(INITIAL, message + length)
    {
      hide Compress, Blocks;
      Fill(56, length, 0, 8);
      FinalBlock(message, length);
      assert buffer[..] == buffer[..56] + buffer[56..64];
      assert buffer[..] == Rest(message) + length;
      state := Compress(state, buffer[..]);
      buffered := 0;
      finalized := true;
    }

    /**
     * Pads the message, compresses what that completes, and gives the state out big-endian. Finishing once
     * more hashes the empty message under the length of everything fed in before, padding included.
     */
    method Finish() returns (digest: seq<byte>)
      requires Valid()
      modifies this, buffer
      ensures Valid() && finalized && buffer == old(buffer)
      ensures !old(finalized) ==> digest == Output(Blocks(INITIAL, Padded(old(message))))
      ensures old(finalized) ==> digest == Output(Blocks(INITIAL, PaddedAs([], |old(message)|)))
      ensures var m := if old(finalized) then [] else old(message);
              message == m + [0x80] + seq(Zeros(|m|), _ => 0)
    {
      hide Compress, Blocks, Rest;
      ghost var m := if finalized then [] else message;
      ghost var fed := |message|;
      var length := BigEndian(total * 8 % Pow256(8), 8);
      BitLength(fed);
      Update([0x80]);
      FeedZeros(m);
      CloseBlock(length);
      digest := Output(state);
    }
  }

  lemma ModAdd(a: nat, b: nat, n: nat)
    requires n > 0
    ensures (a % n + b) % n == (a + b) % n
  {
    Exact.DivStep(a, n);
    Exact.DivStep(a % n + b, n);
    var q, k := a / n, (a % n + b) / n;
    Exact.Distribute(q, k, n, 0);
    Exact.DivUnique(a + b, n, q + k);
    Exact.DivStep(a + b, n);
  }

  /** The length field describes the message although the counter wraps. */
  lemma BitLength(length: nat)
    ensures length % Pow256(8) * 8 % Pow256(8) == length * 8 % Pow256(8)
  {
    var n := Pow256(8);
    Exact.DivStep(length, n);
    Exact.DivStep(length % n * 8, n);
    var q, k := length / n, length % n * 8 / n;
    assert length * 8 == (8 * q) * n + length % n * 8;
    Exact.Distribute(8 * q, k, n, 0);
    Exact.DivUnique(length * 8, n, 8 * q + k);
    Exact.DivStep(length * 8, n);
  }

  /** There is one number of zeros below a block that ends eight bytes short of a block. */
  lemma OnlyOnePadding(length: nat, n: nat)
    requires n <= Zeros(length) + 1
    ensures (length + 1 + n) % 64 == 56 <==> n == Zeros(length)
    ensures n == Zeros(length) + 1 ==> (length + n) % 64 == 56
  {
  }

  lemma FinalBlock(m: seq<byte>, length: seq<byte>)
    requires |m| % 64 == 56 && |length| == 8
    ensures |Rest(m) + length| == 64
    ensures Blocks(INITIAL, m + length) == Compress(Blocks(INITIAL, m), Rest(m) + length)
  {
    hide Compress;
    BlocksContinue(INITIAL, m, length);
    OneBlock(Blocks(INITIAL, m), Rest(m) + length);
  }

  function WordBytes(w: bv32): (s: seq<byte>)
    ensures |s| == 4
  {
    [((w >> 24) & 0xFF) as int, ((w >> 16) & 0xFF) as int, ((w >> 8) & 0xFF) as int, (w & 0xFF) as int]
  }

  function Output(s: Words): (d: seq<byte>)
    ensures |d| == 32
  {
    WordBytes(s.a) + WordBytes(s.b) + WordBytes(s.c) + WordBytes(s.d) +
    WordBytes(s.e) + WordBytes(s.f) + WordBytes(s.g) + WordBytes(s.h)
  }

  function Concat(parts: seq<seq<byte>>): seq<byte> {
    if parts == [] then [] else Concat(parts[..|parts| - 1]) + parts[|parts| - 1]
  }

  /** However a message is cut into updates, the digest is that of the padded message hashed block by block. */
  method Hash(parts: seq<seq<byte>>) returns (digest: seq<byte>)
    ensures digest == Output(Blocks(INITIAL, Padded(Concat(parts))))
  {
    var hasher := new Sha256();
    for i := 0 to |parts|
      invariant hasher.Valid() && !hasher.finalized && hasher.message == Concat(parts[..i])
      invariant fresh(hasher) && fresh(hasher.buffer)
    {
      assert parts[..i + 1][..i] == parts[..i];
      hasher.Update(parts[i]);
    }
    assert parts[..|parts|] == parts;
    digest := hasher.Finish();
  }

  // ----- CRC-32 -----

  const POLYNOMIAL: bv32 := 0xEDB88320

  function Xor(a: bv32, b: bv32): bv32 { a ^ b }

  function Half(x: bv32): bv32 { x >> 1 }

  predicate Odd(x: bv32) { x & 1 != 0 }

  function BitStep(x: bv32): bv32 { if Odd(x) then Xor(POLYNOMIAL, Half(x)) else Half(x) }

  /** One byte the slow way: eight bits shifted through. */
  function ByteSteps(x: bv32): bv32 {
    BitStep(BitStep(BitStep(BitStep(BitStep(BitStep(BitStep(BitStep(x))))))))
  }

  lemma HalfSplits(a: bv32, b: bv32)
    ensures Half(Xor(a, b)) == Xor(Half(a), Half(b))
  {
  }

  lemma ParitySplits(a: bv32, b: bv32)
    ensures Odd(Xor(a, b)) <==> Odd(a) != Odd(b)
  {
  }

  lemma XorLeft(p: bv32, x: bv32, y: bv32)
    ensures Xor(Xor(p, x), y) == Xor(p, Xor(x, y))
  {
  }

  lemma XorRight(p: bv32, x: bv32, y: bv32)
    ensures Xor(x, Xor(p, y)) == Xor(p, Xor(x, y))
  {
  }

  lemma XorBoth(p: bv32, x: bv32, y: bv32)
    ensures Xor(Xor(p, x), Xor(p, y)) == Xor(x, y)
  {
    hide Xor;
    XorLeft(p, x, Xor(p, y));
    XorRight(p, x, y);
    XorTwice(p, Xor(x, y));
  }

  lemma XorTwice(p: bv32, z: bv32)
    ensures Xor(p, Xor(p, z)) == z
  {
  }

  lemma StepIsLinear(a: bv32, b: bv32)
    ensures BitStep(Xor(a, b)) == Xor(BitStep(a), BitStep(b))
  {
    hide Xor, Half, Odd;
    HalfSplits(a, b);
    ParitySplits(a, b);
    XorLeft(POLYNOMIAL, Half(a), Half(b));
    XorRight(POLYNOMIAL, Half(a), Half(b));
    XorBoth(POLYNOMIAL, Half(a), Half(b));
  }

  lemma StepsAreLinear(a: bv32, b: bv32)
    ensures ByteSteps(Xor(a, b)) == Xor(ByteSteps(a), ByteSteps(b))
  {
    hide BitStep, Xor;
    var a1, b1 := BitStep(a), BitStep(b);
    var a2, b2 := BitStep(a1), BitStep(b1);
    var a3, b3 := BitStep(a2), BitStep(b2);
    var a4, b4 := BitStep(a3), BitStep(b3);
    var a5, b5 := BitStep(a4), BitStep(b4);
    var a6, b6 := BitStep(a5), BitStep(b5);
    var a7, b7 := BitStep(a6), BitStep(b6);
    StepIsLinear(a, b);
    StepIsLinear(a1, b1);
    StepIsLinear(a2, b2);
    StepIsLinear(a3, b3);
    StepIsLinear(a4, b4);
    StepIsLinear(a5, b5);
    StepIsLinear(a6, b6);
    StepIsLinear(a7, b7);
  }

  /** A word whose low bits are clear is only shifted, and one fewer of them is clear afterwards. */
  lemma HalfStep(x: bv32)
    ensures !Odd(x) ==> BitStep(x) == Half(x)
    ensures x & 0xFF == 0 ==> !Odd(x) && Half(x) & 0x7F == 0
    ensures x & 0x7F == 0 ==> !Odd(x) && Half(x) & 0x3F == 0
    ensures x & 0x3F == 0 ==> !Odd(x) && Half(x) & 0x1F == 0
    ensures x & 0x1F == 0 ==> !Odd(x) && Half(x) & 0x0F == 0
    ensures x & 0x0F == 0 ==> !Odd(x) && Half(x) & 0x07 == 0
    ensures x & 0x07 == 0 ==> !Odd(x) && Half(x) & 0x03 == 0
    ensures x & 0x03 == 0 ==> !Odd(x) && !Odd(Half(x))
  {
  }

  lemma HalvedEight(x: bv32)
    ensures Half(Half(Half(Half(Half(Half(Half(Half(x)))))))) == x >> 8
  {
  }

  lemma HighBytes(x: bv32)
    requires x & 0xFF == 0
    ensures ByteSteps(x) == x >> 8
  {
    hide BitStep, Half, Odd;
    var x1 := Half(x);
    var x2 := Half(x1);
    var x3 := Half(x2);
    var x4 := Half(x3);
    var x5 := Half(x4);
    var x6 := Half(x5);
    HalfStep(x);
    HalfStep(x1);
    HalfStep(x2);
    HalfStep(x3);
    HalfStep(x4);
    HalfStep(x5);
    HalfStep(x6);
    HalfStep(Half(x6));
    HalvedEight(x);
  }

  function Low(x: bv32): bv32 { x & 0xFF }

  function High(x: bv32): bv32 { x & 0xFFFFFF00 }

  function Shift8(x: bv32): bv32 { x >> 8 }

  lemma SplitLow(x: bv32)
    ensures x == Xor(Low(x), High(x)) && High(x) & 0xFF == 0 && High(x) >> 8 == Shift8(x)
  {
  }

  lemma HighShifts(x: bv32)
    ensures ByteSteps(High(x)) == Shift8(x)
  {
    hide ByteSteps, High;
    SplitLow(x);
    HighBytes(High(x));
  }

  /** Shifting is linear, so the low byte can be looked up and the rest shifted. */
  lemma TableIsShifting(x: bv32)
    ensures ByteSteps(x) == Xor(ByteSteps(Low(x)), Shift8(x))
  {
    hide ByteSteps, Xor, Low, High, Shift8;
    SplitLow(x);
    StepsAreLinear(Low(x), High(x));
    HighShifts(x);
  }

  function AsWord(b: byte): bv32 { b as bv32 }

  /** The checksum bit by bit. */
  function CrcFrom(crc: bv32, data: seq<byte>): bv32 {
    if data == [] then crc else ByteSteps(Xor(CrcFrom(crc, data[..|data| - 1]), AsWord(data[|data| - 1])))
  }

  function Crc(data: seq<byte>, seed: bv32): bv32 { Xor(CrcFrom(Xor(seed, 0xFFFFFFFF), data), 0xFFFFFFFF) }

  lemma ShiftedByte(crc: bv32, b: byte)
    ensures Shift8(Xor(crc, AsWord(b))) == Shift8(crc)
    ensures Low(Xor(crc, AsWord(b))) < 256
  {
  }

  /** The entry of the constant table for one value of the low byte. */
  function Entry(low: bv32): bv32
    requires low < 256
  {
    ByteSteps(low)
  }

  /** Looking a byte up in the table does what shifting it through bit by bit does. */
  method Crc32(data: seq<byte>, seed: bv32) returns (crc: bv32)
    ensures crc == Crc(data, seed)
  {
    hide ByteSteps, AsWord, Xor, Low, Shift8;
    crc := Xor(seed, 0xFFFFFFFF);
    for i := 0 to |data|
      invariant crc == CrcFrom(Xor(seed, 0xFFFFFFFF), data[..i])
    {
      var mixed := Xor(crc, AsWord(data[i]));
      ShiftedByte(crc, data[i]);
      TableIsShifting(mixed);
      assert data[..i + 1][..i] == data[..i];
      crc := Xor(Entry(Low(mixed)), Shift8(crc));
    }
    assert data[..|data|] == data;
    crc := Xor(crc, 0xFFFFFFFF);
  }
}
