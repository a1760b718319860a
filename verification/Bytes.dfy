/** Little-endian integers and fixed layouts of byte strings. */
module Bytes {

  type byte = x: int | 0 <= x < 256

  function Pow256(k: nat): (p: nat)
    ensures p > 0
  {
    if k == 0 then 1 else 256 * Pow256(k - 1)
  }

  /** The `k` low bytes of `n`, least significant first. */
  function LE(n: nat, k: nat): (s: seq<byte>)
    ensures |s| == k
  {
    if k == 0 then [] else [n % 256] + LE(n / 256, k - 1)
  }

  function FromLE(s: seq<byte>): (n: nat) {
    if s == [] then 0 else s[0] + 256 * FromLE(s[1..])
  }

  lemma {:induction false} FromLEOfLE(n: nat, k: nat)
    requires n < Pow256(k)
    ensures FromLE(LE(n, k)) == n
  {
    if k > 0 {
      FromLEOfLE(n / 256, k - 1);
      assert LE(n, k)[1..] == LE(n / 256, k - 1);
    }
  }

  lemma Widths()
    ensures Pow256(2) == 0x1_0000
    ensures Pow256(4) == 0x1_0000_0000
    ensures Pow256(8) == 0x1_0000_0000_0000_0000
  {
    assert Pow256(1) == 256;
    assert Pow256(3) == 0x100_0000;
    assert Pow256(5) == 0x100_0000_0000;
    assert Pow256(6) == 0x1_0000_0000_0000;
    assert Pow256(7) == 0x100_0000_0000_0000;
  }

  /** The integer stored at a fixed offset. */
  function At(s: seq<byte>, offset: nat, width: nat): nat
    requires offset + width <= |s|
  {
    FromLE(s[offset..offset + width])
  }

  // ----- layouts: fields one after another -----

  function Flat(fields: seq<seq<byte>>): seq<byte> {
    if fields == [] then [] else Flat(fields[..|fields| - 1]) + fields[|fields| - 1]
  }

  function Offset(fields: seq<seq<byte>>, i: nat): nat
    requires i <= |fields|
  {
    if i == 0 then 0 else Offset(fields, i - 1) + |fields[i - 1]|
  }

  lemma {:induction false} OffsetInFront(fields: seq<seq<byte>>, n: nat, i: nat)
    requires i <= n <= |fields|
    ensures Offset(fields[..n], i) == Offset(fields, i)
  {
    if i > 0 {
      OffsetInFront(fields, n, i - 1);
    }
  }

  lemma {:induction false} FlatLength(fields: seq<seq<byte>>)
    ensures |Flat(fields)| == Offset(fields, |fields|)
  {
    var n := |fields|;
    if n > 0 {
      FlatLength(fields[..n - 1]);
      OffsetInFront(fields, n - 1, n - 1);
    }
  }

  /** Each field of a layout is found at its offset. */
  lemma {:induction false} FieldAt(fields: seq<seq<byte>>, i: nat)
    requires i < |fields|
    ensures Offset(fields, i) + |fields[i]| <= |Flat(fields)|
    ensures Flat(fields)[Offset(fields, i)..Offset(fields, i) + |fields[i]|] == fields[i]
  {
    var n := |fields|;
    FlatLength(fields[..n - 1]);
    OffsetInFront(fields, n - 1, n - 1);
    OffsetInFront(fields, n - 1, i);
    if i < n - 1 {
      FieldAt(fields[..n - 1], i);
    }
  }
}
