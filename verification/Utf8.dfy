/** Which byte strings the strict text check accepts: sections 3 and 4 of RFC 3629. */
module Utf8 {
  import opened Rollouts
  import opened Json

  /** A Unicode scalar value: any code point but the surrogate halves. */
  predicate Scalar(c: nat) { c < 0x11_0000 && !(0xD800 <= c <= 0xDFFF) }

  ghost predicate Scalars(cs: seq<nat>) { forall i :: 0 <= i < |cs| ==> Scalar(cs[i]) }

  function EncodeAll(cs: seq<nat>): string
    requires forall i :: 0 <= i < |cs| ==> cs[i] < 0x11_0000
  {
    if cs == [] then [] else AppendUtf8(cs[0]) + EncodeAll(cs[1..])
  }

  /** Text that encodes some scalar values, each in its one shortest form. */
  ghost predicate WellFormed(text: string) {
    exists cs :: Scalars(cs) && EncodeAll(cs) == text
  }

  /** Characters stand for bytes. */
  ghost predicate Bytewise(text: string) { forall i :: 0 <= i < |text| ==> text[i] as int < 256 }

  /** How many continuation bytes a lead byte announces; none if it cannot lead. */
  function Continuation(lead: nat): nat {
    if lead / 32 == 6 then 1 else if lead / 16 == 14 then 2 else if lead / 8 == 30 then 3 else 0
  }

  function Payload(lead: nat): nat {
    if lead / 32 == 6 then lead % 32 else if lead / 16 == 14 then lead % 16 else lead % 8
  }

  function Minimum(continuation: nat): nat {
    if continuation == 1 then 0x80 else if continuation == 2 then 0x800 else 0x1_0000
  }

  /** The payloads of continuation bytes `k` to `n`, shifted in behind what is there already. */
  function Fold(s: string, k: nat, n: nat, codepoint: nat): Option<nat>
    requires n < |s|
    decreases n + 1 - k
  {
    if k > n then Some(codepoint)
    else if s[k] as nat / 64 != 2 then None
    else Fold(s, k + 1, n, codepoint * 64 + s[k] as nat % 64)
  }

  /** The scalar value at the front, if there is one in its shortest form. */
  function Front(s: string): Option<nat>
    requires s != []
  {
    var lead := s[0] as nat;
    var n := Continuation(lead);
    if lead < 0x80 then Some(lead)
    else if n == 0 || |s| - 1 < n then None
    else
      match Fold(s, 1, n, Payload(lead))
      case None => None
      case Some(codepoint) => if codepoint < Minimum(n) || !Scalar(codepoint) then None else Some(codepoint)
  }

  /** The bytes of a code point, as numbers. */
  lemma EncodedBytes(c: nat)
    requires 0x7F < c < 0x11_0000
    ensures var e, n := AppendUtf8(c), if c <= 0x7FF then 1 else if c <= 0xFFFF then 2 else 3;
            && |e| == n + 1 && Continuation(e[0] as nat) == n && 0x80 <= e[0] as nat < 256
            && Payload(e[0] as nat) == (if n == 1 then c / 64 else if n == 2 then c / 64 / 64 else c / 64 / 64 / 64)
            && (forall k :: 1 <= k <= n ==> e[k] as nat / 64 == 2)
            && e[n] as nat % 64 == c % 64
            && (n >= 2 ==> e[n - 1] as nat % 64 == c / 64 % 64)
            && (n == 3 ==> e[n - 2] as nat % 64 == c / 64 / 64 % 64)
  {
    assert c / 64 / 64 == c / 4096 && c / 64 / 64 / 64 == c / 262144;
  }

  lemma FoldOne(s: string, k: nat, n: nat, codepoint: nat)
    requires k <= n < |s| && s[k] as nat / 64 == 2
    ensures Fold(s, k, n, codepoint) == Fold(s, k + 1, n, codepoint * 64 + s[k] as nat % 64)
  {
  }

  /** An encoded scalar value is found again, whatever follows it. */
  lemma FrontFindsScalar(c: nat, t: string)
    requires Scalar(c)
    ensures Front(AppendUtf8(c) + t) == Some(c)
  {
    var e := AppendUtf8(c);
    var s := e + t;
    if c > 0x7F {
      EncodedBytes(c);
      hide AppendUtf8, Continuation, Payload, Fold;
      var n := |e| - 1;
      assert forall k :: 0 <= k <= n ==> s[k] == e[k];
      if n == 3 { FoldOne(s, 1, n, c / 64 / 64 / 64); }
      if n >= 2 { FoldOne(s, n - 1, n, c / 64 / 64); }
      FoldOne(s, n, n, c / 64);
      FoldEnds(s, n, c);
    }
  }

  lemma FoldEnds(s: string, n: nat, codepoint: nat)
    requires n < |s|
    ensures Fold(s, n + 1, n, codepoint) == Some(codepoint)
  {
  }

  /** A number split at six bits, and the byte each part comes from. */
  lemma SixBits(byte: nat, p: nat, q: nat)
    requires byte / 64 == 2 && q == p * 64 + byte % 64
    ensures q / 64 == p && byte == 0x80 + q % 64
  {
  }

  /** What the folding took is what the lead and the continuation bytes encode. */
  lemma FoldedBytes(s: string, n: nat, lead: nat, c: nat)
    requires 1 <= n <= 3 && n < |s| && Bytewise(s) && Fold(s, 1, n, lead) == Some(c)
    ensures forall k :: 1 <= k <= n ==> s[k] as nat / 64 == 2
    ensures s[n] as nat == 0x80 + c % 64
    ensures n == 1 ==> lead == c / 64
    ensures n == 2 ==> lead == c / 64 / 64 && s[1] as nat == 0x80 + c / 64 % 64
    ensures n == 3 ==> lead == c / 64 / 64 / 64 && s[1] as nat == 0x80 + c / 64 / 64 % 64 &&
                       s[2] as nat == 0x80 + c / 64 % 64
  {
    var q := lead * 64 + s[1] as nat % 64;
    FoldNext(s, 1, n, lead);
    SixBits(s[1] as nat, lead, q);
    if n == 1 {
      FoldEnds(s, n, q);
    } else {
      var r := q * 64 + s[2] as nat % 64;
      FoldNext(s, 2, n, q);
      SixBits(s[2] as nat, q, r);
      if n == 2 {
        FoldEnds(s, n, r);
      } else {
        FoldNext(s, 3, n, r);
        SixBits(s[3] as nat, r, r * 64 + s[3] as nat % 64);
        FoldEnds(s, n, r * 64 + s[3] as nat % 64);
      }
    }
  }

  lemma FoldNext(s: string, k: nat, n: nat, codepoint: nat)
    requires k <= n < |s| && Fold(s, k, n, codepoint).Some?
    ensures s[k] as nat / 64 == 2
    ensures Fold(s, k, n, codepoint) == Fold(s, k + 1, n, codepoint * 64 + s[k] as nat % 64)
  {
  }

  /** A lead byte is rebuilt from its payload. */
  lemma LeadOf(lead: nat)
    requires lead < 256 && Continuation(lead) > 0
    ensures var n := Continuation(lead);
            lead == Payload(lead) + if n == 1 then 0xC0 else if n == 2 then 0xE0 else 0xF0
    ensures Payload(lead) < if Continuation(lead) == 1 then 32 else if Continuation(lead) == 2 then 16 else 8
  {
  }

  /** What is found at the front is a scalar value, and the bytes there are its encoding. */
  lemma FrontIsEncoded(s: string)
    requires s != [] && Bytewise(s) && Front(s).Some?
    ensures var c := Front(s).value;
            && Scalar(c) && |AppendUtf8(c)| <= |s| && s[..|AppendUtf8(c)|] == AppendUtf8(c)
            && |AppendUtf8(c)| == if s[0] as nat < 0x80 then 1 else Continuation(s[0] as nat) + 1
  {
    hide Fold, Continuation, Payload;
    var lead, c := s[0] as nat, Front(s).value;
    if lead >= 0x80 {
      var n := Continuation(lead);
      LeadRange(lead);
      LeadOf(lead);
      FoldedBytes(s, n, Payload(lead), c);
      EncodedIs(s, n, Payload(lead), c);
    }
  }

  lemma LeadRange(lead: nat)
    ensures 0 <= Continuation(lead) <= 3
  {
  }

  /** The bytes that fold to `c` are the bytes of `c`, provided `c` is not too small for their number. */
  lemma EncodedIs(s: string, n: nat, payload: nat, c: nat)
    requires 1 <= n <= 3 && n < |s| && Minimum(n) <= c < 0x11_0000
    requires payload < if n == 1 then 32 else if n == 2 then 16 else 8
    requires s[0] as nat == payload + if n == 1 then 0xC0 else if n == 2 then 0xE0 else 0xF0
    requires s[n] as nat == 0x80 + c % 64
    requires n == 1 ==> payload == c / 64
    requires n == 2 ==> payload == c / 64 / 64 && s[1] as nat == 0x80 + c / 64 % 64
    requires n == 3 ==> payload == c / 64 / 64 / 64 && s[1] as nat == 0x80 + c / 64 / 64 % 64 &&
                        s[2] as nat == 0x80 + c / 64 % 64
    ensures |AppendUtf8(c)| == n + 1 && s[..n + 1] == AppendUtf8(c)
  {
    assert c / 64 / 64 == c / 4096 && c / 64 / 64 / 64 == c / 262144;
    var e := AppendUtf8(c);
    assert |e| == n + 1;
    assert forall k :: 0 <= k <= n ==> s[k] as nat == e[k] as nat;
    assert forall k :: 0 <= k <= n ==> s[..n + 1][k] == e[k];
  }

  lemma WellFormedFront(s: string)
    requires s != [] && WellFormed(s)
    ensures Front(s).Some? && Front(s).value < 0x11_0000
    ensures var n := |AppendUtf8(Front(s).value)|; n <= |s| && WellFormed(s[n..])
  {
    hide AppendUtf8, Front;
    var cs :| Scalars(cs) && EncodeAll(cs) == s;
    var t := EncodeAll(cs[1..]);
    FrontFindsScalar(cs[0], t);
    assert s[|AppendUtf8(cs[0])|..] == t;
    assert Scalars(cs[1..]);
  }

  lemma WellFormedWhole(c: nat, t: string)
    requires Scalar(c) && WellFormed(t)
    ensures WellFormed(AppendUtf8(c) + t)
  {
    hide AppendUtf8;
    var cs :| Scalars(cs) && EncodeAll(cs) == t;
    assert ([c] + cs)[1..] == cs;
    assert Scalars([c] + cs) && EncodeAll([c] + cs) == AppendUtf8(c) + t;
  }

  /** Reading one scalar value off the front decides nothing about the rest. */
  lemma WellFormedStep(s: string)
    requires s != [] && Bytewise(s)
    ensures Front(s).Some? ==> Front(s).value < 0x11_0000 && |AppendUtf8(Front(s).value)| <= |s|
    ensures WellFormed(s) <==> Front(s).Some? && WellFormed(s[|AppendUtf8(Front(s).value)|..])
  {
    hide AppendUtf8, WellFormed;
    if Front(s).Some? {
      FrontIsEncoded(s);
    }
    hide Front;
    if WellFormed(s) {
      WellFormedFront(s);
    }
    if Front(s).Some? {
      var c := Front(s).value;
      var n := |AppendUtf8(c)|;
      assert s == s[..n] + s[n..];
      if WellFormed(s[n..]) {
        WellFormedWhole(c, s[n..]);
      }
    }
  }

  /** Decodes the bytes at `index`; refuses truncated, overlong, surrogate and out-of-range sequences. */
  method ReadSequence(text: string, index: nat) returns (found: Option<nat>)
    requires index < |text|
    ensures found == Front(text[index..])
  {
    ghost var s := text[index..];
    var lead := text[index] as nat;
    if lead < 0x80 {
      return Some(lead);
    }
    var continuation := Continuation(lead);
    if continuation == 0 || |text| - index - 1 < continuation {
      return None;
    }
    var codepoint: nat := Payload(lead);
    for offset := 1 to continuation + 1
      invariant Fold(s, offset, continuation, codepoint) == Fold(s, 1, continuation, Payload(lead))
    {
      var next := text[index + offset] as nat;
      assert text[index + offset] == s[offset];
      if next / 64 != 2 {
        return None;
      }
      codepoint := codepoint * 64 + next % 64;
    }
    if codepoint < Minimum(continuation) || codepoint > 0x10_FFFF || 0xD800 <= codepoint <= 0xDFFF {
      return None;
    }
    found := Some(codepoint);
  }

  /** Accepts exactly the texts that encode scalar values in their shortest form. */
  method IsValidUtf8(text: string) returns (valid: bool)
    requires Bytewise(text)
    ensures valid <==> WellFormed(text)
  {
    hide AppendUtf8, WellFormed, Front, Continuation;
    var index := 0;
    assert text[0..] == text;
    while index < |text|
      invariant index <= |text|
      invariant WellFormed(text) <==> WellFormed(text[index..])
    {
      var found := ReadSequence(text, index);
      WellFormedStep(text[index..]);
      if found.None? {
        return false;
      }
      FrontIsEncoded(text[index..]);
      ghost var n := |AppendUtf8(found.value)|;
      assert text[index..][n..] == text[index + n..];
      index := index + (if text[index] as nat < 0x80 then 1 else Continuation(text[index] as nat) + 1);
    }
    EmptyIsWellFormed();
    assert text[index..] == [];
    valid := true;
  }

  lemma EmptyIsWellFormed()
    ensures WellFormed([])
  {
    assert Scalars([]) && EncodeAll([]) == [];
  }
}
