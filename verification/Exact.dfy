/** Exact 64-bit ratio arithmetic: 128-bit comparison of products and rounding that tolerates wrap-around. */
module Exact {

  const B: int := 0x1_0000_0000
  const B2: int := 0x1_0000_0000_0000_0000

  newtype u32 = x: int | 0 <= x < 0x1_0000_0000
  newtype u64 = x: int | 0 <= x < 0x1_0000_0000_0000_0000

  /** The value a 64-bit register keeps of an unbounded result. */
  function Wrap(x: nat): (r: nat) { x % B2 }

  datatype Wide = Wide(high: nat, low: nat) {
    function Value(): nat { high * B2 + low }
  }

  /** Adds the four limb products at their weights, in 64-bit registers. */
  function Combine(p0: nat, p1: nat, p2: nat, p3: nat): (w: Wide) {
    var middle := Wrap(p0 / B + p1 % B + p2 % B);
    Wide(Wrap(p3 + p1 / B + p2 / B + middle / B), p0 % B + Wrap(middle * B))
  }

  /** Full product out of 32-bit limbs; every intermediate is a 64-bit register. */
  function MultiplyWide(lhs: u64, rhs: u64): (w: Wide) {
    var l, r := lhs as int, rhs as int;
    Combine(Wrap((l % B) * (r % B)), Wrap((l % B) * (r / B)), Wrap((l / B) * (r % B)), Wrap((l / B) * (r / B)))
  }

  function CompareWide(a: Wide, b: Wide): (r: int) {
    if a.high != b.high then (if a.high < b.high then -1 else 1)
    else if a.low != b.low then (if a.low < b.low then -1 else 1)
    else 0
  }

  function CompareProducts(la: u64, lb: u64, ra: u64, rb: u64): (r: int) {
    CompareWide(MultiplyWide(la, lb), MultiplyWide(ra, rb))
  }

  lemma MulLess(a: int, b: int, c: int)
    requires 0 <= a <= b && 0 <= c
    ensures 0 <= a * c <= b * c
  {
  }

  lemma LimbBound(x: int, y: int)
    requires 0 <= x < B && 0 <= y < B
    ensures 0 <= x * y <= (B - 1) * (B - 1)
  {
    MulLess(x, B - 1, y);
    MulLess(y, B - 1, B - 1);
  }

  lemma Distribute(a: int, b: int, c: int, d: int)
    ensures (a + b) * (c + d) == a * c + a * d + b * c + b * d
  {
  }

  lemma LimbsOfProduct(lh: int, ll: int, rh: int, rl: int)
    ensures (lh * B + ll) * (rh * B + rl) == (lh * rh) * B2 + (lh * rl) * B + (ll * rh) * B + ll * rl
  {
    Distribute(lh * B, ll, rh * B, rl);
    assert (lh * B) * (rh * B) == (lh * rh) * B2;
    assert (lh * B) * rl == (lh * rl) * B;
    assert ll * (rh * B) == (ll * rh) * B;
  }

  /** Recombining four limb products that fit their registers loses no carry. */
  lemma CombineIsExact(p0: nat, p1: nat, p2: nat, p3: nat)
    requires p0 <= (B - 1) * (B - 1) && p1 <= (B - 1) * (B - 1)
    requires p2 <= (B - 1) * (B - 1) && p3 <= (B - 1) * (B - 1)
    ensures Combine(p0, p1, p2, p3).Value() == p3 * B2 + p2 * B + p1 * B + p0
    ensures 0 <= Combine(p0, p1, p2, p3).low < B2
  {
    var middle := p0 / B + p1 % B + p2 % B;
    assert 0 <= middle < 3 * B;
    WrapSmall(middle);
    var ml := middle % B;
    assert middle * B == (middle / B) * B2 + ml * B;
    assert Wrap(middle * B) == ml * B by { DivUniqueWrap(middle * B, middle / B, ml * B); }
    var top := p3 + p1 / B + p2 / B + middle / B;
    assert top < B2;
    WrapSmall(top);
  }

  lemma WrapSmall(x: nat)
    requires x < B2
    ensures Wrap(x) == x
  {
  }

  lemma DivUniqueWrap(x: nat, q: nat, r: nat)
    requires x == q * B2 + r && r < B2
    ensures Wrap(x) == r
  {
  }

  lemma MultiplyLimbs(lh: nat, ll: nat, rh: nat, rl: nat)
    requires lh < B && ll < B && rh < B && rl < B
    ensures var w := Combine(Wrap(ll * rl), Wrap(ll * rh), Wrap(lh * rl), Wrap(lh * rh));
            w.Value() == (lh * B + ll) * (rh * B + rl) && 0 <= w.low < B2
  {
    LimbBound(ll, rl);
    LimbBound(ll, rh);
    LimbBound(lh, rl);
    LimbBound(lh, rh);
    var p0, p1, p2, p3 := ll * rl, ll * rh, lh * rl, lh * rh;
    WrapSmall(p0);
    WrapSmall(p1);
    WrapSmall(p2);
    WrapSmall(p3);
    CombineIsExact(p0, p1, p2, p3);
    LimbsOfProduct(lh, ll, rh, rl);
  }

  /** The limb computation is the true 128-bit product: no carry is lost. */
  lemma MultiplyWideIsExact(lhs: u64, rhs: u64)
    ensures MultiplyWide(lhs, rhs).Value() == (lhs as int) * (rhs as int)
    ensures 0 <= MultiplyWide(lhs, rhs).low < B2
  {
    var l, r := lhs as int, rhs as int;
    DivStep(l, B);
    DivStep(r, B);
    MultiplyLimbs(l / B, l % B, r / B, r % B);
  }

  /** The comparison orders the true products of any four 64-bit values. */
  lemma CompareProductsIsTrueOrder(la: u64, lb: u64, ra: u64, rb: u64)
    ensures CompareProducts(la, lb, ra, rb) < 0 <==> (la as int) * (lb as int) < (ra as int) * (rb as int)
    ensures CompareProducts(la, lb, ra, rb) == 0 <==> (la as int) * (lb as int) == (ra as int) * (rb as int)
  {
    MultiplyWideIsExact(la, lb);
    MultiplyWideIsExact(ra, rb);
    var a, b := MultiplyWide(la, lb), MultiplyWide(ra, rb);
    if a.high < b.high {
      assert a.Value() < (a.high + 1) * B2 <= b.high * B2 <= b.Value();
    } else if a.high > b.high {
      assert b.Value() < (b.high + 1) * B2 <= a.high * B2 <= a.Value();
    }
  }

  function Times(a: nat, b: nat): (p: nat)
    ensures p == a * b
  {
    MulLess(0, a, b);
    a * b
  }

  function Quotient(a: nat, d: nat): (q: nat)
    requires d > 0
    ensures q == a / d
  {
    DivStep(a, d);
    a / d
  }

  /** A fraction of 32-bit parts; policy validation demands 0 < denominator and numerator <= denominator. */
  datatype Ratio = Ratio(numerator: u32, denominator: u32) {
    predicate Valid() { denominator != 0 && numerator <= denominator }

    function ApplyFloor(value: u64): (r: nat) {
      var n, d, v := numerator as int, denominator as int, value as int;
      if d == 0 || n == 0 then 0
      else if n >= d then v
      else
        DivStep(v, d);
        Wrap(Wrap(Times(v / d, n)) + Quotient(Wrap(Times(v % d, n)), d))
    }

    function ApplyCeil(value: u64): (r: nat) {
      var n, d, v := numerator as int, denominator as int, value as int;
      if d == 0 || n == 0 then 0
      else if n >= d then v
      else
        var floor := ApplyFloor(value);
        if Wrap(Times(floor, d)) == Wrap(Times(v, n)) then floor else Wrap(floor + 1)
    }

    predicate SatisfiedBy(part: u64, whole: u64) {
      if denominator == 0 then false
      else if whole == 0 then numerator == 0
      else CompareProducts(part, denominator as u64, whole, numerator as u64) >= 0
    }
  }

  lemma DivStep(x: int, d: int)
    requires d > 0
    ensures x == (x / d) * d + x % d && 0 <= x % d < d
    ensures x >= 0 ==> x / d >= 0
  {
  }

  lemma MulStep(k: int, d: int)
    requires d > 0
    ensures k >= 1 ==> k * d >= d
    ensures k <= -1 ==> k * d <= -d
  {
    if k >= 1 {
      MulLess(1, k, d);
    } else if k <= -1 {
      MulLess(1, -k, d);
    }
  }

  lemma DivUnique(x: int, d: int, q: int)
    requires d > 0 && 0 <= x - q * d < d
    ensures x / d == q
  {
    DivStep(x, d);
    MulStep(x / d - q, d);
    assert (x / d - q) * d == (x / d) * d - q * d;
  }

  lemma FloorOfSplit(q: nat, r: nat, n: nat, d: nat)
    requires 0 < n < d && r < d
    ensures (q * d + r) * n / d == q * n + r * n / d
    ensures q * n + r * n / d <= q * d + r
  {
    DivStep(r * n, d);
    var k: int := r * n / d;
    Distribute(q * d, r, n, 0);
    assert (q * d) * n == (q * n) * d;
    Distribute(q * n, k, d, 0);
    DivUnique((q * d + r) * n, d, q * n + k);
    MulLess(n, d, q);
    MulLess(n, d, r);
    MulStep(k - r, d);
    Distribute(k, -(r as int), d, 0);
  }

  lemma FloorDoesNotWrap(q: nat, r: nat, n: nat, d: nat, v: nat)
    requires 0 < n < d < B && r < d && v < B2
    requires q * n + r * n / d <= v
    ensures Wrap(Wrap(q * n) + Wrap(r * n) / d) == q * n + r * n / d
  {
    LimbBound(r, n);
    MulLess(0, q, n);
    DivStep(r * n, d);
    WrapSmall(r * n);
    WrapSmall(q * n);
    WrapSmall(q * n + r * n / d);
  }

  /** Splitting the product at the denominator computes the exact floor, and nothing wraps on the way. */
  lemma ApplyFloorIsExact(ratio: Ratio, value: u64)
    requires ratio.Valid()
    ensures ratio.ApplyFloor(value) == (value as int) * (ratio.numerator as int) / (ratio.denominator as int)
    ensures ratio.ApplyFloor(value) <= value as int
  {
    var n, d, v := ratio.numerator as int, ratio.denominator as int, value as int;
    if n == 0 {
      assert v * n == 0;
    } else if n == d {
      DivUnique(v * n, d, v);
    } else {
      DivStep(v, d);
      var q, r := v / d, v % d;
      FloorOfSplit(q, r, n, d);
      FloorDoesNotWrap(q, r, n, d, v);
    }
  }

  lemma WrapEqual(x: int, r: int)
    requires 0 <= x && 0 <= r < B2
    ensures Wrap(x) == Wrap(x + r) <==> r == 0
  {
    if Wrap(x) == Wrap(x + r) {
      assert r == ((x + r) / B2 - x / B2) * B2;
    }
  }

  /** Comparing wrapped products still tells whether `f`, the floor of x / d, is the exact quotient. */
  lemma CeilFromFloor(x: nat, d: nat, f: nat)
    requires 0 < d < B && f == x / d
    ensures Wrap(f * d) == Wrap(x) <==> x % d == 0
    ensures (x + d - 1) / d == if x % d == 0 then f else f + 1
  {
    DivStep(x, d);
    MulLess(0, f, d);
    WrapEqual(f * d, x % d);
    Distribute(f, 1, d, 0);
    DivUnique(x + d - 1, d, if x % d == 0 then f else f + 1);
  }

  lemma FloorBelow(v: nat, n: nat, d: nat)
    requires n < d && v * n % d != 0
    ensures v * n / d < v
  {
    DivStep(v * n, d);
    MulLess(n, d, v);
    MulStep(v * n / d - v, d);
    Distribute(v * n / d, -(v as int), d, 0);
  }

  lemma CeilOfProper(ratio: Ratio, value: u64)
    requires 0 < ratio.numerator < ratio.denominator
    requires ratio.ApplyFloor(value) == (value as int) * (ratio.numerator as int) / (ratio.denominator as int)
    ensures var n, d, v := ratio.numerator as int, ratio.denominator as int, value as int;
            ratio.ApplyCeil(value) == (v * n + d - 1) / d && ratio.ApplyCeil(value) <= v
  {
    hide Wrap;
    var n, d, v := ratio.numerator as int, ratio.denominator as int, value as int;
    MulLess(0, v, n);
    CeilFromFloor(v * n, d, v * n / d);
    FloorFits(v, n, d);
    if v * n % d != 0 {
      FloorBelow(v, n, d);
      WrapSmall(v * n / d + 1);
    }
  }

  lemma FloorFits(v: nat, n: nat, d: nat)
    requires n < d
    ensures 0 <= v * n / d <= v
  {
    MulLess(0, v, n);
    DivStep(v * n, d);
    MulLess(n, d, v);
    MulStep(v * n / d - v, d);
    Distribute(v * n / d, -(v as int), d, 0);
  }

  /**
   * The ceiling is exact although both products it compares may exceed 64 bits: they differ by less
   * than the denominator, so they agree after wrapping only when they are equal.
   */
  lemma ApplyCeilIsExact(ratio: Ratio, value: u64)
    requires ratio.Valid()
    ensures var n, d, v := ratio.numerator as int, ratio.denominator as int, value as int;
            && ratio.ApplyCeil(value) == (v * n + d - 1) / d
            && ratio.ApplyCeil(value) <= v
  {
    var n, d, v := ratio.numerator as int, ratio.denominator as int, value as int;
    if n == 0 {
      assert v * n == 0;
      DivUnique(v * n + d - 1, d, 0);
    } else if n == d {
      DivUnique(v * n + d - 1, d, v);
    } else {
      ApplyFloorIsExact(ratio, value);
      MulLess(0, v, n);
      CeilOfProper(ratio, value);
    }
  }

  /** The threshold test is the rational comparison part/whole >= numerator/denominator, cross-multiplied. */
  lemma SatisfiedByIsRational(ratio: Ratio, part: u64, whole: u64)
    requires ratio.Valid()
    ensures ratio.SatisfiedBy(part, whole) <==>
            if whole == 0 then ratio.numerator == 0
            else (part as int) * (ratio.denominator as int) >= (whole as int) * (ratio.numerator as int)
  {
    CompareProductsIsTrueOrder(part, ratio.denominator as u64, whole, ratio.numerator as u64);
  }
}
