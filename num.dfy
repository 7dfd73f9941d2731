/**
 * Java numeric semantics over Dafny's unbounded numbers: the truncating
 * `(int)` cast, the truncated `%` on floating point values, min/max, the
 * `Float`/`Double` limit constants, and square roots supplied by the caller.
 * Floating point rounding is not modelled: every float or double is a `real`.
 */
module Num {

  /** Float.MAX_VALUE, (2 - 2^-23) * 2^127. */
  const FLOAT_MAX: real := 340282346638528859811704183484516925440.0

  /** Float.MIN_VALUE, the smallest positive float, 2^-149. */
  const FLOAT_MIN: real := 1.0 / 713623846352979940529142984724747568191373312.0

  /** Double.MAX_VALUE, (2 - 2^-52) * 2^1023. */
  const DOUBLE_MAX: real := 179769313486231570814527423731704356798070567525844996598917476803157260780028538760589558632766878171540458953514382464234321326889464182768467546703537516986049910576551282076245490090389328944075868508455133942304583236903222948165808559332123348274797826204144723168738177180919299881250404026184124858368.0

  const INT_MIN: int := -0x8000_0000
  const INT_MAX: int := 0x7fff_ffff

  function MinR(a: real, b: real): real { if a <= b then a else b }
  function MaxR(a: real, b: real): real { if a >= b then a else b }
  function AbsR(a: real): real { if a < 0.0 then -a else a }
  function MinI(a: int, b: int): int { if a <= b then a else b }
  function MaxI(a: int, b: int): int { if a >= b then a else b }

  /** Rounds toward zero, as a Java narrowing conversion does. */
  function Trunc(q: real): (t: int)
    ensures q >= 0.0 ==> 0 <= t && t as real <= q < t as real + 1.0
    ensures q <= 0.0 ==> t <= 0 && t as real - 1.0 < q <= t as real
  {
    if q >= 0.0 then q.Floor else -((-q).Floor)
  }

  /** The Java cast `(int) v` of a float or double: truncation toward zero, saturated to the int range. */
  function JavaIntCast(v: real): (i: int)
    ensures INT_MIN <= i <= INT_MAX
    ensures INT_MIN as real <= v <= INT_MAX as real ==> i == Trunc(v)
  {
    if v >= INT_MAX as real then INT_MAX
    else if v <= INT_MIN as real then INT_MIN
    else Trunc(v)
  }

  /**
   * The Java remainder `a % m` on floats: the dividend minus the divisor times
   * the truncated quotient, so the result keeps the sign of the dividend.
   */
  function JavaRem(a: real, m: real): real
    requires m != 0.0
  {
    a - m * Trunc(a / m) as real
  }

  /** A fraction of magnitude below one scales a non-zero value to something smaller in magnitude. */
  lemma FractionShrinks(f: real, m: real)
    requires -1.0 < f < 1.0 && m != 0.0
    ensures AbsR(f * m) < AbsR(m)
  {
    if m > 0.0 {
      assert (1.0 - f) * m > 0.0 && (1.0 + f) * m > 0.0;
    } else {
      assert (1.0 - f) * m < 0.0 && (1.0 + f) * m < 0.0;
    }
  }

  /** The remainder is smaller than the divisor in magnitude and has the dividend's sign. */
  lemma JavaRemBounds(a: real, m: real)
    requires m != 0.0
    ensures AbsR(JavaRem(a, m)) < AbsR(m)
    ensures a >= 0.0 ==> JavaRem(a, m) >= 0.0
    ensures a <= 0.0 ==> JavaRem(a, m) <= 0.0
  {
    var q := a / m;
    var t := Trunc(q) as real;
    assert a == q * m;
    var f := q - t;
    assert JavaRem(a, m) == f * m;
    assert q >= 0.0 ==> 0.0 <= f < 1.0;
    assert q <= 0.0 ==> -1.0 < f <= 0.0;
    FractionShrinks(f, m);
    if m > 0.0 {
      assert a >= 0.0 ==> q >= 0.0;
      assert a <= 0.0 ==> q <= 0.0;
    } else {
      assert a >= 0.0 ==> q <= 0.0;
      assert a <= 0.0 ==> q >= 0.0;
    }
  }

  /** A dividend already smaller in magnitude than the divisor is its own remainder. */
  lemma JavaRemSmall(a: real, m: real)
    requires m != 0.0 && AbsR(a) < AbsR(m)
    ensures JavaRem(a, m) == a
  {
    var q := a / m;
    QuotientSmall(a, m, q);
    assert Trunc(q) == 0;
  }

  /** The quotient of a smaller by a larger magnitude lies strictly between -1 and 1. */
  lemma QuotientSmall(a: real, m: real, q: real)
    requires m != 0.0 && AbsR(a) < AbsR(m) && q == a / m
    ensures -1.0 < q < 1.0
  {
    assert q * m == a;
    if m > 0.0 {
      assert (1.0 - q) * m == m - a && (1.0 + q) * m == m + a;
      PosFromProduct(1.0 - q, m);
      PosFromProduct(1.0 + q, m);
    } else {
      assert (1.0 - q) * -m == a - m && (1.0 + q) * -m == -m - a;
      PosFromProduct(1.0 - q, -m);
      PosFromProduct(1.0 + q, -m);
    }
  }

  /** A positive product with a positive factor has a positive other factor. */
  lemma PosFromProduct(x: real, m: real)
    requires m > 0.0 && x * m > 0.0
    ensures x > 0.0
  {}

  /** A reciprocal times its number is 1. */
  lemma Reciprocal(d: real)
    requires d != 0.0
    ensures (1.0 / d) * d == 1.0 && d * (1.0 / d) == 1.0
  {}

  /** For positive numbers, the larger has the smaller reciprocal. */
  lemma ReciprocalAntitone(m: real, z: real)
    requires 0.0 < m <= z
    ensures 0.0 < 1.0 / z <= 1.0 / m
  {
    var a, b := 1.0 / m, 1.0 / z;
    Reciprocal(m);
    Reciprocal(z);
    assert a > 0.0 && b > 0.0;
    MulNonNeg(a, z - m);
    assert a * z >= a * m;
    assert (a - b) * z == a * z - b * z;
    if a - b < 0.0 {
      MulPos(b - a, z);
    }
  }

  /** The product of two positive numbers is positive. */
  lemma MulPos(a: real, b: real)
    requires a > 0.0 && b > 0.0
    ensures a * b > 0.0
  {}

  /** The product of two non-negative numbers is non-negative. */
  lemma MulNonNeg(a: real, b: real)
    requires a >= 0.0 && b >= 0.0
    ensures a * b >= 0.0
  {
    if a > 0.0 && b > 0.0 { MulPos(a, b); }
  }

  /** Squaring keeps the order of non-negative numbers, in both directions. */
  lemma SquareOrder(l: real, c: real)
    requires l >= 0.0 && c > 0.0
    ensures l < c <==> l * l < c * c
    ensures l > c <==> l * l > c * c
  {
    assert l * l - c * c == (l - c) * (l + c);
    if l < c { MulPos(c - l, c + l); }
    else if l > c { MulPos(l - c, l + c); }
  }

  /** `r` is the non-negative square root of `sq`: how a caller supplies Math.sqrt. */
  predicate IsSqrt(r: real, sq: real)
  {
    r >= 0.0 && r * r == sq
  }

  /** At most one value qualifies, so a model that takes a supplied root is deterministic. */
  lemma SqrtUnique(r1: real, r2: real, sq: real)
    requires IsSqrt(r1, sq) && IsSqrt(r2, sq)
    ensures r1 == r2
  {
    if r1 != r2 {
      assert (r1 - r2) * (r1 + r2) == r1 * r1 - r2 * r2;
      if r1 < r2 { MulPos(r2 - r1, r1 + r2); } else { MulPos(r1 - r2, r1 + r2); }
    }
  }

  function Pow2(k: nat): (p: nat)
    ensures p >= 1
  {
    if k == 0 then 1 else 2 * Pow2(k - 1)
  }

  lemma Pow2Facts()
    ensures Pow2(8) == 0x100 && Pow2(16) == 0x1_0000 && Pow2(32) == 0x1_0000_0000
  {
    assert Pow2(4) == 0x10;
    assert Pow2(8) == 0x100;
    assert Pow2(12) == 0x1000;
    assert Pow2(16) == 0x1_0000;
    assert Pow2(20) == 0x10_0000;
    assert Pow2(24) == 0x100_0000;
    assert Pow2(28) == 0x1000_0000;
  }

  /** The 32 bits of a Java int, read as an unsigned number (two's complement). */
  function Unsigned32(i: int): (u: nat)
    ensures u < 0x1_0000_0000
  {
    i % 0x1_0000_0000
  }

  /** A value that already fits in 32 unsigned bits is its own pattern. */
  lemma Unsigned32Small(i: int)
    requires 0 <= i < 0x1_0000_0000
    ensures Unsigned32(i) == i
  {}

  /** The Java int whose 32 bits, read unsigned, are `u`. */
  function Signed32(u: nat): (i: int)
    requires u < 0x1_0000_0000
    ensures INT_MIN <= i <= INT_MAX
  {
    if u <= INT_MAX then u else u - 0x1_0000_0000
  }

  /** Bitwise OR of two non-negative numbers, one bit at a time from the lowest. */
  function BitOr(a: nat, b: nat): nat
    decreases a + b
  {
    if a == 0 then b
    else if b == 0 then a
    else 2 * BitOr(a / 2, b / 2) + (if a % 2 == 1 || b % 2 == 1 then 1 else 0)
  }

  /** OR of values below 2^k stays below 2^k. */
  lemma {:induction false} BitOrBound(a: nat, b: nat, k: nat)
    requires a < Pow2(k) && b < Pow2(k)
    ensures BitOr(a, b) < Pow2(k)
    decreases k
  {
    if a != 0 && b != 0 {
      BitOrBound(a / 2, b / 2, k - 1);
    }
  }

  /** OR with a value below 2^k does not overlap a multiple of 2^k, so it is an addition. */
  lemma {:induction false} BitOrDisjoint(a: nat, b: nat, k: nat)
    requires b < Pow2(k)
    ensures BitOr(a * Pow2(k), b) == a * Pow2(k) + b
    decreases k
  {
    if k == 0 {
      assert b == 0;
    } else if a == 0 || b == 0 {
    } else {
      var h := a * Pow2(k - 1);
      assert a * Pow2(k) == 2 * h;
      assert (2 * h) / 2 == h && (2 * h) % 2 == 0;
      BitOrDisjoint(a, b / 2, k - 1);
    }
  }
}
