/** Arithmetic of the C language on `int` as the driver uses it: integer
    division that truncates toward zero, and the range of a 32-bit `int`. */
module CInt {

  const INT_MIN: int := -0x8000_0000
  const INT_MAX: int := 0x7FFF_FFFF

  /** True when `x` is representable as a 32-bit C `int`. */
  predicate InInt(x: int) {
    INT_MIN <= x <= INT_MAX
  }

  function Abs(x: int): (r: nat)
    ensures r == x || r == -x
  {
    if x < 0 then -x else x
  }

  /** The quotient `q` of C's `a / b` described by its remainder: `a - q * b`
      is smaller than `b` in magnitude and is zero or has the sign of `a`.
      Section 6.5.5 of ISO/IEC 9899:1999 defines the quotient as the
      algebraic quotient with any fractional part discarded; `DivDiscardsFraction`
      shows that `Div` is that quotient. */
  predicate IsTruncQuotient(a: int, b: int, q: int) {
    var rem := a - q * b;
    Abs(rem) < Abs(b) && (rem == 0 || (rem > 0 <==> a > 0))
  }

  /** C's `a / b` on `int`. Dafny's own `/` is Euclidean, so the sign of
      the result is taken from the operands and the magnitudes divided. */
  function Div(a: int, b: int): (q: int)
    requires b != 0
    ensures IsTruncQuotient(a, b, q)
  {
    var m := Abs(a) / Abs(b);
    MagnitudeDivision(Abs(a), Abs(b));
    if (a < 0) == (b < 0) then
      SameSignQuotient(a, b, m);
      m
    else
      OppositeSignQuotient(a, b, m);
      -m
  }

  /** Euclidean division of magnitudes, as used by `Div`. */
  lemma MagnitudeDivision(x: nat, y: nat)
    requires y > 0
    ensures x == (x / y) * y + x % y && 0 <= x % y < y
    ensures x == 0 ==> x % y == 0
  {
  }

  lemma SameSignQuotient(a: int, b: int, m: int)
    requires b != 0 && (a < 0) == (b < 0)
    requires Abs(a) == m * Abs(b) + Abs(a) % Abs(b) && 0 <= Abs(a) % Abs(b) < Abs(b)
    requires a == 0 ==> Abs(a) % Abs(b) == 0
    ensures IsTruncQuotient(a, b, m)
  {
    if a < 0 {
      assert m * b == -(m * Abs(b));
      assert a - m * b == -(Abs(a) % Abs(b));
    } else {
      assert a - m * b == Abs(a) % Abs(b);
    }
  }

  lemma OppositeSignQuotient(a: int, b: int, m: int)
    requires b != 0 && (a < 0) != (b < 0)
    requires Abs(a) == m * Abs(b) + Abs(a) % Abs(b) && 0 <= Abs(a) % Abs(b) < Abs(b)
    requires a == 0 ==> Abs(a) % Abs(b) == 0
    ensures IsTruncQuotient(a, b, -m)
  {
    if a < 0 {
      assert (-m) * b == -(m * Abs(b));
      assert a - (-m) * b == -(Abs(a) % Abs(b));
    } else {
      assert (-m) * b == m * Abs(b);
      assert a - (-m) * b == Abs(a) % Abs(b);
    }
  }

  /** The C quotient is unique: `Div` is the only function meeting
      `IsTruncQuotient`. */
  lemma TruncQuotientUnique(a: int, b: int, q1: int, q2: int)
    requires b != 0
    requires IsTruncQuotient(a, b, q1) && IsTruncQuotient(a, b, q2)
    ensures q1 == q2
  {
    var r1, r2 := a - q1 * b, a - q2 * b;
    // both remainders lie on the same side of zero, within |b| of it
    assert Abs(r1 - r2) < Abs(b);
    assert r1 - r2 == (q2 - q1) * b by {
      assert q2 * b - q1 * b == (q2 - q1) * b;
    }
    if q1 != q2 {
      MulMagnitude(q2 - q1, b);
      assert false;
    }
  }

  /** A non-zero multiple of `b` is at least as large as `b` in magnitude. */
  lemma MulMagnitude(k: int, b: int)
    requires k != 0
    ensures Abs(k * b) >= Abs(b)
  {
    var x: int, y: int := Abs(k), Abs(b);
    assert Abs(k * b) == x * y by {
      if k < 0 && b < 0 { assert k * b == x * y; }
      else if k < 0 { assert k * b == -(x * y); }
      else if b < 0 { assert k * b == -(x * y); }
    }
    PositiveMultiple(x, y);
  }

  lemma PositiveMultiple(x: nat, y: nat)
    requires x >= 1
    ensures x * y >= y
  {
    assert x * y == (x - 1) * y + y;
  }

  /** The algebraic quotient `x` with its fractional part discarded. */
  function Truncate(x: real): (r: int)
  {
    if x >= 0.0 then x.Floor else -((-x).Floor)
  }

  /** `Div` is the algebraic quotient with any fractional part discarded,
      as section 6.5.5 of ISO/IEC 9899:1999 defines C's `/`. */
  lemma DivDiscardsFraction(a: int, b: int)
    requires b != 0
    ensures Div(a, b) == Truncate(a as real / b as real)
  {
    var x := a as real / b as real;
    var mag := Abs(a) as real / Abs(b) as real;
    MagnitudeFloor(Abs(a), Abs(b));
    if a == 0 {
      assert x == 0.0;
    } else if (a < 0) == (b < 0) {
      assert x == mag by { RealQuotientSign(a, b); }
    } else {
      assert -x == mag by { RealQuotientSign(a, b); }
    }
  }

  /** The real quotient is the quotient of the magnitudes, with the sign
      determined by the operands' signs. */
  lemma RealQuotientSign(a: int, b: int)
    requires a != 0 && b != 0
    ensures (a < 0) == (b < 0) ==> a as real / b as real == Abs(a) as real / Abs(b) as real
    ensures (a < 0) != (b < 0) ==> -(a as real / b as real) == Abs(a) as real / Abs(b) as real
    ensures ((a < 0) == (b < 0)) == (a as real / b as real > 0.0)
  {
    var x := a as real / b as real;
    assert x * b as real == a as real;
  }

  /** Euclidean division of magnitudes is the floor of the real quotient. */
  lemma MagnitudeFloor(x: nat, y: nat)
    requires y > 0
    ensures (x / y) == (x as real / y as real).Floor
  {
    var q, r := x / y, x % y;
    assert x == q * y + r && 0 <= r < y;
    assert (x as real) == (q as real) * (y as real) + (r as real);
    assert q as real <= x as real / y as real < (q + 1) as real;
  }

  /** For a non-negative dividend and a positive divisor the truncating and
      the Euclidean quotient agree. */
  lemma DivNonNegative(a: int, b: int)
    requires a >= 0 && b > 0
    ensures Div(a, b) == a / b
  {
  }

  /** Truncation is symmetric about zero: `(-a) / b == -(a / b)` in C, which
      Euclidean division does not satisfy. */
  lemma DivNegate(a: int, b: int)
    requires b != 0
    ensures Div(-a, b) == -Div(a, b)
  {
  }
}
