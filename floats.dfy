/**
 * Double-precision values seen as exact reals plus the three non-finite
 * values that numpy and pandas produce (division by zero, inf - inf).
 * Rounding errors of binary floating point are not modelled.
 */
module Floats {

  datatype Float = Fin(v: real) | PosInf | NegInf | NaN

  /** np.isfinite */
  predicate IsFinite(f: Float) { f.Fin? }

  /** `f > 0` on a double: true for +inf, false for NaN. */
  predicate IsPositive(f: Float) { f.PosInf? || (f.Fin? && f.v > 0.0) }

  /** `f < 0` on a double: true for -inf, false for NaN. */
  predicate IsNegative(f: Float) { f.NegInf? || (f.Fin? && f.v < 0.0) }

  /** IEEE division of two finite doubles (the sign of a zero divisor is taken as +). */
  function Quotient(a: real, b: real): (q: Float)
    ensures q.NaN? <==> a == 0.0 && b == 0.0
    ensures IsFinite(q) <==> b != 0.0
  {
    if b != 0.0 then Fin(a / b)
    else if a > 0.0 then PosInf
    else if a < 0.0 then NegInf
    else NaN
  }

  /** f + c for a finite c: infinities and NaN absorb it. */
  function Shift(f: Float, c: real): Float {
    match f
    case Fin(x) => Fin(x + c)
    case _ => f
  }

  /** IEEE addition. */
  function Add(a: Float, b: Float): Float {
    match (a, b)
    case (Fin(x), Fin(y)) => Fin(x + y)
    case (NaN, _) => NaN
    case (_, NaN) => NaN
    case (PosInf, NegInf) => NaN
    case (NegInf, PosInf) => NaN
    case (PosInf, _) => PosInf
    case (_, PosInf) => PosInf
    case (NegInf, _) => NegInf
    case (_, NegInf) => NegInf
  }

  /** f * c for a finite c; infinity times zero is NaN. */
  function Scale(f: Float, c: real): Float {
    match f
    case Fin(x) => Fin(x * c)
    case NaN => NaN
    case PosInf => if c > 0.0 then PosInf else if c < 0.0 then NegInf else NaN
    case NegInf => if c > 0.0 then NegInf else if c < 0.0 then PosInf else NaN
  }

  /** np.sqrt lifted to doubles, given the square root of the non-negative reals. */
  function SqrtOf(f: Float, sqrt: real -> real): Float {
    match f
    case Fin(x) => if x >= 0.0 then Fin(sqrt(x)) else NaN
    case PosInf => PosInf
    case _ => NaN
  }

  function Pow10(digits: nat): (p: real)
    ensures p >= 1.0
  {
    if digits == 0 then 1.0 else 10.0 * Pow10(digits - 1)
  }

  /** The integer nearest to x * p, ties to the even neighbour. */
  function RoundHalfEven(x: real, p: real): (n: int)
    ensures -0.5 <= n as real - x * p <= 0.5
  {
    var y := x * p;
    var f := y.Floor;
    var frac := y - f as real;
    if frac > 0.5 then f + 1
    else if frac < 0.5 then f
    else if f % 2 == 0 then f
    else f + 1
  }

  /**
   * Python's round(x, digits) applied to the exact value x: the nearest
   * multiple of 10^-digits, ties to the even multiple.
   */
  function Round(x: real, digits: nat): (r: real)
    ensures -0.5 / Pow10(digits) <= r - x <= 0.5 / Pow10(digits)
  {
    RoundBound(x, Pow10(digits), RoundHalfEven(x, Pow10(digits)));
    RoundHalfEven(x, Pow10(digits)) as real / Pow10(digits)
  }

  lemma RoundBound(x: real, p: real, n: int)
    requires p >= 1.0
    requires -0.5 <= n as real - x * p <= 0.5
    ensures -0.5 / p <= n as real / p - x <= 0.5 / p
  {
    assert n as real / p - x == (n as real - x * p) / p;
  }

  /** Rounding a multiple of 10^-digits returns it unchanged; in particular round(0, d) == 0. */
  lemma {:induction false} RoundOfInteger(k: int, digits: nat)
    ensures Round(k as real / Pow10(digits), digits) == k as real / Pow10(digits)
  {
    var p := Pow10(digits);
    var x := k as real / p;
    assert x * p == k as real;
    assert RoundHalfEven(x, p) == k;
  }

  /** k is the integer nearest to x * 10^digits, and an even one when that lies half-way between two integers. */
  predicate NearestEvenMultiple(x: real, digits: nat, k: int) {
    var d := k as real - x * Pow10(digits);
    -0.5 <= d <= 0.5 && (d == 0.5 || d == -0.5 ==> k % 2 == 0)
  }

  /** round(x, d) is k / 10^d for the integer k nearest to x * 10^d, ties to the even k. */
  lemma RoundIsNearestEven(x: real, digits: nat)
    ensures exists k: int :: NearestEvenMultiple(x, digits, k) && Round(x, digits) == k as real / Pow10(digits)
  {
    var k := RoundHalfEven(x, Pow10(digits));
    assert NearestEvenMultiple(x, digits, k);
  }

  /** Ties go to the even cent: 0.125 rounds down to 0.12 and 0.135 up to 0.14. */
  lemma RoundTiesExample()
    ensures Round(0.125, 2) == 0.12
    ensures Round(0.135, 2) == 0.14
  {
    assert Pow10(2) == 100.0;
    assert RoundHalfEven(0.125, 100.0) == 12;
    assert RoundHalfEven(0.135, 100.0) == 14;
  }

  lemma RoundOfZero(digits: nat)
    ensures Round(0.0, digits) == 0.0
  {
    var p := Pow10(digits);
    assert RoundHalfEven(0.0, p) == 0;
    assert 0.0 / p == 0.0;
  }
}
