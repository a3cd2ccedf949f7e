/** Floating-point values as the prediction container sees them: a finite
    number (held exactly, as a real) or one of the three non-finite values,
    with Python's `> 0` and numpy's element-wise closeness test. */
module Numerics {

  datatype Num = Finite(r: real) | NaN | PosInf | NegInf

  /** Every entry of a two-dimensional grid is finite (numpy's
      `isfinite(a).all()`; an empty grid passes). */
  predicate AllFinite(g: seq<seq<Num>>) {
    forall i, j :: 0 <= i < |g| && 0 <= j < |g[i]| ==> g[i][j].Finite?
  }

  /** Python's `x > 0` on a float: false for NaN and for minus infinity. */
  predicate Positive(x: Num) {
    match x
    case Finite(r) => r > 0.0
    case PosInf => true
    case _ => false
  }

  /** numpy's default relative and absolute tolerances. */
  const RTOL: real := 1e-5
  const ATOL: real := 1e-8

  function Abs(x: real): (r: real)
    ensures r >= 0.0 && (r == x || r == -x)
  {
    if x < 0.0 then -x else x
  }

  /** numpy.isclose(a, b) with default arguments: `|a - b| <= ATOL + RTOL * |b|`
      for finite values (the tolerance scales with the SECOND operand only);
      an infinity is close only to the same infinity; NaN is close to nothing. */
  predicate Close(a: Num, b: Num) {
    match (a, b)
    case (Finite(x), Finite(y)) => Abs(x - y) <= ATOL + RTOL * Abs(y)
    case (PosInf, PosInf) => true
    case (NegInf, NegInf) => true
    case _ => false
  }

  /** Every value except NaN is close to itself. */
  lemma CloseReflexive(a: Num)
    ensures Close(a, a) <==> !a.NaN?
  {
  }

  /** Closeness is not symmetric: with b = 1.000005e-8, |0 - b| is within
      ATOL + RTOL * |b|, but not within ATOL + RTOL * |0|. */
  lemma CloseAsymmetric()
    ensures Close(Finite(0.0), Finite(1.000005e-8))
    ensures !Close(Finite(1.000005e-8), Finite(0.0))
  {
  }
}
