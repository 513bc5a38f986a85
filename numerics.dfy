/**
 * Numeric helpers shared by the model: the constants the source takes from
 * `Math.PI` and gl-matrix, `Math.trunc`, `Math.min`/`Math.max`, and the foreign
 * floating-point functions, which are passed in as function values.
 */
module Numerics {

  /** `Math.PI`, as its shortest decimal print. */
  const PI: real := 3.141592653589793

  /** `glMatrix.EPSILON`. */
  const EPSILON: real := 0.000001

  function Min(a: real, b: real): real { if a <= b then a else b }

  function Max(a: real, b: real): real { if a >= b then a else b }

  function Abs(x: real): real { if x >= 0.0 then x else -x }

  /** `Math.max(lo, Math.min(hi, x))`, the clamp idiom of the source. */
  function Clamp(lo: real, hi: real, x: real): (r: real)
    ensures lo <= hi ==> lo <= r <= hi
    ensures lo <= x <= hi ==> r == x
    ensures r == x || r == lo || r == hi
  {
    Max(lo, Min(hi, x))
  }

  /** `Math.trunc`: rounds toward zero. */
  function Trunc(x: real): (n: int)
    ensures 0.0 <= x ==> n as real <= x < n as real + 1.0
    ensures x < 0.0 ==> n as real - 1.0 < x <= n as real
  {
    if x >= 0.0 then x.Floor else -((-x).Floor)
  }

  /**
   * The foreign floating-point functions `Math.sqrt`, `Math.sin`, `Math.cos`
   * and `Math.atan`. Nothing is assumed of them; a member that needs a law
   * of `sqrt` states it as a precondition at the one argument it uses.
   */
  datatype MathLib = MathLib(sqrt: real -> real, sin: real -> real, cos: real -> real, atan: real -> real)

  function Square(x: real): real { x * x }

  /** A square is never negative. */
  lemma SquareNonNegative(x: real)
    ensures Square(x) >= 0.0
  {
    if x > 0.0 {
      assert x * x > 0.0;
    } else if x < 0.0 {
      assert x * x > 0.0;
    } else {
      assert x * x == 0.0;
    }
  }

  lemma SquareOfZero(x: real)
    requires x == 0.0
    ensures Square(x) == 0.0
  {
  }

  /** `sqrt` returns the non-negative square root of `x`. */
  predicate SqrtAt(m: MathLib, x: real) {
    m.sqrt(x) >= 0.0 && Square(m.sqrt(x)) == x
  }
}
