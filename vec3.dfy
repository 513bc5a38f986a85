/**
 * `Vec3` (lib/linear/vec3.ts): three-entry vectors held in arrays that are
 * written in place. `Math.sqrt` is the `sqrt` of a `MathLib` passed in.
 */
module Vec3 {
  import opened Numerics

  /** `v[0]^2 + v[1]^2 + v[2]^2`, the radicand of `normalize`. */
  function SquaredNorm(v: seq<real>): real
    requires |v| == 3
  {
    v[0] * v[0] + v[1] * v[1] + v[2] * v[2]
  }

  /** `normalize`'s result: each entry divided by the length. */
  function Normalized(v: seq<real>, math: MathLib): (u: seq<real>)
    requires |v| == 3 && math.sqrt(SquaredNorm(v)) != 0.0
    ensures |u| == 3
  {
    var len := math.sqrt(SquaredNorm(v));
    [v[0] / len, v[1] / len, v[2] / len]
  }

  /** `Vec3.zero()`: three zeros. */
  method Zero() returns (out: array<real>)
    ensures fresh(out) && out[..] == [0.0, 0.0, 0.0]
  {
    out := new real[3](_ => 0.0);
    assert out[..] == [0.0, 0.0, 0.0];
  }

  /**
   * `normalize`: the length is computed before any entry is written, so
   * `out` may be `vec`. The source divides by zero on the zero vector; the
   * model requires a vector whose length is a true square root and nonzero.
   */
  method Normalize(out: array<real>, vec: array<real>, math: MathLib)
    requires out.Length == 3 && vec.Length == 3
    requires SqrtAt(math, SquaredNorm(vec[..])) && SquaredNorm(vec[..]) != 0.0
    modifies out
    ensures out[..] == Normalized(old(vec[..]), math)
  {
    ghost var v := vec[..];
    SqrtNonZero(math, SquaredNorm(v));
    assert vec[0] * vec[0] + vec[1] * vec[1] + vec[2] * vec[2] == SquaredNorm(v);
    var len := math.sqrt(vec[0] * vec[0] + vec[1] * vec[1] + vec[2] * vec[2]);
    out[0] := vec[0] / len;
    out[1] := vec[1] / len;
    out[2] := vec[2] / len;
    assert out[..] == [v[0] / len, v[1] / len, v[2] / len];
  }

  // ---------------------------------------------------------------------------
  // Properties
  // ---------------------------------------------------------------------------

  /** The square root of a nonzero number is nonzero. */
  lemma SqrtNonZero(math: MathLib, x: real)
    requires SqrtAt(math, x) && x != 0.0
    ensures math.sqrt(x) != 0.0
  {
    if math.sqrt(x) == 0.0 {
      SquareOfZero(math.sqrt(x));
    }
  }

  lemma SquareOfProduct(q: real, l: real)
    ensures (q * q) * (l * l) == (q * l) * (q * l)
  {
  }

  lemma SquareOfEqual(x: real, y: real)
    requires x == y
    ensures x * x == y * y
  {
  }

  /** `s = 1` when `s d = d` for a nonzero `d`. */
  lemma CancelFactor(s: real, d: real)
    requires d != 0.0 && s * d == d
    ensures s == 1.0
  {
    assert (s - 1.0) * d == 0.0;
  }

  /** Three numbers whose multiples by `len` have squared norm `len^2` have squared norm 1. */
  lemma UnitOfScaled(w0: real, w1: real, w2: real, len: real, d: real)
    requires d != 0.0 && d == len * len
    requires (w0 * len) * (w0 * len) + (w1 * len) * (w1 * len) + (w2 * len) * (w2 * len) == d
    ensures w0 * w0 + w1 * w1 + w2 * w2 == 1.0
  {
    SquareOfProduct(w0, len);
    SquareOfProduct(w1, len);
    SquareOfProduct(w2, len);
    assert (w0 * w0 + w1 * w1 + w2 * w2) * d == d;
    CancelFactor(w0 * w0 + w1 * w1 + w2 * w2, d);
  }

  /** A nonzero vector normalizes to one of squared length 1. */
  lemma NormalizedUnit(v: seq<real>, math: MathLib)
    requires |v| == 3 && SqrtAt(math, SquaredNorm(v)) && SquaredNorm(v) != 0.0
    ensures math.sqrt(SquaredNorm(v)) != 0.0
    ensures SquaredNorm(Normalized(v, math)) == 1.0
  {
    SqrtNonZero(math, SquaredNorm(v));
    var len := math.sqrt(SquaredNorm(v));
    var u := Normalized(v, math);
    assert u[0] * len == v[0] && u[1] * len == v[1] && u[2] * len == v[2];
    SquareOfEqual(u[0] * len, v[0]);
    SquareOfEqual(u[1] * len, v[1]);
    SquareOfEqual(u[2] * len, v[2]);
    UnitOfScaled(u[0], u[1], u[2], len, SquaredNorm(v));
  }

  /** Normalizing keeps the direction: each entry times the length gives the input back. */
  lemma NormalizedScales(v: seq<real>, math: MathLib)
    requires |v| == 3 && math.sqrt(SquaredNorm(v)) != 0.0
    ensures forall i :: 0 <= i < 3 ==> Normalized(v, math)[i] * math.sqrt(SquaredNorm(v)) == v[i]
  {
  }
}
