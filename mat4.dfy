/**
 * `Mat4` (lib/linear/mat4.ts): 4x4 matrices as 16 numbers in column-major
 * order, entry `4 c + r` holding row `r` of column `c`. Every operation
 * writes into a destination array in place; the specifications are
 * functions on the input contents, so an operation whose destination is one
 * of its inputs is specified by the same function.
 */
module Mat4 {
  import opened Numerics

  /** `Mat4.zero()`: sixteen zeros. */
  const ZERO: seq<real> := [0.0, 0.0, 0.0, 0.0, 0.0, 0.0, 0.0, 0.0, 0.0, 0.0, 0.0, 0.0, 0.0, 0.0, 0.0, 0.0]

  /** `Mat4.identity()`: 1 at entries 0, 5, 10 and 15. */
  const IDENTITY: seq<real> := [1.0, 0.0, 0.0, 0.0, 0.0, 1.0, 0.0, 0.0, 0.0, 0.0, 1.0, 0.0, 0.0, 0.0, 0.0, 1.0]

  predicate IsMatrix(m: seq<real>) { |m| == 16 }

  /** `b0 x0 + b1 x1 + b2 x2 + b3 x3`, the sum each entry of `dot` computes. */
  function Sum4(b0: real, b1: real, b2: real, b3: real, x0: real, x1: real, x2: real, x3: real): real {
    b0 * x0 + b1 * x1 + b2 * x2 + b3 * x3
  }

  /** Row `r` of `a` times column `c` of `b`: `sum over k of a[4k + r] b[4c + k]`. */
  function Entry(a: seq<real>, b: seq<real>, c: int, r: int): real
    requires IsMatrix(a) && IsMatrix(b) && 0 <= c < 4 && 0 <= r < 4
  {
    Sum4(b[4 * c], b[4 * c + 1], b[4 * c + 2], b[4 * c + 3], a[r], a[4 + r], a[8 + r], a[12 + r])
  }

  /** The column-major product `a b`. */
  function Product(a: seq<real>, b: seq<real>): (p: seq<real>)
    requires IsMatrix(a) && IsMatrix(b)
    ensures IsMatrix(p)
  {
    [Entry(a, b, 0, 0), Entry(a, b, 0, 1), Entry(a, b, 0, 2), Entry(a, b, 0, 3),
     Entry(a, b, 1, 0), Entry(a, b, 1, 1), Entry(a, b, 1, 2), Entry(a, b, 1, 3),
     Entry(a, b, 2, 0), Entry(a, b, 2, 1), Entry(a, b, 2, 2), Entry(a, b, 2, 3),
     Entry(a, b, 3, 0), Entry(a, b, 3, 1), Entry(a, b, 3, 2), Entry(a, b, 3, 3)]
  }

  /**
   * The entries `ortho` writes, from the reciprocals `lr = 1 / (left - right)`,
   * `bt = 1 / (bottom - top)` and `nf = 1 / (near - far)` it computes first.
   */
  function OrthoEntries(lr: real, bt: real, nf: real, left: real, right: real, top: real, bottom: real,
                        near: real, far: real): (m: seq<real>)
    ensures IsMatrix(m)
  {
    [-2.0 * lr, 0.0, 0.0, 0.0,
     0.0, -2.0 * bt, 0.0, 0.0,
     0.0, 0.0, 2.0 * nf, 0.0,
     (left + right) * lr, (top + bottom) * bt, (far + near) * nf, 1.0]
  }

  /** `ortho`'s matrix for the six bounds of the box. */
  function OrthoMatrix(left: real, right: real, top: real, bottom: real, near: real, far: real): (m: seq<real>)
    requires left != right && bottom != top && near != far
    ensures IsMatrix(m)
  {
    OrthoEntries(1.0 / (left - right), 1.0 / (bottom - top), 1.0 / (near - far), left, right, top, bottom, near, far)
  }

  /** `scaling`'s matrix: the vector on the diagonal, 1 in the corner. */
  function ScalingMatrix(v: seq<real>): (m: seq<real>)
    requires |v| == 3
    ensures IsMatrix(m)
  {
    [v[0], 0.0, 0.0, 0.0,
     0.0, v[1], 0.0, 0.0,
     0.0, 0.0, v[2], 0.0,
     0.0, 0.0, 0.0, 1.0]
  }

  /** `translation`'s matrix: the identity with the vector in the last column. */
  function TranslationMatrix(v: seq<real>): (m: seq<real>)
    requires |v| == 3
    ensures IsMatrix(m)
  {
    [1.0, 0.0, 0.0, 0.0,
     0.0, 1.0, 0.0, 0.0,
     0.0, 0.0, 1.0, 0.0,
     v[0], v[1], v[2], 1.0]
  }

  /** `rotationZ`'s matrix as written, for `s = sin(rad)` and `c = cos(rad)`: entry 8 is 1 and entry 10 is 0. */
  function RotationZAsWritten(s: real, c: real): (m: seq<real>)
    ensures IsMatrix(m)
  {
    [c, s, 0.0, 0.0,
     -s, c, 0.0, 0.0,
     1.0, 0.0, 0.0, 0.0,
     0.0, 0.0, 0.0, 1.0]
  }

  /** The rotation about the z axis that `rotationZ` is evidently meant to build: the third column is that of the identity. */
  function RotationZMatrix(s: real, c: real): (m: seq<real>)
    ensures IsMatrix(m)
  {
    [c, s, 0.0, 0.0,
     -s, c, 0.0, 0.0,
     0.0, 0.0, 1.0, 0.0,
     0.0, 0.0, 0.0, 1.0]
  }

  /** `scale`: columns 0, 1 and 2 multiplied by the vector's entries, column 3 kept. */
  function Scaled(m: seq<real>, v: seq<real>): (r: seq<real>)
    requires IsMatrix(m) && |v| == 3
    ensures IsMatrix(r)
  {
    [m[0] * v[0], m[1] * v[0], m[2] * v[0], m[3] * v[0],
     m[4] * v[1], m[5] * v[1], m[6] * v[1], m[7] * v[1],
     m[8] * v[2], m[9] * v[2], m[10] * v[2], m[11] * v[2],
     m[12], m[13], m[14], m[15]]
  }

  /** Row `r` of the last column after `translate`: `m[r] x + m[4 + r] y + m[8 + r] z + m[12 + r]`. */
  function Moved(m: seq<real>, v: seq<real>, r: int): real
    requires IsMatrix(m) && |v| == 3 && 0 <= r < 4
  {
    m[r] * v[0] + m[4 + r] * v[1] + m[8 + r] * v[2] + m[12 + r]
  }

  /** `translate`: columns 0, 1 and 2 kept, the last column moved by the vector. */
  function Translated(m: seq<real>, v: seq<real>): (r: seq<real>)
    requires IsMatrix(m) && |v| == 3
    ensures IsMatrix(r)
  {
    m[..12] + [Moved(m, v, 0), Moved(m, v, 1), Moved(m, v, 2), Moved(m, v, 3)]
  }

  /** `a c + b s`, an entry of the first column `rotateZ` writes. */
  function Turn(a: real, b: real, c: real, s: real): real { a * c + b * s }

  /** `a c - b s`, an entry of the second column `rotateZ` writes. */
  function TurnBack(a: real, b: real, c: real, s: real): real { a * c - b * s }

  /** `rotateZ`: columns 0 and 1 rotated by the angle of sine `s` and cosine `c`, columns 2 and 3 kept. */
  function RotatedZ(m: seq<real>, s: real, c: real): (r: seq<real>)
    requires IsMatrix(m)
    ensures IsMatrix(r)
  {
    [Turn(m[0], m[4], c, s), Turn(m[1], m[5], c, s), Turn(m[2], m[6], c, s), Turn(m[3], m[7], c, s),
     TurnBack(m[4], m[0], c, s), TurnBack(m[5], m[1], c, s), TurnBack(m[6], m[2], c, s), TurnBack(m[7], m[3], c, s),
     m[8], m[9], m[10], m[11], m[12], m[13], m[14], m[15]]
  }

  /** Entry `i` of `Scaled(m, v)`: column `i / 4` scaled by `v[i / 4]` if it is one of the first three. */
  function ScaledEntry(m: seq<real>, v: seq<real>, i: int): real
    requires IsMatrix(m) && |v| == 3 && 0 <= i < 16
  {
    if i < 12 then m[i] * v[i / 4] else m[i]
  }

  // ---------------------------------------------------------------------------
  // The in-place operations
  // ---------------------------------------------------------------------------

  method Zero() returns (out: array<real>)
    ensures fresh(out) && out[..] == ZERO
  {
    out := new real[16](_ => 0.0);
    assert out[..] == ZERO;
  }

  method Identity() returns (out: array<real>)
    ensures fresh(out) && out[..] == IDENTITY
  {
    out := new real[16](_ => 0.0);
    out[0] := 1.0;
    out[5] := 1.0;
    out[10] := 1.0;
    out[15] := 1.0;
    assert out[..] == IDENTITY;
  }

  /**
   * `dot`: `out := a b`. All of `a` is read first, and each column of `b`
   * just before the same column of `out` is written, so `out` may be `a` or `b`.
   */
  method Dot(out: array<real>, a: array<real>, b: array<real>)
    requires out.Length == 16 && a.Length == 16 && b.Length == 16
    modifies out
    ensures out[..] == Product(old(a[..]), old(b[..]))
  {
    var A := a[..];
    ghost var B := b[..];
    DotColumn(out, A, b, B, 0);
    DotColumn(out, A, b, B, 1);
    DotColumn(out, A, b, B, 2);
    DotColumn(out, A, b, B, 3);
    FromEntries(out[..], A, B);
  }

  /**
   * One of the four blocks of `dot`: reads column `c` of `b`, then writes
   * column `c` of `out` from the saved entries `A` of the first operand.
   */
  method DotColumn(out: array<real>, A: seq<real>, b: array<real>, ghost B: seq<real>, c: int)
    requires out.Length == 16 && b.Length == 16 && IsMatrix(A) && IsMatrix(B) && 0 <= c < 4
    requires forall i :: 0 <= i < 16 && 4 * c <= i ==> b[i] == B[i]
    requires forall d, r :: 0 <= d < c && 0 <= r < 4 ==> out[4 * d + r] == Entry(A, B, d, r)
    modifies out
    ensures forall i :: 0 <= i < 16 && 4 * c + 4 <= i ==> out[i] == old(out[i])
    ensures forall d, r :: 0 <= d <= c && 0 <= r < 4 ==> out[4 * d + r] == Entry(A, B, d, r)
  {
    var b0, b1, b2, b3 := b[4 * c], b[4 * c + 1], b[4 * c + 2], b[4 * c + 3];
    out[4 * c] := Sum4(b0, b1, b2, b3, A[0], A[4], A[8], A[12]);
    out[4 * c + 1] := Sum4(b0, b1, b2, b3, A[1], A[5], A[9], A[13]);
    out[4 * c + 2] := Sum4(b0, b1, b2, b3, A[2], A[6], A[10], A[14]);
    out[4 * c + 3] := Sum4(b0, b1, b2, b3, A[3], A[7], A[11], A[15]);
    forall d, r | 0 <= d <= c && 0 <= r < 4
      ensures out[4 * d + r] == Entry(A, B, d, r)
    {
      if d == c {
        if r == 0 {
          assert out[4 * c] == Entry(A, B, c, 0);
        } else if r == 1 {
          assert out[4 * c + 1] == Entry(A, B, c, 1);
        } else if r == 2 {
          assert out[4 * c + 2] == Entry(A, B, c, 2);
        } else {
          assert out[4 * c + 3] == Entry(A, B, c, 3);
        }
      }
    }
  }

  /** Two matrices that agree entry by entry are equal. */
  lemma Equal16(a: seq<real>, b: seq<real>)
    requires IsMatrix(a) && IsMatrix(b)
    requires a[0] == b[0]
    requires a[1] == b[1]
    requires a[2] == b[2]
    requires a[3] == b[3]
    requires a[4] == b[4]
    requires a[5] == b[5]
    requires a[6] == b[6]
    requires a[7] == b[7]
    requires a[8] == b[8]
    requires a[9] == b[9]
    requires a[10] == b[10]
    requires a[11] == b[11]
    requires a[12] == b[12]
    requires a[13] == b[13]
    requires a[14] == b[14]
    requires a[15] == b[15]
    ensures a == b
  {
  }

  /**
   * Writes `vals` into `out` from entry `from` on, one entry after the
   * other, leaving the entries before and after as they were.
   */
  method AssignAt(out: array<real>, from: nat, vals: seq<real>)
    requires from + |vals| <= out.Length
    modifies out
    ensures out[..] == old(out[..])[..from] + vals + old(out[..])[from + |vals|..]
    ensures from == 0 && |vals| == out.Length ==> out[..] == vals
  {
    ghost var before := out[..];
    for k := 0 to |vals|
      invariant forall j :: 0 <= j < out.Length ==>
        out[j] == if from <= j < from + k then vals[j - from] else before[j]
    {
      out[from + k] := vals[k];
    }
    assert out[..] == before[..from] + vals + before[from + |vals|..];
  }

  /** `ortho`: writes the orthogonal projection of the box into `out`. */
  method Ortho(out: array<real>, left: real, right: real, top: real, bottom: real, near: real, far: real)
    requires out.Length == 16 && left != right && bottom != top && near != far
    modifies out
    ensures out[..] == OrthoMatrix(left, right, top, bottom, near, far)
  {
    var lr := 1.0 / (left - right);
    var bt := 1.0 / (bottom - top);
    var nf := 1.0 / (near - far);
    AssignAt(out, 0, OrthoEntries(lr, bt, nf, left, right, top, bottom, near, far));
  }

  /** `scaling`: writes the scaling matrix of `vec` into `out`. */
  method Scaling(out: array<real>, vec: array<real>)
    requires out.Length == 16 && vec.Length == 3
    modifies out
    ensures out[..] == ScalingMatrix(old(vec[..]))
  {
    AssignAt(out, 0, [vec[0], 0.0, 0.0, 0.0,
                      0.0, vec[1], 0.0, 0.0,
                      0.0, 0.0, vec[2], 0.0,
                      0.0, 0.0, 0.0, 1.0]);
  }

  /** `translation`: writes the translation matrix of `vec` into `out`. */
  method Translation(out: array<real>, vec: array<real>)
    requires out.Length == 16 && vec.Length == 3
    modifies out
    ensures out[..] == TranslationMatrix(old(vec[..]))
  {
    AssignAt(out, 0, [1.0, 0.0, 0.0, 0.0,
                      0.0, 1.0, 0.0, 0.0,
                      0.0, 0.0, 1.0, 0.0,
                      vec[0], vec[1], vec[2], 1.0]);
  }

  /** `rotationZ`, as written: entries 8 and 10 are 1 and 0. */
  method RotationZ(out: array<real>, rad: real, math: MathLib)
    requires out.Length == 16
    modifies out
    ensures out[..] == RotationZAsWritten(math.sin(rad), math.cos(rad))
  {
    var s := math.sin(rad);
    var c := math.cos(rad);
    AssignAt(out, 0, [c, s, 0.0, 0.0,
                      -s, c, 0.0, 0.0,
                      1.0, 0.0, 0.0, 0.0,
                      0.0, 0.0, 0.0, 1.0]);
  }

  /**
   * `scale`: each entry of `out` is computed from the same entry of `mat`
   * only, so `out` may be `mat`. The first three blocks are `ScaleColumn`.
   */
  method Scale(out: array<real>, mat: array<real>, vec: array<real>)
    requires out.Length == 16 && mat.Length == 16 && vec.Length == 3
    modifies out
    ensures out[..] == Scaled(old(mat[..]), old(vec[..]))
  {
    ghost var M, V := mat[..], vec[..];
    var x, y, z := vec[0], vec[1], vec[2];
    ScaleColumn(out, mat, M, V, 0, x);
    ScaleColumn(out, mat, M, V, 1, y);
    ScaleColumn(out, mat, M, V, 2, z);
    out[12] := mat[12];
    out[13] := mat[13];
    out[14] := mat[14];
    out[15] := mat[15];
    FromScaledEntries(out[..], M, V);
  }

  /** One block of `scale`: column `c` of `mat` times `f`, the vector's entry `c`. */
  method ScaleColumn(out: array<real>, mat: array<real>, ghost M: seq<real>, ghost V: seq<real>, c: int, f: real)
    requires out.Length == 16 && mat.Length == 16 && IsMatrix(M) && |V| == 3 && 0 <= c < 3 && f == V[c]
    requires forall i :: 4 * c <= i < 16 ==> mat[i] == M[i]
    requires forall i :: 0 <= i < 4 * c ==> out[i] == ScaledEntry(M, V, i)
    modifies out
    ensures forall i :: 4 * c + 4 <= i < 16 ==> out[i] == old(out[i])
    ensures forall i :: 0 <= i < 4 * c + 4 ==> out[i] == ScaledEntry(M, V, i)
  {
    var column := [mat[4 * c] * f, mat[4 * c + 1] * f, mat[4 * c + 2] * f, mat[4 * c + 3] * f];
    assert forall j :: 0 <= j < 4 ==> column[j] == ScaledEntry(M, V, 4 * c + j);
    AssignAt(out, 4 * c, column);
  }

  /**
   * `translate`: when `out` is `mat` only the last column is written;
   * otherwise the first three columns are copied first. Both branches give
   * the same matrix.
   */
  method Translate(out: array<real>, mat: array<real>, vec: array<real>)
    requires out.Length == 16 && mat.Length == 16 && vec.Length == 3
    modifies out
    ensures out[..] == Translated(old(mat[..]), old(vec[..]))
  {
    ghost var M, V := mat[..], vec[..];
    var x, y, z := vec[0], vec[1], vec[2];
    ghost var last := [Moved(M, V, 0), Moved(M, V, 1), Moved(M, V, 2), Moved(M, V, 3)];
    if mat == out {
      var moved := [mat[0] * x + mat[4] * y + mat[8] * z + mat[12],
                    mat[1] * x + mat[5] * y + mat[9] * z + mat[13],
                    mat[2] * x + mat[6] * y + mat[10] * z + mat[14],
                    mat[3] * x + mat[7] * y + mat[11] * z + mat[15]];
      assert moved[0] == last[0] && moved[1] == last[1] && moved[2] == last[2] && moved[3] == last[3];
      AssignAt(out, 12, moved);
      assert out[..] == M[..12] + last + M[16..];
    } else {
      AssignAt(out, 0, mat[..12]);
      ghost var copied := out[..];
      assert copied[..12] == M[..12];
      var moved := [mat[0] * x + mat[4] * y + mat[8] * z + mat[12],
                    mat[1] * x + mat[5] * y + mat[9] * z + mat[13],
                    mat[2] * x + mat[6] * y + mat[10] * z + mat[14],
                    mat[3] * x + mat[7] * y + mat[11] * z + mat[15]];
      assert moved[0] == last[0] && moved[1] == last[1] && moved[2] == last[2] && moved[3] == last[3];
      AssignAt(out, 12, moved);
      assert out[..] == M[..12] + last + copied[16..];
    }
  }

  /**
   * `rotateZ`: the first two columns of `mat` are saved, the last two are
   * copied when `out` is not `mat`, then the first two are rotated.
   */
  method RotateZ(out: array<real>, mat: array<real>, rad: real, math: MathLib)
    requires out.Length == 16 && mat.Length == 16
    modifies out
    ensures out[..] == RotatedZ(old(mat[..]), math.sin(rad), math.cos(rad))
  {
    var s := math.sin(rad);
    var c := math.cos(rad);
    ghost var M := mat[..];
    var a00, a01, a02, a03 := mat[0], mat[1], mat[2], mat[3];
    var a10, a11, a12, a13 := mat[4], mat[5], mat[6], mat[7];
    KeepLastColumns(out, mat);
    AssignAt(out, 0, [Turn(a00, a10, c, s), Turn(a01, a11, c, s), Turn(a02, a12, c, s), Turn(a03, a13, c, s),
                      TurnBack(a10, a00, c, s), TurnBack(a11, a01, c, s), TurnBack(a12, a02, c, s), TurnBack(a13, a03, c, s)]);
    FromRotatedHalves(out[..], M, s, c);
  }

  /** The guarded copy of `rotateZ`: entries 8 to 15 of `mat` into `out`, unless `out` is `mat`. */
  method KeepLastColumns(out: array<real>, mat: array<real>)
    requires out.Length == 16 && mat.Length == 16
    modifies out
    ensures out[..] == old(out[..])[..8] + old(mat[..])[8..]
  {
    if mat != out {
      AssignAt(out, 8, mat[8..]);
    } else {
      assert out[..] == out[..][..8] + out[..][8..];
    }
  }

  /** The rotated first half and the second half of `m` make `RotatedZ(m, s, c)`. */
  lemma FromRotatedHalves(t: seq<real>, m: seq<real>, s: real, c: real)
    requires IsMatrix(t) && IsMatrix(m)
    requires t[..8] == [Turn(m[0], m[4], c, s), Turn(m[1], m[5], c, s), Turn(m[2], m[6], c, s), Turn(m[3], m[7], c, s),
                        TurnBack(m[4], m[0], c, s), TurnBack(m[5], m[1], c, s), TurnBack(m[6], m[2], c, s), TurnBack(m[7], m[3], c, s)]
    requires t[8..] == m[8..]
    ensures t == RotatedZ(m, s, c)
  {
    assert t == t[..8] + t[8..];
  }

  lemma FromScaledEntries(t: seq<real>, m: seq<real>, v: seq<real>)
    requires IsMatrix(t) && IsMatrix(m) && |v| == 3
    requires forall i :: 0 <= i < 16 ==> t[i] == ScaledEntry(m, v, i)
    ensures t == Scaled(m, v)
  {
    Equal16(t, Scaled(m, v));
  }

  /** Sixteen entries, each the product entry at its place, are the product. */
  lemma FromEntries(s: seq<real>, A: seq<real>, B: seq<real>)
    requires IsMatrix(s) && IsMatrix(A) && IsMatrix(B)
    requires forall d, r :: 0 <= d < 4 && 0 <= r < 4 ==> s[4 * d + r] == Entry(A, B, d, r)
    ensures s == Product(A, B)
  {
  }

  // ---------------------------------------------------------------------------
  // Properties
  // ---------------------------------------------------------------------------

  /** The product from its sixteen entries, listed one by one. */
  lemma FromList(s: seq<real>, A: seq<real>, B: seq<real>)
    requires IsMatrix(s) && IsMatrix(A) && IsMatrix(B)
    requires s[0] == Entry(A, B, 0, 0)
    requires s[1] == Entry(A, B, 0, 1)
    requires s[2] == Entry(A, B, 0, 2)
    requires s[3] == Entry(A, B, 0, 3)
    requires s[4] == Entry(A, B, 1, 0)
    requires s[5] == Entry(A, B, 1, 1)
    requires s[6] == Entry(A, B, 1, 2)
    requires s[7] == Entry(A, B, 1, 3)
    requires s[8] == Entry(A, B, 2, 0)
    requires s[9] == Entry(A, B, 2, 1)
    requires s[10] == Entry(A, B, 2, 2)
    requires s[11] == Entry(A, B, 2, 3)
    requires s[12] == Entry(A, B, 3, 0)
    requires s[13] == Entry(A, B, 3, 1)
    requires s[14] == Entry(A, B, 3, 2)
    requires s[15] == Entry(A, B, 3, 3)
    ensures s == Product(A, B)
  {
  }

  /** A sum against a unit vector picks one term. */
  lemma Sum4Pick0(b0: real, b1: real, b2: real, b3: real)
    ensures Sum4(b0, b1, b2, b3, 1.0, 0.0, 0.0, 0.0) == b0
    ensures Sum4(1.0, 0.0, 0.0, 0.0, b0, b1, b2, b3) == b0
  {
  }

  lemma Sum4Pick1(b0: real, b1: real, b2: real, b3: real)
    ensures Sum4(b0, b1, b2, b3, 0.0, 1.0, 0.0, 0.0) == b1
    ensures Sum4(0.0, 1.0, 0.0, 0.0, b0, b1, b2, b3) == b1
  {
  }

  lemma Sum4Pick2(b0: real, b1: real, b2: real, b3: real)
    ensures Sum4(b0, b1, b2, b3, 0.0, 0.0, 1.0, 0.0) == b2
    ensures Sum4(0.0, 0.0, 1.0, 0.0, b0, b1, b2, b3) == b2
  {
  }

  lemma Sum4Pick3(b0: real, b1: real, b2: real, b3: real)
    ensures Sum4(b0, b1, b2, b3, 0.0, 0.0, 0.0, 1.0) == b3
    ensures Sum4(0.0, 0.0, 0.0, 1.0, b0, b1, b2, b3) == b3
  {
  }

  /** A sum against the zero vector vanishes. */
  lemma Sum4Zero(b0: real, b1: real, b2: real, b3: real)
    ensures Sum4(b0, b1, b2, b3, 0.0, 0.0, 0.0, 0.0) == 0.0
    ensures Sum4(0.0, 0.0, 0.0, 0.0, b0, b1, b2, b3) == 0.0
  {
  }

  /** The identity is a unit of the product on both sides. */
  lemma ProductIdentity(m: seq<real>)
    requires IsMatrix(m)
    ensures Product(IDENTITY, m) == m
    ensures Product(m, IDENTITY) == m
  {
    Sum4Pick0(m[0], m[1], m[2], m[3]);
    Sum4Pick1(m[0], m[1], m[2], m[3]);
    Sum4Pick2(m[0], m[1], m[2], m[3]);
    Sum4Pick3(m[0], m[1], m[2], m[3]);
    Sum4Pick0(m[4], m[5], m[6], m[7]);
    Sum4Pick1(m[4], m[5], m[6], m[7]);
    Sum4Pick2(m[4], m[5], m[6], m[7]);
    Sum4Pick3(m[4], m[5], m[6], m[7]);
    Sum4Pick0(m[8], m[9], m[10], m[11]);
    Sum4Pick1(m[8], m[9], m[10], m[11]);
    Sum4Pick2(m[8], m[9], m[10], m[11]);
    Sum4Pick3(m[8], m[9], m[10], m[11]);
    Sum4Pick0(m[12], m[13], m[14], m[15]);
    Sum4Pick1(m[12], m[13], m[14], m[15]);
    Sum4Pick2(m[12], m[13], m[14], m[15]);
    Sum4Pick3(m[12], m[13], m[14], m[15]);
    FromList(m, IDENTITY, m);
    Sum4Pick0(m[0], m[4], m[8], m[12]);
    Sum4Pick0(m[1], m[5], m[9], m[13]);
    Sum4Pick0(m[2], m[6], m[10], m[14]);
    Sum4Pick0(m[3], m[7], m[11], m[15]);
    Sum4Pick1(m[0], m[4], m[8], m[12]);
    Sum4Pick1(m[1], m[5], m[9], m[13]);
    Sum4Pick1(m[2], m[6], m[10], m[14]);
    Sum4Pick1(m[3], m[7], m[11], m[15]);
    Sum4Pick2(m[0], m[4], m[8], m[12]);
    Sum4Pick2(m[1], m[5], m[9], m[13]);
    Sum4Pick2(m[2], m[6], m[10], m[14]);
    Sum4Pick2(m[3], m[7], m[11], m[15]);
    Sum4Pick3(m[0], m[4], m[8], m[12]);
    Sum4Pick3(m[1], m[5], m[9], m[13]);
    Sum4Pick3(m[2], m[6], m[10], m[14]);
    Sum4Pick3(m[3], m[7], m[11], m[15]);
    FromList(m, m, IDENTITY);
  }

  /** The zero matrix absorbs the product on both sides. */
  lemma ProductZero(m: seq<real>)
    requires IsMatrix(m)
    ensures Product(ZERO, m) == ZERO
    ensures Product(m, ZERO) == ZERO
  {
    Sum4Zero(m[0], m[1], m[2], m[3]);
    Sum4Zero(m[4], m[5], m[6], m[7]);
    Sum4Zero(m[8], m[9], m[10], m[11]);
    Sum4Zero(m[12], m[13], m[14], m[15]);
    FromList(ZERO, ZERO, m);
    Sum4Zero(m[0], m[4], m[8], m[12]);
    Sum4Zero(m[1], m[5], m[9], m[13]);
    Sum4Zero(m[2], m[6], m[10], m[14]);
    Sum4Zero(m[3], m[7], m[11], m[15]);
    FromList(ZERO, m, ZERO);
  }

  /** A column `(v, 0, 0, 0)`, `(0, v, 0, 0)` or `(0, 0, v, 0)` scales one column of the left operand. */
  lemma Sum4Scale(v: real, x0: real, x1: real, x2: real, x3: real)
    ensures Sum4(v, 0.0, 0.0, 0.0, x0, x1, x2, x3) == x0 * v
    ensures Sum4(0.0, v, 0.0, 0.0, x0, x1, x2, x3) == x1 * v
    ensures Sum4(0.0, 0.0, v, 0.0, x0, x1, x2, x3) == x2 * v
  {
  }

  /** `scale(out, m, v)` is `m` times the scaling matrix of `v`. */
  lemma ScaledIsProduct(m: seq<real>, v: seq<real>)
    requires IsMatrix(m) && |v| == 3
    ensures Scaled(m, v) == Product(m, ScalingMatrix(v))
  {
    Sum4Scale(v[0], m[0], m[4], m[8], m[12]);
    Sum4Scale(v[1], m[0], m[4], m[8], m[12]);
    Sum4Scale(v[2], m[0], m[4], m[8], m[12]);
    Sum4Pick3(m[0], m[4], m[8], m[12]);
    Sum4Scale(v[0], m[1], m[5], m[9], m[13]);
    Sum4Scale(v[1], m[1], m[5], m[9], m[13]);
    Sum4Scale(v[2], m[1], m[5], m[9], m[13]);
    Sum4Pick3(m[1], m[5], m[9], m[13]);
    Sum4Scale(v[0], m[2], m[6], m[10], m[14]);
    Sum4Scale(v[1], m[2], m[6], m[10], m[14]);
    Sum4Scale(v[2], m[2], m[6], m[10], m[14]);
    Sum4Pick3(m[2], m[6], m[10], m[14]);
    Sum4Scale(v[0], m[3], m[7], m[11], m[15]);
    Sum4Scale(v[1], m[3], m[7], m[11], m[15]);
    Sum4Scale(v[2], m[3], m[7], m[11], m[15]);
    Sum4Pick3(m[3], m[7], m[11], m[15]);
    FromList(Scaled(m, v), m, ScalingMatrix(v));
  }

  /** A column `(x, y, z, 1)` moves the last column of the left operand. */
  lemma Sum4Move(v0: real, v1: real, v2: real, x0: real, x1: real, x2: real, x3: real)
    ensures Sum4(v0, v1, v2, 1.0, x0, x1, x2, x3) == x0 * v0 + x1 * v1 + x2 * v2 + x3
  {
  }

  /** `translate(out, m, v)` is `m` times the translation matrix of `v`. */
  lemma TranslatedIsProduct(m: seq<real>, v: seq<real>)
    requires IsMatrix(m) && |v| == 3
    ensures Translated(m, v) == Product(m, TranslationMatrix(v))
  {
    Sum4Pick0(m[0], m[4], m[8], m[12]);
    Sum4Pick1(m[0], m[4], m[8], m[12]);
    Sum4Pick2(m[0], m[4], m[8], m[12]);
    Sum4Move(v[0], v[1], v[2], m[0], m[4], m[8], m[12]);
    Sum4Pick0(m[1], m[5], m[9], m[13]);
    Sum4Pick1(m[1], m[5], m[9], m[13]);
    Sum4Pick2(m[1], m[5], m[9], m[13]);
    Sum4Move(v[0], v[1], v[2], m[1], m[5], m[9], m[13]);
    Sum4Pick0(m[2], m[6], m[10], m[14]);
    Sum4Pick1(m[2], m[6], m[10], m[14]);
    Sum4Pick2(m[2], m[6], m[10], m[14]);
    Sum4Move(v[0], v[1], v[2], m[2], m[6], m[10], m[14]);
    Sum4Pick0(m[3], m[7], m[11], m[15]);
    Sum4Pick1(m[3], m[7], m[11], m[15]);
    Sum4Pick2(m[3], m[7], m[11], m[15]);
    Sum4Move(v[0], v[1], v[2], m[3], m[7], m[11], m[15]);
    FromList(Translated(m, v), m, TranslationMatrix(v));
  }

  /** The columns `(c, s, 0, 0)` and `(-s, c, 0, 0)` rotate two columns of the left operand. */
  lemma Sum4Rotate(s: real, c: real, x0: real, x1: real, x2: real, x3: real)
    ensures Sum4(c, s, 0.0, 0.0, x0, x1, x2, x3) == x0 * c + x1 * s
    ensures Sum4(-s, c, 0.0, 0.0, x0, x1, x2, x3) == x1 * c - x0 * s
  {
  }

  /** `rotateZ(out, m, rad)` is `m` times the rotation about z. */
  lemma RotatedZIsProduct(m: seq<real>, s: real, c: real)
    requires IsMatrix(m)
    ensures RotatedZ(m, s, c) == Product(m, RotationZMatrix(s, c))
  {
    Sum4Rotate(s, c, m[0], m[4], m[8], m[12]);
    Sum4Pick2(m[0], m[4], m[8], m[12]);
    Sum4Pick3(m[0], m[4], m[8], m[12]);
    Sum4Rotate(s, c, m[1], m[5], m[9], m[13]);
    Sum4Pick2(m[1], m[5], m[9], m[13]);
    Sum4Pick3(m[1], m[5], m[9], m[13]);
    Sum4Rotate(s, c, m[2], m[6], m[10], m[14]);
    Sum4Pick2(m[2], m[6], m[10], m[14]);
    Sum4Pick3(m[2], m[6], m[10], m[14]);
    Sum4Rotate(s, c, m[3], m[7], m[11], m[15]);
    Sum4Pick2(m[3], m[7], m[11], m[15]);
    Sum4Pick3(m[3], m[7], m[11], m[15]);
    FromList(RotatedZ(m, s, c), m, RotationZMatrix(s, c));
  }

  /** `scaling(v)` is `scale(identity, v)`. */
  lemma ScalingIsScaledIdentity(v: seq<real>)
    requires |v| == 3
    ensures ScalingMatrix(v) == Scaled(IDENTITY, v)
  {
  }

  /** `translation(v)` is `translate(identity, v)`. */
  lemma TranslationIsTranslatedIdentity(v: seq<real>)
    requires |v| == 3
    ensures TranslationMatrix(v) == Translated(IDENTITY, v)
  {
  }

  /** `scale` leaves the last column as it was, and changes nothing when the vector is `(1, 1, 1)`. */
  lemma ScaledKeepsLastColumn(m: seq<real>, v: seq<real>)
    requires IsMatrix(m) && |v| == 3
    ensures Scaled(m, v)[12..] == m[12..]
    ensures v == [1.0, 1.0, 1.0] ==> Scaled(m, v) == m
  {
  }

  /** `translate` by the zero vector changes nothing. */
  lemma TranslatedByZero(m: seq<real>)
    requires IsMatrix(m)
    ensures Translated(m, [0.0, 0.0, 0.0]) == m
  {
  }

  /** `rotateZ` leaves the last two columns as they were. */
  lemma RotatedZKeepsLastColumns(m: seq<real>, s: real, c: real)
    requires IsMatrix(m)
    ensures RotatedZ(m, s, c)[8..] == m[8..]
  {
  }

  /** The corrected rotation is `rotateZ(identity, rad)`. */
  lemma RotationZIsRotatedIdentity(s: real, c: real)
    ensures RotationZMatrix(s, c) == RotatedZ(IDENTITY, s, c)
  {
  }

  /** `m` applied to the homogeneous point `p`: row `r` of `m` times `p`. */
  function Transform(m: seq<real>, p: seq<real>): (q: seq<real>)
    requires IsMatrix(m) && |p| == 4
    ensures |q| == 4
  {
    [Sum4(p[0], p[1], p[2], p[3], m[0], m[4], m[8], m[12]),
     Sum4(p[0], p[1], p[2], p[3], m[1], m[5], m[9], m[13]),
     Sum4(p[0], p[1], p[2], p[3], m[2], m[6], m[10], m[14]),
     Sum4(p[0], p[1], p[2], p[3], m[3], m[7], m[11], m[15])]
  }

  /**
   * `rotationZ` as written differs from `rotateZ(identity, rad)` for every
   * angle: entries 8 and 10 are swapped, so the point `(0, 0, 1)` goes to
   * `(1, 0, 0)` instead of staying put.
   */
  lemma RotationZAsWrittenDiffers(s: real, c: real)
    ensures RotationZAsWritten(s, c) != RotatedZ(IDENTITY, s, c)
    ensures RotationZAsWritten(s, c)[8] == 1.0 && RotatedZ(IDENTITY, s, c)[8] == 0.0
    ensures RotationZAsWritten(s, c)[10] == 0.0 && RotatedZ(IDENTITY, s, c)[10] == 1.0
    ensures Transform(RotationZAsWritten(s, c), [0.0, 0.0, 1.0, 1.0]) == [1.0, 0.0, 0.0, 1.0]
  {
    Sum4Pick2(1.0, 0.0, 0.0, 0.0);
  }

  /** The corrected rotation keeps the z coordinate of every point. */
  lemma RotationZKeepsZ(s: real, c: real, p: seq<real>)
    requires |p| == 4
    ensures Transform(RotationZMatrix(s, c), p)[2] == p[2]
    ensures Transform(RotationZMatrix(s, c), p)[3] == p[3]
  {
    Sum4Pick2(p[0], p[1], p[2], p[3]);
    Sum4Pick3(p[0], p[1], p[2], p[3]);
  }

  /** One axis of `ortho`: with `k (lo - hi) = 1`, `lo` goes to -1 and `hi` to 1. */
  lemma OrthoAxis(lo: real, hi: real, k: real, sum: real)
    requires k * (lo - hi) == 1.0 && sum == lo + hi
    ensures lo * (-2.0 * k) + sum * k == -1.0
    ensures hi * (-2.0 * k) + sum * k == 1.0
    ensures -lo * (2.0 * k) + sum * k == -1.0
    ensures -hi * (2.0 * k) + sum * k == 1.0
  {
    assert lo * (-2.0 * k) + sum * k == -(k * (lo - hi));
    assert hi * (-2.0 * k) + sum * k == k * (lo - hi);
  }

  /** A row `(a, 0, 0, b)`, `(0, a, 0, b)` or `(0, 0, a, b)` against a point with last coordinate 1. */
  lemma Sum4Axis(p0: real, p1: real, p2: real, a: real, b: real)
    ensures Sum4(p0, p1, p2, 1.0, a, 0.0, 0.0, b) == p0 * a + b
    ensures Sum4(p0, p1, p2, 1.0, 0.0, a, 0.0, b) == p1 * a + b
    ensures Sum4(p0, p1, p2, 1.0, 0.0, 0.0, a, b) == p2 * a + b
    ensures Sum4(p0, p1, p2, 1.0, 0.0, 0.0, 0.0, 1.0) == 1.0
  {
  }

  /** `ortho` applied to a point `(x, y, z)`, one coordinate at a time. */
  lemma OrthoPoint(left: real, right: real, top: real, bottom: real, near: real, far: real, x: real, y: real, z: real)
    requires left != right && bottom != top && near != far
    ensures var q := Transform(OrthoMatrix(left, right, top, bottom, near, far), [x, y, z, 1.0]);
      var lr, bt, nf := 1.0 / (left - right), 1.0 / (bottom - top), 1.0 / (near - far);
      q[0] == x * (-2.0 * lr) + (left + right) * lr &&
      q[1] == y * (-2.0 * bt) + (top + bottom) * bt &&
      q[2] == z * (2.0 * nf) + (far + near) * nf &&
      q[3] == 1.0
  {
    var lr := 1.0 / (left - right);
    var bt := 1.0 / (bottom - top);
    var nf := 1.0 / (near - far);
    Sum4Axis(x, y, z, -2.0 * lr, (left + right) * lr);
    Sum4Axis(x, y, z, -2.0 * bt, (top + bottom) * bt);
    Sum4Axis(x, y, z, 2.0 * nf, (far + near) * nf);
  }

  /**
   * `ortho` maps the box onto the cube `[-1, 1]^3`: the corner
   * `(left, bottom, -near)` goes to `(-1, -1, -1)` and the corner
   * `(right, top, -far)` to `(1, 1, 1)`.
   */
  lemma OrthoMapsBox(left: real, right: real, top: real, bottom: real, near: real, far: real)
    requires left != right && bottom != top && near != far
    ensures Transform(OrthoMatrix(left, right, top, bottom, near, far), [left, bottom, -near, 1.0]) == [-1.0, -1.0, -1.0, 1.0]
    ensures Transform(OrthoMatrix(left, right, top, bottom, near, far), [right, top, -far, 1.0]) == [1.0, 1.0, 1.0, 1.0]
  {
    var lr := 1.0 / (left - right);
    var bt := 1.0 / (bottom - top);
    var nf := 1.0 / (near - far);
    OrthoPoint(left, right, top, bottom, near, far, left, bottom, -near);
    OrthoPoint(left, right, top, bottom, near, far, right, top, -far);
    OrthoAxis(left, right, lr, left + right);
    OrthoAxis(bottom, top, bt, top + bottom);
    OrthoAxis(near, far, nf, far + near);
    var m := OrthoMatrix(left, right, top, bottom, near, far);
    var q := Transform(m, [left, bottom, -near, 1.0]);
    assert q[0] == -1.0 && q[1] == -1.0 && q[2] == -1.0 && q[3] == 1.0;
    assert q == [-1.0, -1.0, -1.0, 1.0];
    var u := Transform(m, [right, top, -far, 1.0]);
    assert u[0] == 1.0 && u[1] == 1.0 && u[2] == 1.0 && u[3] == 1.0;
    assert u == [1.0, 1.0, 1.0, 1.0];
  }
}
