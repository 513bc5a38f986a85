/**
 * `GLSLGrid` (lib/glsl/model/grid.ts): three families of lines across the
 * cube [-1, 1]^3, regenerated whenever the size is set. The loop step is
 * `trunc(size) / 128`, so every coordinate is a multiple of 1/128; the model
 * keeps coordinates multiplied by 128, as integers in [-128, 128], and
 * uploads them as fractions over 128.
 */
module Grid {
  import opened Wrappers
  import opened Numerics
  import opened WebGL
  import opened GlslObject

  /** Coordinates are stored multiplied by this scale. */
  const SCALE: int := 128

  /** The constructor's initial size. */
  const INITIAL_SIZE: real := 64.0

  const VAO_ERROR: string := "could not create the VAO:\nunknown error"
  const VBO_ERROR: string := "could not create the VBO:\nunknown error"

  /** The three line families, lines along x, y and z. */
  datatype Family = X | Y | Z

  // ---------------------------------------------------------------------------
  // The generated geometry, as functions of the integer step
  // ---------------------------------------------------------------------------

  /** The loop values `v, v + k, …` up to 128. */
  function ValuesFrom(v: int, k: int): seq<int>
    requires k > 0
    decreases 129 - v
  {
    if v > SCALE then [] else [v] + ValuesFrom(v + k, k)
  }

  /** The values of the loop counters for step `k / 128`: none unless `k > 0`. */
  function Values(k: int): seq<int> {
    if k > 0 then ValuesFrom(-SCALE, k) else []
  }

  /** One segment from -1 to 1 along the family's axis, at the other two coordinates `i` and `j`. */
  function Segment(f: Family, i: int, j: int): seq<int> {
    match f
    case X => [-SCALE, i, j, SCALE, i, j]
    case Y => [i, -SCALE, j, i, SCALE, j]
    case Z => [i, j, -SCALE, i, j, SCALE]
  }

  /** The inner loop for one `i`: a segment per `j` in `js`, in order. */
  function Inner(f: Family, i: int, js: seq<int>): seq<int>
    decreases |js|
  {
    if |js| == 0 then [] else Segment(f, i, js[0]) + Inner(f, i, js[1..])
  }

  /** Both loops: for each `i` in `rows`, the inner loop over `vs`. */
  function Outer(f: Family, rows: seq<int>, vs: seq<int>): seq<int>
    decreases |rows|
  {
    if |rows| == 0 then [] else Inner(f, rows[0], vs) + Outer(f, rows[1..], vs)
  }

  /** One family of the grid of step `k / 128`. */
  function FamilyData(f: Family, k: int): seq<int> {
    Outer(f, Values(k), Values(k))
  }

  /** `data.flat()`: the x family, then y, then z. */
  function GridData(k: int): seq<int> {
    FamilyData(X, k) + FamilyData(Y, k) + FamilyData(Z, k)
  }

  /** The calls of the size setter on a grid whose status is true. */
  function Upload(vao: Option<Handle>, data: seq<int>): seq<Call> {
    [BindVertexArray(vao), UploadBuffer(ArrayBuffer, Fractions(data, SCALE as nat), DynamicDraw),
     VertexAttribPointer(0, 3, 12, 0)]
  }

  /** What the constructor leaves: its objects, status, the calls before the first upload, the message. */
  datatype GridOutcome = GridOutcome(vao: Option<Handle>, vbo: Option<Handle>, status: Option<bool>,
                                     calls: seq<Call>, error: Option<string>)

  /**
   * The constructor up to its final `size` assignment: the status is true
   * exactly when both objects exist, a missing vertex array leaves no buffer
   * and each failure reports its own message.
   */
  function Built(o: Oracle, before: seq<Call>): (r: GridOutcome)
    ensures r.status.Some?
    ensures r.status == Some(true) <==> r.vao.Some? && r.vbo.Some?
    ensures r.status == Some(true) <==> r.error.None?
    ensures r.vao.None? ==> r.vbo.None? && r.error == Some(VAO_ERROR)
    ensures r.vao.Some? && r.vbo.None? ==> r.error == Some(VBO_ERROR)
  {
    var t1 := before + [CreateVertexArray];
    var vao := o.create(t1);
    if vao.None? then
      GridOutcome(None, None, Some(false), t1, Some(VAO_ERROR))
    else
      var t2 := t1 + [CreateBuffer];
      var vbo := o.create(t2);
      if vbo.None? then
        GridOutcome(vao, vbo, Some(false), t2, Some(VBO_ERROR))
      else
        GridOutcome(vao, vbo, Some(true),
          t2 + [BindVertexArray(vao), BindBuffer(ArrayBuffer, vbo), EnableVertexAttribArray(0), VertexAttribPointer(0, 3, 12, 0)],
          None)
  }

  /**
   * The loops of the `size` setter for step `k / 128`: for each `i` and then
   * each `j` from -1 in steps of the step up to 1, one segment per family; the
   * families are concatenated at the end.
   */
  method Generate(k: int) returns (data: seq<int>)
    ensures data == GridData(k)
  {
    var x: seq<int> := [];
    var y: seq<int> := [];
    var z: seq<int> := [];
    if k > 0 {
      ghost var vs := Values(k);
      var i := -SCALE;
      while i <= SCALE
        invariant x + Outer(X, ValuesFrom(i, k), vs) == FamilyData(X, k)
        invariant y + Outer(Y, ValuesFrom(i, k), vs) == FamilyData(Y, k)
        invariant z + Outer(Z, ValuesFrom(i, k), vs) == FamilyData(Z, k)
        decreases SCALE + 1 - i
      {
        OuterStep(X, i, k, vs, x);
        OuterStep(Y, i, k, vs, y);
        OuterStep(Z, i, k, vs, z);
        ghost var rowX, rowY, rowZ := x + Inner(X, i, vs), y + Inner(Y, i, vs), z + Inner(Z, i, vs);
        var j := -SCALE;
        while j <= SCALE
          invariant x + Inner(X, i, ValuesFrom(j, k)) == rowX
          invariant y + Inner(Y, i, ValuesFrom(j, k)) == rowY
          invariant z + Inner(Z, i, ValuesFrom(j, k)) == rowZ
          decreases SCALE + 1 - j
        {
          InnerStep(X, i, j, k, x);
          InnerStep(Y, i, j, k, y);
          InnerStep(Z, i, j, k, z);
          x := x + Segment(X, i, j);
          y := y + Segment(Y, i, j);
          z := z + Segment(Z, i, j);
          j := j + k;
        }
        InnerDone(X, i, j, k, x);
        InnerDone(Y, i, j, k, y);
        InnerDone(Z, i, j, k, z);
        i := i + k;
      }
      OuterDone(X, i, k, vs, x);
      OuterDone(Y, i, k, vs, y);
      OuterDone(Z, i, k, vs, z);
    }
    data := x + y + z;
  }

  /** Binds the vertex array and the buffer and describes the one three-float attribute. */
  method DescribeLayout(gl: Device, vao: Option<Handle>, vbo: Option<Handle>)
    modifies gl`calls
    ensures gl.calls == old(gl.calls) + [BindVertexArray(vao), BindBuffer(ArrayBuffer, vbo),
                                         EnableVertexAttribArray(0), VertexAttribPointer(0, 3, 12, 0)]
  {
    gl.Issue(BindVertexArray(vao));
    gl.Issue(BindBuffer(ArrayBuffer, vbo));
    gl.Issue(EnableVertexAttribArray(0));
    gl.Issue(VertexAttribPointer(0, 3, 12, 0));
  }

  class GLSLGrid {
    const gl: Device
    /** `_data`, multiplied by 128. */
    var data: seq<int>
    var vao: Option<Handle>
    var vbo: Option<Handle>
    var size: real
    var status: Option<bool>

    function Status(): bool
      reads this
    {
      StatusOf(status)
    }

    /**
     * The constructor: size 64 in every branch; the geometry is generated and
     * uploaded only after both objects exist, and stays empty otherwise.
     */
    constructor(gl: Device, onerror: ErrorSink?)
      modifies gl, onerror
      ensures this.gl == gl && size == INITIAL_SIZE
      ensures var r := Built(gl.oracle, old(gl.calls));
        vao == r.vao && vbo == r.vbo && status == r.status &&
        data == (if r.status == Some(true) then GridData(Trunc(size)) else []) &&
        gl.calls == r.calls + (if r.status == Some(true) then Upload(r.vao, data) else []) &&
        (onerror != null ==> onerror.messages == Reported(old(onerror.messages), r.error))
    {
      this.gl := gl;
      data := [];
      size := INITIAL_SIZE;
      vao, vbo, status := None, None, None;
      new;
      vao := gl.Create(CreateVertexArray);
      if vao.None? {
        vbo := None;
        status := Some(false);
        var _ := HandleError(VAO_ERROR, onerror);
      } else {
        vbo := gl.Create(CreateBuffer);
        if vbo.None? {
          status := Some(false);
          var _ := HandleError(VBO_ERROR, onerror);
        } else {
          status := Some(true);
          DescribeLayout(gl, vao, vbo);
          SetSize(size);
        }
      }
    }

    /**
     * The `size` setter: stores the size as given, regenerates the geometry
     * for step `trunc(size) / 128` whatever the status, and uploads it only
     * when the status is true.
     */
    method SetSize(size: real)
      modifies this`size, this`data, gl`calls
      ensures this.size == size
      ensures data == GridData(Trunc(size))
      ensures gl.calls == old(gl.calls) + (if Status() then Upload(vao, data) else [])
    {
      this.size := size;
      data := Generate(Trunc(size));
      if Status() {
        gl.Issue(BindVertexArray(vao));
        gl.Issue(UploadBuffer(ArrayBuffer, Fractions(data, SCALE as nat), DynamicDraw));
        gl.Issue(VertexAttribPointer(0, 3, 12, 0));
      }
    }

    /** `bind`: only a grid whose status is true binds its vertex array. */
    method Bind()
      modifies gl
      ensures gl.calls == old(gl.calls) + (if Status() then [BindVertexArray(vao)] else [])
    {
      if Status() {
        gl.Issue(BindVertexArray(vao));
      }
    }

    /** `draw`: every vertex, `data.length / 3` of them, as lines. */
    method Draw()
      modifies gl
      ensures gl.calls == old(gl.calls) + [DrawArrays(Lines, 0, |data| / 3)]
    {
      gl.Issue(DrawArrays(Lines, 0, |data| / 3));
    }

    /** `drawX`: the first `data.length / 9` vertices. */
    method DrawX()
      modifies gl
      ensures gl.calls == old(gl.calls) + [DrawArrays(Lines, 0, |data| / 9)]
    {
      gl.Issue(DrawArrays(Lines, 0, |data| / 9));
    }

    /** `drawY`: the next `data.length / 9` vertices. */
    method DrawY()
      modifies gl
      ensures gl.calls == old(gl.calls) + [DrawArrays(Lines, |data| / 9, |data| / 9)]
    {
      var s := |data| / 9;
      gl.Issue(DrawArrays(Lines, s, s));
    }

    /** `drawZ`: the last `data.length / 9` vertices. */
    method DrawZ()
      modifies gl
      ensures gl.calls == old(gl.calls) + [DrawArrays(Lines, 2 * (|data| / 9), |data| / 9)]
    {
      var s := |data| / 9;
      gl.Issue(DrawArrays(Lines, s * 2, s));
    }

    /** `delete`: releases the buffer and the vertex array and unsets the status. */
    method Delete()
      modifies this, gl
      ensures gl.calls == old(gl.calls) + [DeleteBuffer(old(vbo)), DeleteVertexArray(old(vao))]
      ensures status == None && !Status()
      ensures vao == old(vao) && vbo == old(vbo) && data == old(data) && size == old(size)
    {
      gl.Issue(DeleteBuffer(vbo));
      gl.Issue(DeleteVertexArray(vao));
      status := None;
    }
  }

  // ---------------------------------------------------------------------------
  // One iteration of the loops
  // ---------------------------------------------------------------------------

  /** One more inner iteration moves one segment from the remaining work to the output. */
  lemma InnerStep(f: Family, i: int, j: int, k: int, before: seq<int>)
    requires k > 0 && j <= SCALE
    ensures before + Inner(f, i, ValuesFrom(j, k)) == (before + Segment(f, i, j)) + Inner(f, i, ValuesFrom(j + k, k))
  {
    var js := ValuesFrom(j, k);
    assert js[0] == j && js[1..] == ValuesFrom(j + k, k);
  }

  /** Past 128 the inner loop has nothing left to do. */
  lemma InnerDone(f: Family, i: int, j: int, k: int, before: seq<int>)
    requires k > 0 && j > SCALE
    ensures before + Inner(f, i, ValuesFrom(j, k)) == before
  {
    assert before + [] == before;
  }

  /** One more outer iteration moves one inner loop from the remaining work to the output. */
  lemma OuterStep(f: Family, i: int, k: int, vs: seq<int>, before: seq<int>)
    requires k > 0 && i <= SCALE
    ensures before + Outer(f, ValuesFrom(i, k), vs) == (before + Inner(f, i, vs)) + Outer(f, ValuesFrom(i + k, k), vs)
  {
    var rows := ValuesFrom(i, k);
    assert rows[0] == i && rows[1..] == ValuesFrom(i + k, k);
  }

  /** Past 128 the outer loop has nothing left to do. */
  lemma OuterDone(f: Family, i: int, k: int, vs: seq<int>, before: seq<int>)
    requires k > 0 && i > SCALE
    ensures before + Outer(f, ValuesFrom(i, k), vs) == before
  {
    assert before + [] == before;
  }

  // ---------------------------------------------------------------------------
  // Properties of the generated geometry
  // ---------------------------------------------------------------------------

  /** A step `trunc(size) / 128` that is not positive generates nothing. */
  lemma NoStepNoGeometry(k: int)
    requires k <= 0
    ensures GridData(k) == []
  {
  }

  /** The loop values start at `v`, grow by `k` and never pass 128. */
  lemma {:induction false} ValuesFromBounds(v: int, k: int)
    requires k > 0
    ensures forall m :: 0 <= m < |ValuesFrom(v, k)| ==> ValuesFrom(v, k)[m] == v + m * k <= SCALE
    decreases 129 - v
  {
    if v <= SCALE {
      ValuesFromBounds(v + k, k);
      var rest := ValuesFrom(v + k, k);
      forall m | 0 <= m < |ValuesFrom(v, k)|
        ensures ValuesFrom(v, k)[m] == v + m * k <= SCALE
      {
        if m > 0 {
          assert ValuesFrom(v, k)[m] == rest[m - 1];
          assert v + k + (m - 1) * k == v + m * k;
        }
      }
    }
  }

  /** Every loop value is a coordinate of the cube. */
  lemma ValuesInRange(k: int)
    ensures forall m :: 0 <= m < |Values(k)| ==> -SCALE <= Values(k)[m] <= SCALE
  {
    if k > 0 {
      ValuesFromBounds(-SCALE, k);
      forall m | 0 <= m < |Values(k)|
        ensures -SCALE <= Values(k)[m]
      {
        assert 0 <= m * k;
      }
    }
  }

  /** A positive step gives at least the value -128. */
  lemma ValuesNonEmpty(k: int)
    requires k > 0
    ensures |Values(k)| >= 1 && Values(k)[0] == -SCALE
  {
  }

  /** The initial size 64, step 0.5, gives five values per axis. */
  lemma InitialValues()
    ensures Values(Trunc(INITIAL_SIZE)) == [-128, -64, 0, 64, 128]
  {
    assert Trunc(INITIAL_SIZE) == 64;
    assert ValuesFrom(192, 64) == [];
    assert ValuesFrom(128, 64) == [128];
    assert ValuesFrom(64, 64) == [64, 128];
    assert ValuesFrom(0, 64) == [0, 64, 128];
    assert ValuesFrom(-64, 64) == [-64, 0, 64, 128];
  }

  lemma {:induction false} InnerLength(f: Family, i: int, js: seq<int>)
    ensures |Inner(f, i, js)| == 6 * |js|
    decreases |js|
  {
    if |js| > 0 {
      InnerLength(f, i, js[1..]);
    }
  }

  /** `6 (a - 1) b + 6 b == 6 a b`. */
  lemma MulStep(a: int, b: int)
    ensures 6 * (a - 1) * b + 6 * b == 6 * a * b
  {
  }

  lemma {:induction false} OuterLength(f: Family, rows: seq<int>, vs: seq<int>)
    ensures |Outer(f, rows, vs)| == 6 * |rows| * |vs|
    decreases |rows|
  {
    if |rows| > 0 {
      OuterLength(f, rows[1..], vs);
      InnerLength(f, rows[0], vs);
      MulStep(|rows|, |vs|);
    }
  }

  /** With `n` values per axis a family holds `6 n^2` numbers: `n^2` segments of two points. */
  lemma FamilyLength(f: Family, k: int)
    ensures |FamilyData(f, k)| == 6 * |Values(k)| * |Values(k)|
  {
    OuterLength(f, Values(k), Values(k));
  }

  /** The grid holds `18 n^2` numbers, the families in the order x, y, z. */
  lemma GridLength(k: int)
    ensures var n := |Values(k)|;
      |FamilyData(X, k)| == 6 * n * n && |FamilyData(Y, k)| == 6 * n * n && |FamilyData(Z, k)| == 6 * n * n &&
      |GridData(k)| == 18 * n * n
  {
    FamilyLength(X, k);
    FamilyLength(Y, k);
    FamilyLength(Z, k);
    TripleSix(|Values(k)|);
  }

  /** `3 (6 n n) == 18 n n`. */
  lemma TripleSix(n: int)
    ensures 6 * n * n + 6 * n * n + 6 * n * n == 18 * n * n
  {
  }

  /** The initial size gives 25 segments per family. */
  lemma InitialSegments(k: int)
    requires k == Trunc(INITIAL_SIZE)
    ensures |FamilyData(X, k)| == 6 * 25 && |FamilyData(Y, k)| == 6 * 25 && |FamilyData(Z, k)| == 6 * 25
    ensures |GridData(k)| == 18 * 25
  {
    InitialCount(k);
    GridOfCount(k, 5);
  }

  lemma InitialCount(k: int)
    requires k == Trunc(INITIAL_SIZE)
    ensures |Values(k)| == 5
  {
    InitialValues();
  }

  /** The lengths of `GridLength` at a known count of values. */
  lemma GridOfCount(k: int, n: int)
    requires |Values(k)| == n
    ensures |FamilyData(X, k)| == 6 * n * n && |FamilyData(Y, k)| == 6 * n * n && |FamilyData(Z, k)| == 6 * n * n
    ensures |GridData(k)| == 18 * n * n
  {
    GridLength(k);
  }

  /** Segment `q` of the inner loop for `i`. */
  lemma {:induction false} InnerAt(f: Family, i: int, js: seq<int>, q: int)
    requires 0 <= q < |js|
    ensures |Inner(f, i, js)| == 6 * |js|
    ensures Inner(f, i, js)[6 * q .. 6 * q + 6] == Segment(f, i, js[q])
    decreases |js|
  {
    InnerLength(f, i, js);
    InnerLength(f, i, js[1..]);
    if q > 0 {
      InnerAt(f, i, js[1..], q - 1);
      SliceOfRight(Segment(f, i, js[0]), Inner(f, i, js[1..]), 6 * q, 6 * q + 6);
    } else {
      SliceOfLeft(Segment(f, i, js[0]), Inner(f, i, js[1..]), 0, 6);
    }
  }

  /** Segment `q` of outer iteration `p`, at index `6 (p n + q)` with `n = |vs|`. */
  lemma {:induction false} OuterAt(f: Family, rows: seq<int>, vs: seq<int>, p: int, q: int)
    requires 0 <= p < |rows| && 0 <= q < |vs|
    ensures 6 * (p * |vs| + q) + 6 <= |Outer(f, rows, vs)|
    ensures Outer(f, rows, vs)[6 * (p * |vs| + q) .. 6 * (p * |vs| + q) + 6] == Segment(f, rows[p], vs[q])
    decreases |rows|
  {
    if p == 0 {
      OuterAtHead(f, rows, vs, q);
    } else {
      OuterAt(f, rows[1..], vs, p - 1, q);
      OuterAtTail(f, rows, vs, p, q);
    }
  }

  /** The segments of the first outer iteration come first. */
  lemma OuterAtHead(f: Family, rows: seq<int>, vs: seq<int>, q: int)
    requires 0 < |rows| && 0 <= q < |vs|
    ensures 6 * (0 * |vs| + q) + 6 <= |Outer(f, rows, vs)|
    ensures Outer(f, rows, vs)[6 * (0 * |vs| + q) .. 6 * (0 * |vs| + q) + 6] == Segment(f, rows[0], vs[q])
  {
    InnerAt(f, rows[0], vs, q);
    assert 6 * (0 * |vs| + q) == 6 * q;
    SliceOfLeft(Inner(f, rows[0], vs), Outer(f, rows[1..], vs), 6 * q, 6 * q + 6);
  }

  /** Segment `(p, q)` is segment `(p - 1, q)` of the later iterations, shifted by the first one. */
  lemma OuterAtTail(f: Family, rows: seq<int>, vs: seq<int>, p: int, q: int)
    requires 0 < p < |rows| && 0 <= q < |vs|
    requires 6 * ((p - 1) * |vs| + q) + 6 <= |Outer(f, rows[1..], vs)|
    requires Outer(f, rows[1..], vs)[6 * ((p - 1) * |vs| + q) .. 6 * ((p - 1) * |vs| + q) + 6] == Segment(f, rows[1..][p - 1], vs[q])
    ensures 6 * (p * |vs| + q) + 6 <= |Outer(f, rows, vs)|
    ensures Outer(f, rows, vs)[6 * (p * |vs| + q) .. 6 * (p * |vs| + q) + 6] == Segment(f, rows[p], vs[q])
  {
    var n := |vs|;
    var head, tail := Inner(f, rows[0], vs), Outer(f, rows[1..], vs);
    var prev := 6 * ((p - 1) * n + q);
    InnerLength(f, rows[0], vs);
    PredStep(p, n, q);
    NonNegativeProduct(p - 1, n);
    assert Outer(f, rows, vs) == head + tail;
    assert 6 * (p * n + q) == |head| + prev;
    ShiftSlice(head, tail, prev);
    assert rows[1..][p - 1] == rows[p];
  }

  /** A slice of `b` reappears in `a + b` shifted by `|a|`. */
  lemma ShiftSlice(a: seq<int>, b: seq<int>, lo: int)
    requires 0 <= lo && lo + 6 <= |b|
    ensures (a + b)[|a| + lo .. |a| + lo + 6] == b[lo .. lo + 6]
  {
  }

  lemma NonNegativeProduct(a: int, b: int)
    requires 0 <= a && 0 <= b
    ensures 0 <= a * b
  {
  }

  /** `6 (p n + q) == 6 ((p - 1) n + q) + 6 n`. */
  lemma PredStep(p: int, n: int, q: int)
    ensures 6 * (p * n + q) == 6 * ((p - 1) * n + q) + 6 * n
  {
  }

  /** A slice of `a + b` that lies in `a`. */
  lemma SliceOfLeft(a: seq<int>, b: seq<int>, lo: int, hi: int)
    requires 0 <= lo <= hi <= |a|
    ensures (a + b)[lo .. hi] == a[lo .. hi]
  {
  }

  /** A slice of `a + b` that lies in `b`. */
  lemma SliceOfRight(a: seq<int>, b: seq<int>, lo: int, hi: int)
    requires |a| <= lo <= hi <= |a| + |b|
    ensures (a + b)[lo .. hi] == b[lo - |a| .. hi - |a|]
  {
  }


  /**
   * Segment `m` of a family, for `m = p n + q`, runs along the family's axis
   * from -1 to 1 at the loop values `i = values[p]` and `j = values[q]`.
   */
  lemma FamilySegment(f: Family, k: int, p: int, q: int)
    requires var n := |Values(k)|; 0 <= p < n && 0 <= q < n
    ensures var n := |Values(k)|; var m := p * n + q;
      6 * m + 6 <= |FamilyData(f, k)| &&
      FamilyData(f, k)[6 * m .. 6 * m + 6] == Segment(f, Values(k)[p], Values(k)[q])
  {
    OuterAt(f, Values(k), Values(k), p, q);
  }

  /** Every coordinate of every family lies in the cube [-1, 1], i.e. [-128, 128] scaled. */
  lemma {:induction false} InnerInRange(f: Family, i: int, js: seq<int>)
    requires -SCALE <= i <= SCALE
    requires forall m :: 0 <= m < |js| ==> -SCALE <= js[m] <= SCALE
    ensures forall m :: 0 <= m < |Inner(f, i, js)| ==> -SCALE <= Inner(f, i, js)[m] <= SCALE
    decreases |js|
  {
    if |js| > 0 {
      InnerInRange(f, i, js[1..]);
    }
  }

  lemma {:induction false} OuterInRange(f: Family, rows: seq<int>, vs: seq<int>)
    requires forall m :: 0 <= m < |rows| ==> -SCALE <= rows[m] <= SCALE
    requires forall m :: 0 <= m < |vs| ==> -SCALE <= vs[m] <= SCALE
    ensures forall m :: 0 <= m < |Outer(f, rows, vs)| ==> -SCALE <= Outer(f, rows, vs)[m] <= SCALE
    decreases |rows|
  {
    if |rows| > 0 {
      OuterInRange(f, rows[1..], vs);
      InnerInRange(f, rows[0], vs);
    }
  }

  lemma GridInRange(k: int)
    ensures forall m :: 0 <= m < |GridData(k)| ==> -SCALE <= GridData(k)[m] <= SCALE
  {
    ValuesInRange(k);
    OuterInRange(X, Values(k), Values(k));
    OuterInRange(Y, Values(k), Values(k));
    OuterInRange(Z, Values(k), Values(k));
  }

  /**
   * With `s = data.length / 9`, whose division is exact, `drawX`, `drawY` and
   * `drawZ` draw the vertices [0, s), [s, 2s) and [2s, 3s): the x, y and z
   * families, disjoint, and together the `data.length / 3` vertices of `draw`.
   */
  lemma DrawRanges(k: int)
    ensures var d := GridData(k); var s := |d| / 9;
      |d| % 9 == 0 && |d| / 3 == 3 * s &&
      d[0 .. 3 * s] == FamilyData(X, k) &&
      d[3 * s .. 6 * s] == FamilyData(Y, k) &&
      d[6 * s .. 9 * s] == FamilyData(Z, k)
  {
    GridLength(k);
    var n := |Values(k)|;
    var d := GridData(k);
    assert |d| == 9 * (2 * n * n);
    assert |d| / 9 == 2 * n * n;
  }
}
