/**
 * `GLSLCube` (lib/glsl/model/cube.ts): the unit cube's eight corners, the
 * sixteen-entry index table of its triangle strip and diagonal, its
 * construction, binding, drawing and release.
 */
module Cube {
  import opened Wrappers
  import opened WebGL
  import opened GlslObject
  import opened Mesh

  /** `GLSLCube.data`: eight corners, three floats each. */
  const DATA: seq<real> := [
     1.0,  1.0, -1.0,
    -1.0,  1.0, -1.0,
     1.0,  1.0,  1.0,
    -1.0,  1.0,  1.0,
     1.0, -1.0, -1.0,
    -1.0, -1.0, -1.0,
    -1.0, -1.0,  1.0,
     1.0, -1.0,  1.0]

  /** `GLSLCube.index`: a fourteen-entry triangle strip, then the diagonal. */
  const INDEX: seq<int> := [3, 2, 6, 7, 4, 2, 0, 3, 1, 6, 5, 4, 1, 0, 5, 2]

  /** Corner `k` of the vertex table. */
  function Corner(k: int): (real, real, real)
    requires 0 <= k < 8
  {
    (DATA[3 * k], DATA[3 * k + 1], DATA[3 * k + 2])
  }

  /** `drawCube`: the strip over entries [0, 14). */
  const DRAW_CUBE: seq<Call> := [DrawElements(TriangleStrip, 14, 0)]

  /** `drawDiagonal`: one line over entries [14, 16). */
  const DRAW_DIAGONAL: seq<Call> := [DrawElements(Lines, 2, 14)]

  class GLSLCube {
    const gl: Device
    var vao: Option<Handle>
    var vbo: Option<Handle>
    var ebo: Option<Handle>
    var status: Option<bool>

    function Status(): bool
      reads this
    {
      StatusOf(status)
    }

    constructor(gl: Device, onerror: ErrorSink?)
      modifies gl`calls, onerror
      ensures this.gl == gl
      ensures var r := Built(gl.oracle, old(gl.calls), DATA, INDEX);
        vao == r.vao && vbo == r.vbo && ebo == r.ebo && status == r.status && gl.calls == r.calls &&
        (onerror != null ==> onerror.messages == Reported(old(onerror.messages), r.error))
    {
      this.gl := gl;
      vao, vbo, ebo, status := None, None, None, None;
      new;
      vao := gl.Create(CreateVertexArray);
      if vao.None? {
        vbo := None;
        ebo := None;
        status := Some(false);
        var _ := HandleError(VAO_ERROR, onerror);
      } else {
        vbo := gl.Create(CreateBuffer);
        ebo := gl.Create(CreateBuffer);
        if vbo.None? {
          status := Some(false);
          var _ := HandleError(VBO_ERROR, onerror);
        } else if ebo.None? {
          status := Some(false);
          var _ := HandleError(EBO_ERROR, onerror);
        } else {
          status := Some(true);
          IssueUpload(gl, vao.value, vbo.value, ebo.value, DATA, INDEX);
        }
      }
    }

    /** `bind`: only a cube whose status is true binds its vertex array. */
    method Bind()
      modifies gl
      ensures gl.calls == old(gl.calls) + (if Status() then [BindVertexArray(vao)] else [])
    {
      if Status() {
        gl.Issue(BindVertexArray(vao));
      }
    }

    /** `draw`: the cube, then the diagonal. */
    method Draw()
      modifies gl
      ensures gl.calls == old(gl.calls) + DRAW_CUBE + DRAW_DIAGONAL
    {
      DrawCube();
      DrawDiagonal();
    }

    method DrawCube()
      modifies gl
      ensures gl.calls == old(gl.calls) + DRAW_CUBE
    {
      gl.Issue(DrawElements(TriangleStrip, 14, 0));
    }

    method DrawDiagonal()
      modifies gl
      ensures gl.calls == old(gl.calls) + DRAW_DIAGONAL
    {
      gl.Issue(DrawElements(Lines, 2, 14));
    }

    /** `delete`: releases the vertex buffer and the vertex array, not the element buffer, and unsets the status. */
    method Delete()
      modifies this, gl
      ensures gl.calls == old(gl.calls) + [DeleteBuffer(old(vbo)), DeleteVertexArray(old(vao))]
      ensures status == None && !Status()
      ensures vao == old(vao) && vbo == old(vbo) && ebo == old(ebo)
    {
      gl.Issue(DeleteBuffer(vbo));
      gl.Issue(DeleteVertexArray(vao));
      status := None;
    }
  }

  // ---------------------------------------------------------------------------
  // Properties of the tables
  // ---------------------------------------------------------------------------

  /** Every coordinate is 1 or -1 and the eight corners are distinct. */
  lemma CornersOfCube()
    ensures |DATA| == 24
    ensures forall k :: 0 <= k < |DATA| ==> DATA[k] == 1.0 || DATA[k] == -1.0
    ensures forall a, b :: 0 <= a < 8 && 0 <= b < 8 && a != b ==> Corner(a) != Corner(b)
  {
    assert Corner(0) == (1.0, 1.0, -1.0) && Corner(1) == (-1.0, 1.0, -1.0);
    assert Corner(2) == (1.0, 1.0, 1.0) && Corner(3) == (-1.0, 1.0, 1.0);
    assert Corner(4) == (1.0, -1.0, -1.0) && Corner(5) == (-1.0, -1.0, -1.0);
    assert Corner(6) == (-1.0, -1.0, 1.0) && Corner(7) == (1.0, -1.0, 1.0);
  }

  /** The index table has sixteen entries, each naming one of the eight corners. */
  lemma IndexInRange()
    ensures |INDEX| == 16
    ensures forall k :: 0 <= k < |INDEX| ==> 0 <= INDEX[k] < 8
  {
  }

  /**
   * `drawCube` reads entries [0, 14) and `drawDiagonal` entries [14, 16):
   * together the whole table, each entry once.
   */
  lemma DrawRanges()
    ensures InTable(DRAW_CUBE, |INDEX|) && InTable(DRAW_DIAGONAL, |INDEX|)
    ensures Spans(DRAW_CUBE + DRAW_DIAGONAL) == Upto(|INDEX|)
  {
    assert Span(DRAW_CUBE[0]) == Upto(14);
    assert Spans(DRAW_CUBE + DRAW_DIAGONAL) == Span(DRAW_CUBE[0]) + Span(DRAW_DIAGONAL[0]) by {
      assert (DRAW_CUBE + DRAW_DIAGONAL)[1..] == DRAW_DIAGONAL;
    }
  }

  /** The diagonal joins corner 5, (-1, -1, -1), to corner 2, (1, 1, 1). */
  lemma Diagonal()
    ensures INDEX[14..16] == [5, 2]
    ensures Corner(INDEX[14]) == (-1.0, -1.0, -1.0) && Corner(INDEX[15]) == (1.0, 1.0, 1.0)
  {
  }
}
