/**
 * `GLSLAxis` (lib/glsl/model/axis.ts): three axis shafts from the corner
 * (-1, -1, -1) with an arrowhead at each tip, their index table, construction,
 * binding, the four draw routines and release.
 */
module Axis {
  import opened Wrappers
  import opened WebGL
  import opened GlslObject
  import opened Mesh

  /** `GLSLAxis.data`: ten points, three floats each. */
  const DATA: seq<real> := [
    -1.0, -1.0, -1.0,
     1.15, -1.0, -1.0,
     1.05, -0.95, -1.0,
     1.05, -1.05, -1.0,
    -1.0, 1.15, -1.0,
    -0.95, 1.05, -1.0,
    -1.05, 1.05, -1.0,
    -1.0, -1.0, 1.15,
    -1.0, -0.95, 1.05,
    -1.0, -1.05, 1.05]

  /** `GLSLAxis.index`: three shafts as line pairs, then three three-point arrowheads. */
  const INDEX: seq<int> := [0, 1, 0, 4, 0, 7, 2, 1, 3, 5, 4, 6, 8, 7, 9]

  /** Point `k` of the vertex table. */
  function Point(k: int): (real, real, real)
    requires 0 <= k < 10
  {
    (DATA[3 * k], DATA[3 * k + 1], DATA[3 * k + 2])
  }

  /** `draw`: the shafts as lines over [0, 6), then the arrowheads over [6, 9), [9, 12) and [12, 15). */
  const DRAW: seq<Call> :=
    [DrawElements(Lines, 6, 0), DrawElements(LineStrip, 3, 6),
     DrawElements(LineStrip, 3, 9), DrawElements(LineStrip, 3, 12)]

  /** `drawX`: six line entries from 0, then the x arrowhead. */
  const DRAW_X: seq<Call> := [DrawElements(Lines, 6, 0), DrawElements(LineStrip, 3, 6)]

  /** `drawY`: the y shaft, then the y arrowhead. */
  const DRAW_Y: seq<Call> := [DrawElements(Lines, 2, 2), DrawElements(LineStrip, 3, 9)]

  /** `drawZ`: the z shaft, then the z arrowhead. */
  const DRAW_Z: seq<Call> := [DrawElements(Lines, 2, 4), DrawElements(LineStrip, 3, 12)]

  /** `drawX` as evidently intended: the x shaft alone over [0, 2), then the x arrowhead. */
  const DRAW_X_SHAFT: seq<Call> := [DrawElements(Lines, 2, 0), DrawElements(LineStrip, 3, 6)]

  class GLSLAxis {
    const gl: Device
    var vao: Option<Handle>
    var vbo: Option<Handle>
    var ebo: Option<Handle>
    var status: Option<bool>

    function Status(): bool
      reads this
    {
      StatusOf(status)
    }

    constructor(gl: Device, onerror: ErrorSink?)
      modifies gl`calls, onerror
      ensures this.gl == gl
      ensures var r := Built(gl.oracle, old(gl.calls), DATA, INDEX);
        vao == r.vao && vbo == r.vbo && ebo == r.ebo && status == r.status && gl.calls == r.calls &&
        (onerror != null ==> onerror.messages == Reported(old(onerror.messages), r.error))
    {
      this.gl := gl;
      vao, vbo, ebo, status := None, None, None, None;
      new;
      vao := gl.Create(CreateVertexArray);
      if vao.None? {
        vbo := None;
        ebo := None;
        status := Some(false);
        var _ := HandleError(VAO_ERROR, onerror);
      } else {
        vbo := gl.Create(CreateBuffer);
        ebo := gl.Create(CreateBuffer);
        if vbo.None? {
          status := Some(false);
          var _ := HandleError(VBO_ERROR, onerror);
        } else if ebo.None? {
          status := Some(false);
          var _ := HandleError(EBO_ERROR, onerror);
        } else {
          status := Some(true);
          IssueUpload(gl, vao.value, vbo.value, ebo.value, DATA, INDEX);
        }
      }
    }

    /** `bind`: only an axis whose status is true binds its vertex array. */
    method Bind()
      modifies gl
      ensures gl.calls == old(gl.calls) + (if Status() then [BindVertexArray(vao)] else [])
    {
      if Status() {
        gl.Issue(BindVertexArray(vao));
      }
    }

    method Draw()
      modifies gl
      ensures gl.calls == old(gl.calls) + DRAW
    {
      gl.Issue(DrawElements(Lines, 6, 0));
      gl.Issue(DrawElements(LineStrip, 3, 6));
      gl.Issue(DrawElements(LineStrip, 3, 9));
      gl.Issue(DrawElements(LineStrip, 3, 12));
    }

    method DrawX()
      modifies gl
      ensures gl.calls == old(gl.calls) + DRAW_X
    {
      gl.Issue(DrawElements(Lines, 6, 0));
      gl.Issue(DrawElements(LineStrip, 3, 6));
    }

    method DrawY()
      modifies gl
      ensures gl.calls == old(gl.calls) + DRAW_Y
    {
      gl.Issue(DrawElements(Lines, 2, 2));
      gl.Issue(DrawElements(LineStrip, 3, 9));
    }

    method DrawZ()
      modifies gl
      ensures gl.calls == old(gl.calls) + DRAW_Z
    {
      gl.Issue(DrawElements(Lines, 2, 4));
      gl.Issue(DrawElements(LineStrip, 3, 12));
    }

    /** `delete`: releases the element buffer, the vertex buffer and the vertex array, and unsets the status. */
    method Delete()
      modifies this, gl
      ensures gl.calls == old(gl.calls) + [DeleteBuffer(old(ebo)), DeleteBuffer(old(vbo)), DeleteVertexArray(old(vao))]
      ensures status == None && !Status()
      ensures vao == old(vao) && vbo == old(vbo) && ebo == old(ebo)
    {
      gl.Issue(DeleteBuffer(ebo));
      gl.Issue(DeleteBuffer(vbo));
      gl.Issue(DeleteVertexArray(vao));
      status := None;
    }
  }

  // ---------------------------------------------------------------------------
  // Properties of the tables
  // ---------------------------------------------------------------------------

  /** Fifteen index entries, each naming one of the ten points. */
  lemma IndexInRange()
    ensures |DATA| == 30 && |INDEX| == 15
    ensures forall k :: 0 <= k < |INDEX| ==> 0 <= INDEX[k] < |DATA| / 3
  {
  }

  /** The three shafts start at point 0, (-1, -1, -1), and end at the tips 1, 4 and 7, one per axis. */
  lemma Shafts()
    ensures INDEX[0] == 0 && INDEX[2] == 0 && INDEX[4] == 0
    ensures INDEX[1] == 1 && INDEX[3] == 4 && INDEX[5] == 7
    ensures Point(0) == (-1.0, -1.0, -1.0)
    ensures Point(1) == (1.15, -1.0, -1.0)
    ensures Point(4) == (-1.0, 1.15, -1.0)
    ensures Point(7) == (-1.0, -1.0, 1.15)
  {
    assert DATA[0] == -1.0 && DATA[1] == -1.0 && DATA[2] == -1.0;
    assert DATA[3] == 1.15 && DATA[4] == -1.0 && DATA[5] == -1.0;
    assert DATA[12] == -1.0 && DATA[13] == 1.15 && DATA[14] == -1.0;
    assert DATA[21] == -1.0 && DATA[22] == -1.0 && DATA[23] == 1.15;
  }

  /** The tip of each arrowhead strip is the tip of its shaft. */
  lemma ArrowheadsAtTips()
    ensures INDEX[7] == INDEX[1] && INDEX[10] == INDEX[3] && INDEX[13] == INDEX[5]
  {
  }

  /** Splits the entries of a two-call draw. */
  lemma SpansOfTwo(a: Call, b: Call)
    requires a.DrawElements? && b.DrawElements?
    ensures Spans([a, b]) == Span(a) + Span(b)
  {
    assert [a, b][1..] == [b];
    assert Spans([b]) == Span(b) + Spans([]);
  }

  /** `draw` reads every entry of the table exactly once, in order. */
  lemma DrawCoversTable()
    ensures InTable(DRAW, |INDEX|)
    ensures Spans(DRAW) == Upto(|INDEX|)
  {
    SpansOfTwo(DRAW[2], DRAW[3]);
    assert DRAW[2..] == [DRAW[2], DRAW[3]];
    assert DRAW[1..][1..] == DRAW[2..];
    assert Spans(DRAW) == Span(DRAW[0]) + (Span(DRAW[1]) + Spans(DRAW[2..]));
    assert Spans(DRAW) == Span(DRAW[0]) + Span(DRAW[1]) + Span(DRAW[2]) + Span(DRAW[3]);
  }

  /** As written, `drawX` reads [0, 9): all three shafts, not only the x shaft, and the x arrowhead. */
  lemma DrawXReadsAllShafts()
    ensures InTable(DRAW_X, |INDEX|)
    ensures Spans(DRAW_X) == Upto(9)
    ensures INDEX[..6] == [0, 1, 0, 4, 0, 7]
  {
    SpansOfTwo(DRAW_X[0], DRAW_X[1]);
  }

  /** `drawY` reads the y shaft [2, 4) and the y arrowhead [9, 12). */
  lemma DrawYRanges()
    ensures InTable(DRAW_Y, |INDEX|)
    ensures Spans(DRAW_Y) == [2, 3, 9, 10, 11]
  {
    SpansOfTwo(DRAW_Y[0], DRAW_Y[1]);
  }

  /** `drawZ` reads the z shaft [4, 6) and the z arrowhead [12, 15). */
  lemma DrawZRanges()
    ensures InTable(DRAW_Z, |INDEX|)
    ensures Spans(DRAW_Z) == [4, 5, 12, 13, 14]
  {
    SpansOfTwo(DRAW_Z[0], DRAW_Z[1]);
  }

  /**
   * As written, `drawX` also reads the y shaft's entries [2, 4) and the z
   * shaft's [4, 6), which `drawY` and `drawZ` read again: in rgb mode all
   * three shafts are first drawn in the x colour.
   */
  lemma DrawXOverlapsOthers()
    ensures 2 in Spans(DRAW_X) && 2 in Spans(DRAW_Y)
    ensures 4 in Spans(DRAW_X) && 4 in Spans(DRAW_Z)
  {
    DrawXReadsAllShafts();
    DrawYRanges();
    DrawZRanges();
    assert Upto(9)[2] == 2 && Upto(9)[4] == 4;
  }

  /**
   * With `drawX` reading only the x shaft, the three single-axis draws read
   * [0, 2) with [6, 9), [2, 4) with [9, 12), and [4, 6) with [12, 15): no
   * entry twice, and together every entry of the table, as `draw` does.
   */
  lemma DrawXShaftPartition()
    ensures InTable(DRAW_X_SHAFT, |INDEX|)
    ensures Spans(DRAW_X_SHAFT) == [0, 1, 6, 7, 8]
    ensures forall k :: k in Spans(DRAW_X_SHAFT) ==> k !in Spans(DRAW_Y) && k !in Spans(DRAW_Z)
    ensures forall k :: k in Spans(DRAW_Y) ==> k !in Spans(DRAW_Z)
    ensures forall k :: 0 <= k < |INDEX| ==> k in Spans(DRAW_X_SHAFT) || k in Spans(DRAW_Y) || k in Spans(DRAW_Z)
  {
    SpansOfTwo(DRAW_X_SHAFT[0], DRAW_X_SHAFT[1]);
    DrawYRanges();
    DrawZRanges();
  }
}
