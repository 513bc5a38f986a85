/**
 * What the constructors of `GLSLCube` (lib/glsl/model/cube.ts) and
 * `GLSLAxis` (lib/glsl/model/axis.ts) share: both create a vertex array
 * and two buffers, report the first missing one, or upload a vertex table
 * and an index table and describe one three-float attribute.
 */
module Mesh {
  import opened Wrappers
  import opened WebGL

  /** What a mesh constructor leaves: its three objects, its status, the calls, the reported message. */
  datatype MeshOutcome = MeshOutcome(vao: Option<Handle>, vbo: Option<Handle>, ebo: Option<Handle>,
                                     status: Option<bool>, calls: seq<Call>, error: Option<string>)

  const VAO_ERROR: string := "could not create the VAO:\nunknown error"
  const VBO_ERROR: string := "could not create the VBO:\nunknown error"
  const EBO_ERROR: string := "could not create the EBO:\nunknown error"

  /** The calls that upload the tables once all three objects exist. */
  function Upload(vao: Handle, vbo: Handle, ebo: Handle, data: seq<real>, index: seq<int>): seq<Call> {
    [BindVertexArray(Some(vao)),
     BindBuffer(ArrayBuffer, Some(vbo)), UploadBuffer(ArrayBuffer, Floats(data), StaticDraw),
     BindBuffer(ElementArrayBuffer, Some(ebo)), UploadBuffer(ElementArrayBuffer, Bytes(index), StaticDraw),
     EnableVertexAttribArray(0), VertexAttribPointer(0, 3, 12, 0)]
  }

  /** The seven upload calls, issued one by one in the order of `Upload`. */
  method IssueUpload(gl: Device, vao: Handle, vbo: Handle, ebo: Handle, data: seq<real>, index: seq<int>)
    modifies gl`calls
    ensures gl.calls == old(gl.calls) + Upload(vao, vbo, ebo, data, index)
  {
    gl.Issue(BindVertexArray(Some(vao)));
    gl.Issue(BindBuffer(ArrayBuffer, Some(vbo)));
    gl.Issue(UploadBuffer(ArrayBuffer, Floats(data), StaticDraw));
    gl.Issue(BindBuffer(ElementArrayBuffer, Some(ebo)));
    gl.Issue(UploadBuffer(ElementArrayBuffer, Bytes(index), StaticDraw));
    gl.Issue(EnableVertexAttribArray(0));
    gl.Issue(VertexAttribPointer(0, 3, 12, 0));
  }

  /**
   * The constructor on a context with oracle `o` that has received `before`.
   * The status is set in every branch and is true exactly when all three
   * objects exist; otherwise one message is reported. Both buffers are asked
   * for before either is checked, and the vertex buffer is checked first.
   */
  function Built(o: Oracle, before: seq<Call>, data: seq<real>, index: seq<int>): (r: MeshOutcome)
    ensures r.status.Some?
    ensures r.status == Some(true) <==> r.vao.Some? && r.vbo.Some? && r.ebo.Some?
    ensures r.status == Some(true) <==> r.error.None?
    ensures r.vao.None? ==> r.vbo.None? && r.ebo.None? && r.error == Some(VAO_ERROR)
    ensures r.vao.Some? && r.vbo.None? ==> r.error == Some(VBO_ERROR)
    ensures r.vao.Some? && r.vbo.Some? && r.ebo.None? ==> r.error == Some(EBO_ERROR)
  {
    var t1 := before + [CreateVertexArray];
    var vao := o.create(t1);
    if vao.None? then
      MeshOutcome(None, None, None, Some(false), t1, Some(VAO_ERROR))
    else
      var t2 := t1 + [CreateBuffer];
      var vbo := o.create(t2);
      var t3 := t2 + [CreateBuffer];
      var ebo := o.create(t3);
      if vbo.None? then
        MeshOutcome(vao, vbo, ebo, Some(false), t3, Some(VBO_ERROR))
      else if ebo.None? then
        MeshOutcome(vao, vbo, ebo, Some(false), t3, Some(EBO_ERROR))
      else
        MeshOutcome(vao, vbo, ebo, Some(true), t3 + Upload(vao.value, vbo.value, ebo.value, data, index), None)
  }

  /** The index entries a `drawElements` call reads: `count` entries from `offset`. */
  function Span(c: Call): seq<int>
    requires c.DrawElements?
  {
    if c.count <= 0 then [] else seq(c.count, i requires 0 <= i < c.count => c.offset + i)
  }

  /** The entries a sequence of `drawElements` calls reads, in order. */
  function Spans(cs: seq<Call>): seq<int>
    requires forall k :: 0 <= k < |cs| ==> cs[k].DrawElements?
  {
    if |cs| == 0 then [] else Span(cs[0]) + Spans(cs[1..])
  }

  /** Every entry the calls read lies in a table of `n` entries. */
  predicate InTable(cs: seq<Call>, n: int) {
    forall k :: 0 <= k < |cs| ==> cs[k].DrawElements? && 0 <= cs[k].offset && cs[k].offset + cs[k].count <= n
  }

  /** The offsets of `0..n` in order: each entry of a table of `n` entries once. */
  function Upto(n: nat): seq<int> {
    seq(n, i requires 0 <= i < n => i)
  }
}
