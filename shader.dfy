/**
 * `GLSLShader` (lib/glsl/shader.ts): creates a shader object, uploads and
 * compiles the source, reports a failure through the callback and deletes the
 * shader whose compilation failed.
 */
module Shader {
  import opened Wrappers
  import opened WebGL
  import opened GlslObject

  /** The stage name in messages: `vertex` for a vertex shader, `fragment` for anything else. */
  function ShaderName(t: ShaderType): (name: string)
    ensures name == "vertex" <==> t == VertexShader
  {
    if t == VertexShader then "vertex" else "fragment"
  }

  /** The shader's own `handleError` format. */
  function ShaderError(action: string, t: ShaderType, error: string): string {
    "could not " + action + " the " + ShaderName(t) + " shader:\n" + error
  }

  /** The message with its action written in. */
  lemma ShaderErrorText(action: string, t: ShaderType, error: string)
    ensures ShaderError(action, t, error) == "could not " + action + " the " + ShaderName(t) + " shader:\n" + error
    ensures action == "create" ==> ShaderError(action, t, error) == "could not create the " + ShaderName(t) + " shader:\n" + error
    ensures action == "compile" ==> ShaderError(action, t, error) == "could not compile the " + ShaderName(t) + " shader:\n" + error
  {
    var n := ShaderName(t);
    assert "could not " + "create" + " the " + n + " shader:\n" + error == "could not create the " + n + " shader:\n" + error;
    assert "could not " + "compile" + " the " + n + " shader:\n" + error == "could not compile the " + n + " shader:\n" + error;
  }

  /** What the constructor leaves: the id, the status, the calls on the context, the reported message. */
  datatype Outcome = Outcome(id: Option<Handle>, status: Option<bool>, calls: seq<Call>, error: Option<string>)

  /**
   * The constructor on a context with oracle `o` that has received `before`.
   * A shader either compiles, with status true and nothing reported, or
   * reports exactly one message and its status reads false.
   */
  function Compiled(o: Oracle, before: seq<Call>, t: ShaderType, src: string): (r: Outcome)
    ensures StatusOf(r.status) <==> r.error.None?
    ensures StatusOf(r.status) ==> r.id.Some?
    ensures |r.calls| > |before| && r.calls[..|before| + 1] == before + [CreateShader(t)]
    ensures r.id == o.create(before + [CreateShader(t)])
  {
    var created := before + [CreateShader(t)];
    var id := o.create(created);
    if id.None? then
      Outcome(None, None, created, Some(ShaderError("create", t, "nunknown error")))
    else
      var compiled := created + [ShaderSource(id.value, src), CompileShader(id.value), GetCompileStatus(id.value)];
      if o.flag(compiled) then
        Outcome(id, Some(true), compiled, None)
      else
        var logged := compiled + [GetShaderInfoLog(id.value)];
        Outcome(id, None, logged + [DeleteShader(id)],
                Some(ShaderError("compile", t, InfoMessage(o.log(logged)))))
  }

  class GLSLShader {
    const gl: Device
    const shaderType: ShaderType
    const src: string
    var id: Option<Handle>
    var status: Option<bool>

    function Status(): bool
      reads this
    {
      StatusOf(status)
    }

    constructor(gl: Device, shaderType: ShaderType, src: string, onerror: ErrorSink?)
      modifies gl, onerror
      ensures this.gl == gl && this.shaderType == shaderType && this.src == src
      ensures var r := Compiled(gl.oracle, old(gl.calls), shaderType, src);
        id == r.id && status == r.status && gl.calls == r.calls &&
        (onerror != null ==> onerror.messages == Reported(old(onerror.messages), r.error))
    {
      this.gl := gl;
      this.shaderType := shaderType;
      this.src := src;
      id := None;
      status := None;
      new;
      var h := gl.Create(CreateShader(shaderType));
      id := h;
      if h.None? {
        var _ := HandleError(ShaderError("create", shaderType, "nunknown error"), onerror);
      } else {
        gl.Issue(ShaderSource(h.value, src));
        gl.Issue(CompileShader(h.value));
        var ok := gl.Flag(GetCompileStatus(h.value));
        assert gl.calls == old(gl.calls) + [CreateShader(shaderType)] +
          [ShaderSource(h.value, src), CompileShader(h.value), GetCompileStatus(h.value)];
        status := Some(ok);
        if !ok {
          var log := gl.Log(GetShaderInfoLog(h.value));
          var _ := HandleError(ShaderError("compile", shaderType, InfoMessage(log)), onerror);
          ghost var logged := gl.calls;
          Delete();
          assert gl.calls == logged + [DeleteShader(h)];
        }
      }
    }

    /**
     * `delete`: its guard compares the boolean `status` getter with
     * `undefined` and so never blocks; the shader is deleted and the status
     * unset.
     */
    method Delete()
      modifies this`status, gl`calls
      ensures gl.calls == old(gl.calls) + [DeleteShader(id)]
      ensures status == None && !Status()
    {
      gl.Issue(DeleteShader(id));
      status := None;
    }
  }

  // ---------------------------------------------------------------------------
  // Properties
  // ---------------------------------------------------------------------------

  /** A context that creates no shader gives the message with the source's `nunknown error` spelling. */
  lemma CreateFailure(o: Oracle, before: seq<Call>, t: ShaderType, src: string)
    requires o.create(before + [CreateShader(t)]).None?
    ensures var r := Compiled(o, before, t, src);
      r.id.None? && !StatusOf(r.status) && r.calls == before + [CreateShader(t)] &&
      r.error == Some("could not create the " + ShaderName(t) + " shader:\nnunknown error")
  {
    var n := ShaderName(t);
    ShaderErrorText("create", t, "nunknown error");
    assert "could not create the " + n + " shader:\n" + "nunknown error" == "could not create the " + n + " shader:\nnunknown error";
  }

  /** The status reads true exactly when the shader was created and the compile status is truthy. */
  lemma StatusIsCompileStatus(o: Oracle, before: seq<Call>, t: ShaderType, src: string)
    ensures var r := Compiled(o, before, t, src);
      StatusOf(r.status) <==>
        r.id.Some? &&
        o.flag(before + [CreateShader(t), ShaderSource(r.id.value, src), CompileShader(r.id.value), GetCompileStatus(r.id.value)])
  {
    var created := before + [CreateShader(t)];
    var id := o.create(created);
    if id.Some? {
      assert created + [ShaderSource(id.value, src), CompileShader(id.value), GetCompileStatus(id.value)] ==
             before + [CreateShader(t), ShaderSource(id.value, src), CompileShader(id.value), GetCompileStatus(id.value)];
    }
  }

  /** A failed compilation reports the info log, or `unknown error`, and ends with the shader's deletion. */
  lemma CompileFailure(o: Oracle, before: seq<Call>, t: ShaderType, src: string)
    requires o.create(before + [CreateShader(t)]).Some?
    requires var created := before + [CreateShader(t)]; var h := o.create(created).value;
      !o.flag(created + [ShaderSource(h, src), CompileShader(h), GetCompileStatus(h)])
    ensures var r := Compiled(o, before, t, src); var h := r.id.value;
      var logged := before + [CreateShader(t), ShaderSource(h, src), CompileShader(h), GetCompileStatus(h), GetShaderInfoLog(h)];
      r.calls == logged + [DeleteShader(r.id)] &&
      r.error == Some("could not compile the " + ShaderName(t) + " shader:\n" + InfoMessage(o.log(logged)))
  {
    var created := before + [CreateShader(t)];
    var h := o.create(created).value;
    assert created + [ShaderSource(h, src), CompileShader(h), GetCompileStatus(h)] + [GetShaderInfoLog(h)] ==
           before + [CreateShader(t), ShaderSource(h, src), CompileShader(h), GetCompileStatus(h), GetShaderInfoLog(h)];
    ShaderErrorText("compile", t, InfoMessage(o.log(created + [ShaderSource(h, src), CompileShader(h), GetCompileStatus(h)] + [GetShaderInfoLog(h)])));
  }
}
