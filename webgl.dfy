/**
 * The WebGL context the GLSL objects drive, as a device that records every
 * call it receives. What the GPU answers (a new object or `null`, a compile
 * or link flag, an info log, a uniform location) is an oracle: a function of
 * the calls received so far, including the query itself.
 */
module WebGL {
  import opened Wrappers

  /** A `WebGLObject` (shader, program, buffer, vertex array) or a `WebGLUniformLocation`. */
  datatype Handle = Handle(id: nat)

  datatype ShaderType = VertexShader | FragmentShader

  datatype BufferTarget = ArrayBuffer | ElementArrayBuffer

  datatype Usage = StaticDraw | DynamicDraw

  datatype Mode = Lines | LineStrip | TriangleStrip

  /**
   * The contents of a `bufferData` upload: 32-bit floats, unsigned bytes, or
   * floats that are each an integer over a common denominator.
   */
  datatype BufferData = Floats(floats: seq<real>) | Bytes(bytes: seq<int>) | Fractions(numerators: seq<int>, denominator: nat)

  datatype Call =
    | CreateShader(shaderType: ShaderType)
    | ShaderSource(shader: Handle, src: string)
    | CompileShader(shader: Handle)
    | GetCompileStatus(shader: Handle)
    | GetShaderInfoLog(shader: Handle)
    | DeleteShader(target: Option<Handle>)
    | CreateProgram
    | AttachShader(program: Handle, shader: Handle)
    | LinkProgram(program: Handle)
    | GetLinkStatus(program: Handle)
    | GetProgramInfoLog(program: Handle)
    | UseProgram(target: Option<Handle>)
    | GetUniformLocation(target: Option<Handle>, name: string)
    | DeleteProgram(target: Option<Handle>)
    | CreateVertexArray
    | CreateBuffer
    | BindVertexArray(target: Option<Handle>)
    | BindBuffer(bufferTarget: BufferTarget, target: Option<Handle>)
    | UploadBuffer(bufferTarget: BufferTarget, data: BufferData, usage: Usage)
    | EnableVertexAttribArray(index: nat)
    /** `vertexAttribPointer(index, size, FLOAT, false, stride, offset)`. */
    | VertexAttribPointer(index: nat, size: nat, stride: nat, offset: int)
    | DrawArrays(mode: Mode, first: int, count: int)
    /** `drawElements(mode, count, UNSIGNED_BYTE, offset)`: `count` byte indices from entry `offset`. */
    | DrawElements(mode: Mode, count: int, offset: int)
    | DeleteBuffer(target: Option<Handle>)
    | DeleteVertexArray(target: Option<Handle>)

  /**
   * The GPU's answers, each a function of the calls received so far: `create`
   * for the `create*` calls (`None` is `null`), `flag` for the compile and
   * link status, `log` for the info logs (`None` is `null`), `location` for
   * `getUniformLocation`.
   */
  datatype Oracle = Oracle(
    create: seq<Call> -> Option<Handle>,
    flag: seq<Call> -> bool,
    log: seq<Call> -> Option<string>,
    location: seq<Call> -> Option<Handle>)

  class Device {
    /** Every call received, oldest first. */
    var calls: seq<Call>
    const oracle: Oracle

    constructor(oracle: Oracle)
      ensures calls == [] && this.oracle == oracle
    {
      calls := [];
      this.oracle := oracle;
    }

    /** A call that answers nothing. */
    method Issue(c: Call)
      modifies this`calls
      ensures calls == old(calls) + [c]
    {
      calls := calls + [c];
    }

    /** A `create*` call: the oracle's new object, or `None` for `null`. */
    method Create(c: Call) returns (h: Option<Handle>)
      modifies this`calls
      ensures calls == old(calls) + [c]
      ensures h == oracle.create(calls)
    {
      calls := calls + [c];
      h := oracle.create(calls);
    }

    /** `getShaderParameter(COMPILE_STATUS)` or `getProgramParameter(LINK_STATUS)`, made boolean with `!!`. */
    method Flag(c: Call) returns (b: bool)
      modifies this`calls
      ensures calls == old(calls) + [c]
      ensures b == oracle.flag(calls)
    {
      calls := calls + [c];
      b := oracle.flag(calls);
    }

    /** `getShaderInfoLog` or `getProgramInfoLog`. */
    method Log(c: Call) returns (s: Option<string>)
      modifies this`calls
      ensures calls == old(calls) + [c]
      ensures s == oracle.log(calls)
    {
      calls := calls + [c];
      s := oracle.log(calls);
    }

    /** `getUniformLocation`. */
    method Location(c: Call) returns (l: Option<Handle>)
      modifies this`calls
      ensures calls == old(calls) + [c]
      ensures l == oracle.location(calls)
    {
      calls := calls + [c];
      l := oracle.location(calls);
    }
  }
}
