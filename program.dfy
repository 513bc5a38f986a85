/**
 * `GLSLProgram` (lib/glsl/program.ts): links two shaders into a program,
 * reports failures through the callback, deletes the program and its shaders
 * when linking fails, and memoises uniform locations by name.
 */
module Program {
  import opened Wrappers
  import opened WebGL
  import opened GlslObject
  import opened Shader

  /** The program's own `handleError` format. */
  function ProgramError(action: string, error: string): string {
    "could not " + action + " the GLSL program:\n" + error
  }

  /** What the constructor leaves; `shadersDeleted` says whether it ran `delete`. */
  datatype ProgramOutcome = ProgramOutcome(id: Option<Handle>, status: Option<bool>, calls: seq<Call>,
                                           error: Option<string>, shadersDeleted: bool)

  /**
   * The constructor on a context with oracle `o` that has received `before`,
   * for shaders whose ids are `vert` and `frag`. A program either links, with
   * status true and nothing reported, or reports exactly one message and its
   * status reads false.
   */
  function Linked(o: Oracle, before: seq<Call>, vert: Option<Handle>, frag: Option<Handle>): (r: ProgramOutcome)
    ensures StatusOf(r.status) <==> r.error.None?
    ensures StatusOf(r.status) ==> r.id.Some? && vert.Some? && frag.Some?
    ensures r.shadersDeleted ==> r.id.Some? && !StatusOf(r.status)
    ensures |r.calls| >= |before| && r.calls[..|before|] == before
  {
    if vert.None? || frag.None? then
      ProgramOutcome(None, None, before, Some(ProgramError("create", "not valid shader objects")), false)
    else
      var created := before + [CreateProgram];
      var id := o.create(created);
      if id.None? then
        ProgramOutcome(None, None, created, Some(ProgramError("create", "unknown error")), false)
      else
        var linked := created + [AttachShader(id.value, vert.value), AttachShader(id.value, frag.value),
                                 LinkProgram(id.value), GetLinkStatus(id.value)];
        if o.flag(linked) then
          ProgramOutcome(id, Some(true), linked, None, false)
        else
          var logged := linked + [GetProgramInfoLog(id.value)];
          ProgramOutcome(id, None, logged + [DeleteShader(vert), DeleteShader(frag), DeleteProgram(id)],
                         Some(ProgramError("link", InfoMessage(o.log(logged)))), true)
  }

  /** Attaches both shaders, links and reads the link status, in that order. */
  method AttachAndLink(gl: Device, h: Handle, vert: Handle, frag: Handle) returns (ok: bool)
    modifies gl`calls
    ensures gl.calls == old(gl.calls) + [AttachShader(h, vert), AttachShader(h, frag), LinkProgram(h), GetLinkStatus(h)]
    ensures ok == gl.oracle.flag(gl.calls)
  {
    gl.Issue(AttachShader(h, vert));
    gl.Issue(AttachShader(h, frag));
    gl.Issue(LinkProgram(h));
    ok := gl.Flag(GetLinkStatus(h));
  }

  class GLSLProgram {
    const gl: Device
    const vert: GLSLShader
    const frag: GLSLShader
    var id: Option<Handle>
    var status: Option<bool>
    /** `_store`: the locations already asked for, `None` standing for a cached `null`. */
    var store: map<string, Option<Handle>>

    function Status(): bool
      reads this
    {
      StatusOf(status)
    }

    /** The shaders belong to the program's context. */
    predicate SameContext() {
      vert.gl == gl && frag.gl == gl
    }

    constructor(gl: Device, vert: GLSLShader, frag: GLSLShader, onerror: ErrorSink)
      requires vert.gl == gl && frag.gl == gl
      modifies gl, onerror, vert, frag
      ensures this.gl == gl && this.vert == vert && this.frag == frag && SameContext()
      ensures store == map[]
      ensures var r := Linked(gl.oracle, old(gl.calls), old(vert.id), old(frag.id));
        id == r.id && status == r.status && gl.calls == r.calls &&
        onerror.messages == Reported(old(onerror.messages), r.error) &&
        (r.shadersDeleted ==> vert.status == None && frag.status == None) &&
        (!r.shadersDeleted ==> vert.status == old(vert.status) && frag.status == old(frag.status))
      ensures vert.id == old(vert.id) && frag.id == old(frag.id)
    {
      this.gl := gl;
      this.vert := vert;
      this.frag := frag;
      store := map[];
      id := None;
      status := None;
      new;
      if vert.id.None? || frag.id.None? {
        id := None;
        var _ := HandleError(ProgramError("create", "not valid shader objects"), onerror);
      } else {
        var h := gl.Create(CreateProgram);
        id := h;
        if h.None? {
          var _ := HandleError(ProgramError("create", "unknown error"), onerror);
        } else {
          var ok := AttachAndLink(gl, h.value, vert.id.value, frag.id.value);
          status := Some(ok);
          if !ok {
            var log := gl.Log(GetProgramInfoLog(h.value));
            var _ := HandleError(ProgramError("link", InfoMessage(log)), onerror);
            Delete();
          }
        }
      }
    }

    /** `use`: only a program whose status is true is bound. */
    method Use()
      modifies gl
      ensures gl.calls == old(gl.calls) + (if Status() then [UseProgram(id)] else [])
    {
      if Status() {
        gl.Issue(UseProgram(id));
      }
    }

    /**
     * `getLocation`: `None` without a query when the status is false; the
     * cached answer, `null` included, when the name was asked for before;
     * otherwise the context's answer, which is cached.
     */
    method GetLocation(name: string) returns (loc: Option<Handle>)
      modifies this, gl
      ensures status == old(status) && id == old(id)
      ensures !Status() ==> loc.None? && store == old(store) && gl.calls == old(gl.calls)
      ensures Status() && name in old(store) ==> loc == old(store)[name] && store == old(store) && gl.calls == old(gl.calls)
      ensures Status() && name !in old(store) ==>
        gl.calls == old(gl.calls) + [GetUniformLocation(id, name)] &&
        loc == gl.oracle.location(gl.calls) &&
        store == old(store)[name := loc]
    {
      if !Status() {
        return None;
      }
      if name in store {
        return store[name];
      }
      loc := gl.Location(GetUniformLocation(id, name));
      store := store[name := loc];
    }

    /** `deleteShaders`. */
    method DeleteShaders()
      requires SameContext()
      modifies vert`status, frag`status, gl`calls
      ensures gl.calls == old(gl.calls) + [DeleteShader(vert.id), DeleteShader(frag.id)]
      ensures vert.status == None && frag.status == None
    {
      vert.Delete();
      frag.Delete();
    }

    /**
     * `delete`: its guard compares the boolean `status` getter with
     * `undefined` and so never blocks; both shaders and the program are
     * deleted and the status unset.
     */
    method Delete()
      requires SameContext()
      modifies this`status, vert`status, frag`status, gl`calls
      ensures gl.calls == old(gl.calls) + [DeleteShader(vert.id), DeleteShader(frag.id), DeleteProgram(id)]
      ensures status == None && !Status()
      ensures vert.status == None && frag.status == None
    {
      DeleteShaders();
      gl.Issue(DeleteProgram(id));
      status := None;
    }
  }

  /** Asking twice for one location queries the context at most once and answers the same both times. */
  method LocateTwice(p: GLSLProgram, name: string) returns (first: Option<Handle>, second: Option<Handle>)
    modifies p, p.gl
    ensures first == second
    ensures |p.gl.calls| <= |old(p.gl.calls)| + 1
  {
    first := p.GetLocation(name);
    second := p.GetLocation(name);
  }

  // ---------------------------------------------------------------------------
  // Properties
  // ---------------------------------------------------------------------------

  /** A missing shader id means no program, a false status and the `not valid shader objects` message. */
  lemma InvalidShaders(o: Oracle, before: seq<Call>, vert: Option<Handle>, frag: Option<Handle>)
    requires vert.None? || frag.None?
    ensures var r := Linked(o, before, vert, frag);
      r.id.None? && !StatusOf(r.status) && r.calls == before &&
      r.error == Some("could not create the GLSL program:\n" + "not valid shader objects")
  {
    assert "could not " + "create" + " the GLSL program:\n" == "could not create the GLSL program:\n";
  }

  /** The status reads true exactly when both shaders exist, a program was created and the link status is truthy. */
  lemma StatusIsLinkStatus(o: Oracle, before: seq<Call>, vert: Option<Handle>, frag: Option<Handle>)
    ensures var r := Linked(o, before, vert, frag);
      StatusOf(r.status) <==>
        vert.Some? && frag.Some? && r.id.Some? &&
        r.id == o.create(before + [CreateProgram]) &&
        o.flag(before + [CreateProgram, AttachShader(r.id.value, vert.value), AttachShader(r.id.value, frag.value),
                         LinkProgram(r.id.value), GetLinkStatus(r.id.value)])
  {
    if vert.Some? && frag.Some? {
      var created := before + [CreateProgram];
      var id := o.create(created);
      if id.Some? {
        assert created + [AttachShader(id.value, vert.value), AttachShader(id.value, frag.value),
                          LinkProgram(id.value), GetLinkStatus(id.value)] ==
               before + [CreateProgram, AttachShader(id.value, vert.value), AttachShader(id.value, frag.value),
                         LinkProgram(id.value), GetLinkStatus(id.value)];
      }
    }
  }

  /** A failed link reports the info log, or `unknown error`, then deletes both shaders and the program. */
  lemma LinkFailure(o: Oracle, before: seq<Call>, vert: Handle, frag: Handle)
    requires o.create(before + [CreateProgram]).Some?
    requires var h := o.create(before + [CreateProgram]).value;
      !o.flag(before + [CreateProgram, AttachShader(h, vert), AttachShader(h, frag), LinkProgram(h), GetLinkStatus(h)])
    ensures var r := Linked(o, before, Some(vert), Some(frag)); var h := r.id.value;
      var logged := before + [CreateProgram, AttachShader(h, vert), AttachShader(h, frag), LinkProgram(h),
                              GetLinkStatus(h), GetProgramInfoLog(h)];
      r.shadersDeleted &&
      r.calls == logged + [DeleteShader(Some(vert)), DeleteShader(Some(frag)), DeleteProgram(r.id)] &&
      r.error == Some("could not link the GLSL program:\n" + InfoMessage(o.log(logged)))
  {
    var created := before + [CreateProgram];
    var h := o.create(created).value;
    var linked := created + [AttachShader(h, vert), AttachShader(h, frag), LinkProgram(h), GetLinkStatus(h)];
    assert linked == before + [CreateProgram, AttachShader(h, vert), AttachShader(h, frag), LinkProgram(h), GetLinkStatus(h)];
    assert linked + [GetProgramInfoLog(h)] ==
           before + [CreateProgram, AttachShader(h, vert), AttachShader(h, frag), LinkProgram(h),
                     GetLinkStatus(h), GetProgramInfoLog(h)];
    var e := InfoMessage(o.log(linked + [GetProgramInfoLog(h)]));
    assert "could not " + "link" + " the GLSL program:\n" == "could not link the GLSL program:\n";
  }
}
