/**
 * The camera of lib/glsl/camera.ts: projection and view state, setters that
 * clamp the field of view, mouse rotation, zoom, travel, and reset to stored
 * default snapshots.
 *
 * Angles: `fov`, `fovMin` and `fovMax` are stored in radians and read and
 * written in degrees; `pitch` and `yaw` are stored in degrees. The matrices
 * are kept as the symbolic terms of the gl-matrix call that computes them.
 */
module Camera {
  import opened Wrappers
  import opened Numerics
  import opened GlslHelpers

  /** A `vec3` as a value. */
  datatype Vec = Vec(x: real, y: real, z: real)

  function Add(a: Vec, b: Vec): Vec { Vec(a.x + b.x, a.y + b.y, a.z + b.z) }

  /** `vec3.scaleAndAdd(out, a, b, s)`: `a + b·s`. */
  function ScaleAndAdd(a: Vec, b: Vec, s: real): Vec {
    Vec(a.x + b.x * s, a.y + b.y * s, a.z + b.z * s)
  }

  datatype ProjectionType = Perspective | Orthogonal

  datatype Reference = Self | Target

  datatype Movement = Right | Left | Up | Down | Front | Back

  /**
   * A camera matrix as the gl-matrix call that computes it. `OrthoOf` stands
   * for `ortho(-x, x, -y, y, near, far)` with `y = atan(fov / 2)` and
   * `x = y · width / height`; `PerspectiveOf` for `perspective(fov,
   * width / height, near, far)`; `LookAtOf` for `lookAt(eye, center, up)`.
   */
  datatype Matrix =
    | Unset
    | LookAtOf(eye: Vec, center: Vec, up: Vec)
    | PerspectiveOf(fov: real, width: real, height: real, near: real, far: real)
    | OrthoOf(fov: real, width: real, height: real, near: real, far: real)

  /** The foreign numerics the camera calls: gl-matrix's `vec3.normalize` and `vec3.cross`, and `Math`. */
  datatype GlLib = GlLib(normalize: Vec -> Vec, cross: (Vec, Vec) -> Vec, math: MathLib)

  datatype ProjectionDefaults = ProjectionDefaults(kind: ProjectionType, near: real, far: real, fov: real, fovMin: real, fovMax: real)

  datatype ViewDefaults = ViewDefaults(reference: Reference, position: Vec, front: Vec, right: Vec, up: Vec, pitch: real, yaw: real)

  datatype DynamicDefaults = DynamicDefaults(fast: bool, speed: real, speedFast: real, sensibility: real, zoomFactor: real)

  /** `Partial<GLSLCameraProjection>`: `None` is an undefined field. */
  datatype ProjectionPatch = ProjectionPatch(
    kind: Option<ProjectionType>, near: Option<real>, far: Option<real>,
    fov: Option<real>, fovMin: Option<real>, fovMax: Option<real>)

  datatype ViewPatch = ViewPatch(
    reference: Option<Reference>, position: Option<Vec>, front: Option<Vec>, right: Option<Vec>,
    up: Option<Vec>, pitch: Option<real>, yaw: Option<real>)

  datatype DynamicPatch = DynamicPatch(
    fast: Option<bool>, speed: Option<real>, speedFast: Option<real>,
    sensibility: Option<real>, zoomFactor: Option<real>)

  /** The static default projection: perspective, clipping 0.01 to 10, fov 30°, bounds ε° and 180°. */
  const DEFAULT_PROJECTION: ProjectionDefaults :=
    ProjectionDefaults(Perspective, 0.01, 10.0, ToRad(30.0), ToRad(EPSILON), ToRad(180.0))

  /** The static default view: at (0,0,2) looking down -z, pitch -90 and yaw 0. */
  const DEFAULT_VIEW: ViewDefaults :=
    ViewDefaults(Self, Vec(0.0, 0.0, 2.0), Vec(0.0, 0.0, -1.0), Vec(1.0, 0.0, 0.0), Vec(0.0, 1.0, 0.0), -90.0, 0.0)

  /** The static default dynamics. */
  const DEFAULT_DYNAMIC: DynamicDefaults := DynamicDefaults(false, 0.5, 1.0, 15.0, 1.0625)

  /** The defaults after the `defaultProjection` setter: each field merged on its own. */
  function PatchProjection(d: ProjectionDefaults, p: ProjectionPatch): ProjectionDefaults {
    ProjectionDefaults(MergeValue(d.kind, p.kind), MergeValue(d.near, p.near), MergeValue(d.far, p.far),
                       MergeValue(d.fov, p.fov), MergeValue(d.fovMin, p.fovMin), MergeValue(d.fovMax, p.fovMax))
  }

  function PatchView(d: ViewDefaults, p: ViewPatch): ViewDefaults {
    ViewDefaults(MergeValue(d.reference, p.reference), MergeValue(d.position, p.position),
                 MergeValue(d.front, p.front), MergeValue(d.right, p.right), MergeValue(d.up, p.up),
                 MergeValue(d.pitch, p.pitch), MergeValue(d.yaw, p.yaw))
  }

  function PatchDynamic(d: DynamicDefaults, p: DynamicPatch): DynamicDefaults {
    DynamicDefaults(MergeValue(d.fast, p.fast), MergeValue(d.speed, p.speed), MergeValue(d.speedFast, p.speedFast),
                    MergeValue(d.sensibility, p.sensibility), MergeValue(d.zoomFactor, p.zoomFactor))
  }

  /** `glMatrix.equals(a, b)`: equal up to `EPSILON`, relative above magnitude 1. */
  predicate NearlyEqual(a: real, b: real) {
    Abs(a - b) <= EPSILON * Max(1.0, Max(Abs(a), Abs(b)))
  }

  /** The height the resolution setters store: `EPSILON` for a height equal to 0. */
  function StoredHeight(height: real): (h: real)
    ensures h != 0.0
    ensures h == EPSILON <==> -EPSILON <= height <= EPSILON
  {
    if NearlyEqual(height, 0.0) then EPSILON else height
  }

  /** A view state: the fields `resetView` restores plus the rotation reference. */
  datatype ViewState = ViewState(reference: Reference, position: Vec, front: Vec, right: Vec, up: Vec, pitch: real, yaw: real)

  class GLSLCamera {
    var defaultProjection: ProjectionDefaults
    var defaultView: ViewDefaults
    var defaultDynamic: DynamicDefaults

    var projection: ProjectionType
    var width: real
    var height: real
    var near: real
    var far: real
    /** Field of view, in radians. */
    var fov: real
    var fovMin: real
    var fovMax: real
    var perspective: Matrix
    var orthogonal: Matrix

    var reference: Reference
    var position: Vec
    var front: Vec
    var right: Vec
    var up: Vec
    /** Pitch, in degrees. */
    var pitch: real
    /** Yaw, in degrees. */
    var yaw: real
    var view: Matrix

    var fast: bool
    var speed: real
    var speedFast: real
    var sensibility: real
    var zoomFactor: real

    const lib: GlLib

    /** How many times the projection matrices and the view matrix were computed. */
    ghost var projectionUpdates: nat
    ghost var viewUpdates: nat

    /** The projection matrices the current fields give. */
    function PerspectiveMatrix(): Matrix
      reads this
    {
      PerspectiveOf(fov, width, height, near, far)
    }

    function OrthogonalMatrix(): Matrix
      reads this
    {
      OrthoOf(fov, width, height, near, far)
    }

    function ViewMatrix(): Matrix
      reads this
    {
      LookAtOf(position, front, up)
    }

    /** The matrices agree with the fields, and `fovMin <= fovMax`. */
    ghost predicate Valid()
      reads this
    {
      perspective == PerspectiveMatrix() && orthogonal == OrthogonalMatrix() && view == ViewMatrix() &&
      fovMin <= fovMax
    }

    function Projection(): ProjectionDefaults
      reads this
    {
      ProjectionDefaults(projection, near, far, fov, fovMin, fovMax)
    }

    function ViewFields(): ViewState
      reads this
    {
      ViewState(reference, position, front, right, up, pitch, yaw)
    }

    function Dynamic(): DynamicDefaults
      reads this
    {
      DynamicDefaults(fast, speed, speedFast, sensibility, zoomFactor)
    }

    function Resolution(): (real, real)
      reads this
    {
      (width, height)
    }

    /** The `fov`, `fovMin` and `fovMax` getters: the radian fields in degrees, which convert back to them. */
    function FovDegrees(): (deg: real)
      reads this
      ensures ToRad(deg) == fov
    {
      ToRadOfToDeg(fov);
      ToDeg(fov)
    }

    function FovMinDegrees(): (deg: real)
      reads this
      ensures ToRad(deg) == fovMin
    {
      ToRadOfToDeg(fovMin);
      ToDeg(fovMin)
    }

    function FovMaxDegrees(): (deg: real)
      reads this
      ensures ToRad(deg) == fovMax
    {
      ToRadOfToDeg(fovMax);
      ToDeg(fovMax)
    }

    /** A camera with the static defaults at the given resolution (300 by 150 when the caller gives none). */
    constructor(width: real, height: real, lib: GlLib)
      ensures Valid()
      ensures defaultProjection == DEFAULT_PROJECTION && defaultView == DEFAULT_VIEW && defaultDynamic == DEFAULT_DYNAMIC
      ensures Projection() == DEFAULT_PROJECTION
      ensures ViewFields() == ViewState(DEFAULT_VIEW.reference, DEFAULT_VIEW.position, DEFAULT_VIEW.front,
                                        DEFAULT_VIEW.right, DEFAULT_VIEW.up, DEFAULT_VIEW.pitch, DEFAULT_VIEW.yaw)
      ensures Dynamic() == DEFAULT_DYNAMIC
      ensures Resolution() == (width, height) && this.lib == lib
      ensures projectionUpdates == 1 && viewUpdates == 1
    {
      defaultProjection := DEFAULT_PROJECTION;
      defaultView := DEFAULT_VIEW;
      defaultDynamic := DEFAULT_DYNAMIC;
      projection := DEFAULT_PROJECTION.kind;
      near := DEFAULT_PROJECTION.near;
      far := DEFAULT_PROJECTION.far;
      fov := DEFAULT_PROJECTION.fov;
      fovMin := DEFAULT_PROJECTION.fovMin;
      fovMax := DEFAULT_PROJECTION.fovMax;
      reference := DEFAULT_VIEW.reference;
      position := DEFAULT_VIEW.position;
      front := DEFAULT_VIEW.front;
      right := DEFAULT_VIEW.right;
      up := DEFAULT_VIEW.up;
      pitch := DEFAULT_VIEW.pitch;
      yaw := DEFAULT_VIEW.yaw;
      fast := DEFAULT_DYNAMIC.fast;
      speed := DEFAULT_DYNAMIC.speed;
      speedFast := DEFAULT_DYNAMIC.speedFast;
      sensibility := DEFAULT_DYNAMIC.sensibility;
      zoomFactor := DEFAULT_DYNAMIC.zoomFactor;
      this.width := width;
      this.height := height;
      this.lib := lib;
      view := LookAtOf(DEFAULT_VIEW.position, DEFAULT_VIEW.front, DEFAULT_VIEW.up);
      perspective := PerspectiveOf(DEFAULT_PROJECTION.fov, width, height, DEFAULT_PROJECTION.near, DEFAULT_PROJECTION.far);
      orthogonal := OrthoOf(DEFAULT_PROJECTION.fov, width, height,
                            DEFAULT_PROJECTION.near, DEFAULT_PROJECTION.far);
      viewUpdates := 1;
      projectionUpdates := 1;
      ToRadMonotonic(EPSILON, 180.0);
    }

    /** `updateViewMatrix`. */
    method UpdateViewMatrix()
      modifies this`view, this`viewUpdates
      ensures view == ViewMatrix() && viewUpdates == old(viewUpdates) + 1
    {
      view := LookAtOf(position, front, up);
      viewUpdates := viewUpdates + 1;
    }

    /** `updateProjectionMatrices`. */
    method UpdateProjectionMatrices()
      modifies this`perspective, this`orthogonal, this`projectionUpdates
      ensures perspective == PerspectiveMatrix() && orthogonal == OrthogonalMatrix()
      ensures projectionUpdates == old(projectionUpdates) + 1
    {
      perspective := PerspectiveOf(fov, width, height, near, far);
      orthogonal := OrthoOf(fov, width, height, near, far);
      projectionUpdates := projectionUpdates + 1;
    }

    /** `updateMatrices`: the view matrix, then the projection matrices. */
    method UpdateMatrices()
      modifies this`view, this`viewUpdates, this`perspective, this`orthogonal, this`projectionUpdates
      ensures view == ViewMatrix() && perspective == PerspectiveMatrix() && orthogonal == OrthogonalMatrix()
      ensures projectionUpdates == old(projectionUpdates) + 1 && viewUpdates == old(viewUpdates) + 1
    {
      UpdateViewMatrix();
      UpdateProjectionMatrices();
    }

    // -------------------------------------------------------------------------
    // Default snapshots (lib/glsl/camera.ts:249-313)
    // -------------------------------------------------------------------------

    method SetDefaultProjection(values: ProjectionPatch)
      requires Valid()
      modifies this`defaultProjection
      ensures Valid()
      ensures defaultProjection == PatchProjection(old(defaultProjection), values)
    {
      defaultProjection := PatchProjection(defaultProjection, values);
    }

    method SetDefaultView(values: ViewPatch)
      requires Valid()
      modifies this`defaultView
      ensures Valid()
      ensures defaultView == PatchView(old(defaultView), values)
    {
      defaultView := PatchView(defaultView, values);
    }

    method SetDefaultDynamic(values: DynamicPatch)
      requires Valid()
      modifies this`defaultDynamic
      ensures Valid()
      ensures defaultDynamic == PatchDynamic(old(defaultDynamic), values)
    {
      defaultDynamic := PatchDynamic(defaultDynamic, values);
    }

    // -------------------------------------------------------------------------
    // Projection setters (lib/glsl/camera.ts:321-480)
    // -------------------------------------------------------------------------

    /** The `projection` setter: only the type changes; nothing is recomputed. */
    method SetProjection(kind: ProjectionType)
      requires Valid()
      modifies this`projection
      ensures Valid()
      ensures projection == kind
    {
      projection := kind;
    }

    /**
     * The `resolution` setter: a changed width is stored, a changed height is
     * stored as `StoredHeight`, and the projection is recomputed once when
     * either changed.
     */
    method SetResolution(w: real, h: real)
      requires Valid()
      modifies this`width, this`height, this`perspective, this`orthogonal, this`projectionUpdates
      ensures Valid()
      ensures width == w
      ensures height == (if h != old(height) then StoredHeight(h) else old(height))
      ensures projectionUpdates == old(projectionUpdates) + (if w != old(width) || h != old(height) then 1 else 0)
    {
      var update := false;
      if w != width {
        update := true;
        width := w;
      }
      if h != height {
        update := true;
        height := StoredHeight(h);
      }
      if update {
        UpdateProjectionMatrices();
      }
    }

    method SetWidth(w: real)
      requires Valid()
      modifies this`width, this`perspective, this`orthogonal, this`projectionUpdates
      ensures Valid()
      ensures width == w
      ensures projectionUpdates == old(projectionUpdates) + (if w != old(width) then 1 else 0)
    {
      if width != w {
        width := w;
        UpdateProjectionMatrices();
      }
    }

    method SetHeight(h: real)
      requires Valid()
      modifies this`height, this`perspective, this`orthogonal, this`projectionUpdates
      ensures Valid()
      ensures height == (if h != old(height) then StoredHeight(h) else old(height))
      ensures projectionUpdates == old(projectionUpdates) + (if h != old(height) then 1 else 0)
    {
      if height != h {
        height := StoredHeight(h);
        UpdateProjectionMatrices();
      }
    }

    /** The `clipping` setter: both planes stored, one recompute when either changed. */
    method SetClipping(n: real, f: real)
      requires Valid()
      modifies this`near, this`far, this`perspective, this`orthogonal, this`projectionUpdates
      ensures Valid()
      ensures near == n && far == f
      ensures projectionUpdates == old(projectionUpdates) + (if n != old(near) || f != old(far) then 1 else 0)
    {
      var update := false;
      if n != near {
        update := true;
        near := n;
      }
      if f != far {
        update := true;
        far := f;
      }
      if update {
        UpdateProjectionMatrices();
      }
    }

    method SetNear(n: real)
      requires Valid()
      modifies this`near, this`perspective, this`orthogonal, this`projectionUpdates
      ensures Valid()
      ensures near == n
      ensures projectionUpdates == old(projectionUpdates) + (if n != old(near) then 1 else 0)
    {
      if near != n {
        near := n;
        UpdateProjectionMatrices();
      }
    }

    method SetFar(f: real)
      requires Valid()
      modifies this`far, this`perspective, this`orthogonal, this`projectionUpdates
      ensures Valid()
      ensures far == f
      ensures projectionUpdates == old(projectionUpdates) + (if f != old(far) then 1 else 0)
    {
      if far != f {
        far := f;
        UpdateProjectionMatrices();
      }
    }

    /**
     * The `fov` setter, in degrees. Its guard compares the degree argument
     * with the radian field, so an argument numerically equal to the stored
     * radians is ignored.
     */
    method SetFov(deg: real)
      requires Valid()
      modifies this`fov, this`perspective, this`orthogonal, this`projectionUpdates
      ensures Valid()
      ensures fov == if deg != old(fov) then Clamp(fovMin, fovMax, ToRad(deg)) else old(fov)
      ensures deg != old(fov) ==> fovMin <= fov <= fovMax
      ensures deg != old(fov) && fovMin <= ToRad(deg) <= fovMax ==> FovDegrees() == deg
      ensures projectionUpdates == old(projectionUpdates) + (if deg != old(fov) then 1 else 0)
    {
      if fov != deg {
        ToDegOfToRad(deg);
        var rad := ToRad(deg);
        fov := Clamp(fovMin, fovMax, rad);
        UpdateProjectionMatrices();
      }
    }

    /**
     * The `fovMin` setter, in degrees, with the same degree-against-radian
     * guard: the bound becomes at most `fovMax`, and a smaller `fov` is
     * raised to it.
     */
    method SetFovMin(deg: real)
      requires Valid()
      modifies this`fovMin, this`fov, this`perspective, this`orthogonal, this`projectionUpdates
      ensures Valid()
      ensures deg == old(fovMin) ==> fovMin == old(fovMin) && fov == old(fov)
      ensures deg != old(fovMin) ==>
        fovMin == Min(old(fovMax), ToRad(deg)) &&
        fov == (if old(fov) < fovMin then fovMin else old(fov))
      ensures fovMin <= fov || fov == old(fov)
      ensures projectionUpdates == old(projectionUpdates) + (if fov != old(fov) then 1 else 0)
    {
      if fovMin != deg {
        var rad := Min(fovMax, ToRad(deg));
        fovMin := rad;
        if fov < rad {
          fov := rad;
          UpdateProjectionMatrices();
        }
      }
    }

    /** The `fovMax` setter: the bound becomes at least `fovMin`, and a larger `fov` is lowered to it. */
    method SetFovMax(deg: real)
      requires Valid()
      modifies this`fovMax, this`fov, this`perspective, this`orthogonal, this`projectionUpdates
      ensures Valid()
      ensures deg == old(fovMax) ==> fovMax == old(fovMax) && fov == old(fov)
      ensures deg != old(fovMax) ==>
        fovMax == Max(old(fovMin), ToRad(deg)) &&
        fov == (if old(fov) > fovMax then fovMax else old(fov))
      ensures fov <= fovMax || fov == old(fov)
      ensures projectionUpdates == old(projectionUpdates) + (if fov != old(fov) then 1 else 0)
    {
      if fovMax != deg {
        var rad := Max(fovMin, ToRad(deg));
        fovMax := rad;
        if fov > rad {
          fov := rad;
          UpdateProjectionMatrices();
        }
      }
    }

    // -------------------------------------------------------------------------
    // View setters (lib/glsl/camera.ts:498-568)
    // -------------------------------------------------------------------------

    method SetReference(r: Reference)
      requires Valid()
      modifies this`reference
      ensures Valid()
      ensures reference == r
    {
      reference := r;
    }

    /** The `position` setter: copies the vector and recomputes every matrix. */
    method SetPosition(p: Vec)
      requires Valid()
      modifies this`position, this`view, this`viewUpdates, this`perspective, this`orthogonal, this`projectionUpdates
      ensures Valid()
      ensures position == p
      ensures projectionUpdates == old(projectionUpdates) + 1 && viewUpdates == old(viewUpdates) + 1
    {
      position := p;
      UpdateMatrices();
    }

    /** The `front` setter: the normalized vector, then `right = front × up`. */
    method SetFront(f: Vec)
      requires Valid()
      modifies this`front, this`right, this`view, this`viewUpdates
      ensures Valid()
      ensures front == lib.normalize(f) && right == lib.cross(front, up)
      ensures viewUpdates == old(viewUpdates) + 1
    {
      front := lib.normalize(f);
      right := lib.cross(front, up);
      UpdateViewMatrix();
    }

    /** The `up` setter: the normalized vector, then `right = front × up`. */
    method SetUp(u: Vec)
      requires Valid()
      modifies this`up, this`right, this`view, this`viewUpdates
      ensures Valid()
      ensures up == lib.normalize(u) && right == lib.cross(front, up)
      ensures viewUpdates == old(viewUpdates) + 1
    {
      up := lib.normalize(u);
      right := lib.cross(front, up);
      UpdateViewMatrix();
    }

    /**
     * The `rotation` setter, angles in degrees: `front` from the first two
     * angles, the x and y of `up` from the third (its z is kept), both
     * normalized, then `right = front × up`.
     */
    method SetRotation(a0: real, a1: real, a2: real)
      requires Valid()
      modifies this`front, this`up, this`right, this`view, this`viewUpdates
      ensures Valid()
      ensures front == lib.normalize(RotationFront(lib.math, a1, a0))
      ensures up == lib.normalize(Vec(lib.math.sin(ToRad(a2)), lib.math.cos(ToRad(a2)), old(up).z))
      ensures right == lib.cross(front, up)
      ensures viewUpdates == old(viewUpdates) + 1
    {
      var m := lib.math;
      var f := lib.normalize(RotationFront(m, a1, a0));
      var u := lib.normalize(Vec(m.sin(ToRad(a2)), m.cos(ToRad(a2)), up.z));
      front, up, right := f, u, lib.cross(f, u);
      UpdateViewMatrix();
    }

    // -------------------------------------------------------------------------
    // Reset (lib/glsl/camera.ts:187-218, 586-605)
    // -------------------------------------------------------------------------

    /** `resetProjection`: type, clipping and fov from the default snapshot; not `fovMin` or `fovMax`. */
    method ResetProjection()
      modifies this`projection, this`near, this`far, this`fov
      ensures projection == defaultProjection.kind && near == defaultProjection.near
      ensures far == defaultProjection.far && fov == defaultProjection.fov
      ensures defaultProjection == old(defaultProjection) && defaultView == old(defaultView) && defaultDynamic == old(defaultDynamic)
    {
      projection, near, far, fov := defaultProjection.kind, defaultProjection.near, defaultProjection.far, defaultProjection.fov;
    }

    /** `resetView`: position, the three directions, pitch and yaw; not the rotation reference. */
    method ResetView()
      modifies this`position, this`front, this`right, this`up, this`pitch, this`yaw
      ensures position == defaultView.position && front == defaultView.front && right == defaultView.right
      ensures up == defaultView.up && pitch == defaultView.pitch && yaw == defaultView.yaw
      ensures defaultProjection == old(defaultProjection) && defaultView == old(defaultView) && defaultDynamic == old(defaultDynamic)
    {
      position, front, right, up, pitch, yaw :=
        defaultView.position, defaultView.front, defaultView.right, defaultView.up, defaultView.pitch, defaultView.yaw;
    }

    /** `resetDynamic`. */
    method ResetDynamic()
      modifies this`fast, this`speed, this`speedFast, this`sensibility, this`zoomFactor
      ensures Dynamic() == defaultDynamic
      ensures defaultProjection == old(defaultProjection) && defaultView == old(defaultView) && defaultDynamic == old(defaultDynamic)
    {
      fast, speed, speedFast, sensibility, zoomFactor :=
        defaultDynamic.fast, defaultDynamic.speed, defaultDynamic.speedFast, defaultDynamic.sensibility, defaultDynamic.zoomFactor;
    }

    /**
     * `reset`: type, clipping, fov, the view vectors, pitch, yaw and the
     * dynamics return to the stored defaults; `fovMin`, `fovMax`, the
     * resolution and the rotation reference are left as they are.
     */
    method Reset()
      requires Valid()
      modifies this`projection, this`near, this`far, this`fov, this`position, this`front, this`right, this`up, this`pitch, this`yaw,
        this`fast, this`speed, this`speedFast, this`sensibility, this`zoomFactor, this`view, this`viewUpdates, this`perspective, this`orthogonal, this`projectionUpdates
      ensures Valid()
      ensures projection == defaultProjection.kind && near == defaultProjection.near
      ensures far == defaultProjection.far && fov == defaultProjection.fov
      ensures position == defaultView.position && front == defaultView.front && right == defaultView.right
      ensures up == defaultView.up && pitch == defaultView.pitch && yaw == defaultView.yaw
      ensures Dynamic() == defaultDynamic
      ensures projectionUpdates == old(projectionUpdates) + 1 && viewUpdates == old(viewUpdates) + 1
    {
      ResetProjection();
      ResetView();
      ResetDynamic();
      UpdateMatrices();
    }

    /** `resetGeometry`: `reset` without the dynamics. */
    method ResetGeometry()
      requires Valid()
      modifies this`projection, this`near, this`far, this`fov, this`position, this`front, this`right, this`up, this`pitch, this`yaw,
        this`view, this`viewUpdates, this`perspective, this`orthogonal, this`projectionUpdates
      ensures Valid()
      ensures projection == defaultProjection.kind && near == defaultProjection.near
      ensures far == defaultProjection.far && fov == defaultProjection.fov
      ensures position == defaultView.position && front == defaultView.front && right == defaultView.right
      ensures up == defaultView.up && pitch == defaultView.pitch && yaw == defaultView.yaw
      ensures projectionUpdates == old(projectionUpdates) + 1 && viewUpdates == old(viewUpdates) + 1
    {
      ResetProjection();
      ResetView();
      UpdateMatrices();
    }

    // -------------------------------------------------------------------------
    // Motion (lib/glsl/camera.ts:625-694)
    // -------------------------------------------------------------------------

    /** The distance `travell` covers: the current speed times the time. */
    function Distance(time: real): real
      reads this
    {
      (if fast then speedFast else speed) * time
    }

    /** The direction `travell` moves along: `right`, `up`, or `up × right`, and its sign. */
    function Direction(movement: Movement): Vec
      reads this
    {
      match movement
      case Right | Left => right
      case Up | Down => up
      case Front | Back => lib.cross(up, right)
    }

    /** `travell(movement, time)` (`time` is 1/30 when the caller gives none). */
    method Travell(movement: Movement, time: real)
      requires Valid()
      modifies this`position, this`view, this`viewUpdates, this`perspective, this`orthogonal, this`projectionUpdates
      ensures Valid()
      ensures position == Travelled(old(position), old(Direction(movement)), old(Distance(time)), movement)
      ensures projectionUpdates == old(projectionUpdates) + 1 && viewUpdates == old(viewUpdates) + 1
    {
      var distance := (if fast then speedFast else speed) * time;
      match movement {
        case Right => position := ScaleAndAdd(position, right, distance);
        case Left => position := ScaleAndAdd(position, right, -distance);
        case Up => position := ScaleAndAdd(position, up, distance);
        case Down => position := ScaleAndAdd(position, up, -distance);
        case Front => position := ScaleAndAdd(position, lib.cross(up, right), distance);
        case Back => position := ScaleAndAdd(position, lib.cross(up, right), -distance);
      }
      UpdateMatrices();
    }

    /** `translate`: moves the position by the displacement and recomputes the view only. */
    method Translate(d: Vec)
      requires Valid()
      modifies this`position, this`view, this`viewUpdates
      ensures Valid()
      ensures position == Add(old(position), d)
      ensures viewUpdates == old(viewUpdates) + 1
    {
      position := Add(position, d);
      UpdateViewMatrix();
    }

    /**
     * `rotate(displacement)`: the yaw is overwritten with `dx · sensibility`
     * rather than accumulated; the pitch accumulates `dy · sensibility` and is
     * clamped to [-89, 89]; then the `front` setter runs on the direction of
     * those angles.
     */
    method Rotate(dx: real, dy: real)
      requires Valid()
      modifies this`yaw, this`pitch, this`front, this`right, this`view, this`viewUpdates
      ensures Valid()
      ensures yaw == dx * old(sensibility)
      ensures pitch == Clamp(-89.0, 89.0, old(pitch) + dy * old(sensibility))
      ensures -89.0 <= pitch <= 89.0
      ensures front == lib.normalize(RotationFront(lib.math, pitch, yaw)) && right == lib.cross(front, up)
      ensures viewUpdates == old(viewUpdates) + 1
    {
      yaw, pitch := dx * sensibility, Clamp(-89.0, 89.0, pitch + dy * sensibility);
      SetFront(RotationFront(lib.math, pitch, yaw));
    }

    /** `zoomIn`: `fov / zoomFactor`, capped at `fovMax` only; recomputed only when it changed. */
    method ZoomIn()
      requires Valid()
      requires zoomFactor != 0.0
      modifies this`fov, this`perspective, this`orthogonal, this`projectionUpdates
      ensures Valid()
      ensures fov == Min(fovMax, old(fov) / zoomFactor) == ZoomInAsWritten(old(fov), fovMax, zoomFactor)
      ensures projectionUpdates == old(projectionUpdates) + (if fov != old(fov) then 1 else 0)
    {
      var f := Min(fovMax, fov / zoomFactor);
      if f != fov {
        fov := f;
        UpdateProjectionMatrices();
      }
    }

    /**
     * `zoomOut`: `Math.max(fovMax, fov · zoomFactor)` as written, so the field
     * of view is at least `fovMax` afterwards.
     */
    method ZoomOut()
      requires Valid()
      modifies this`fov, this`perspective, this`orthogonal, this`projectionUpdates
      ensures Valid()
      ensures fov == Max(fovMax, old(fov) * zoomFactor) == ZoomOutAsWritten(old(fov), fovMax, zoomFactor)
      ensures fov >= fovMax
      ensures projectionUpdates == old(projectionUpdates) + (if fov != old(fov) then 1 else 0)
    {
      var f := Max(fovMax, fov * zoomFactor);
      if f != fov {
        fov := f;
        UpdateProjectionMatrices();
      }
    }
  }

  /** The field of view `zoomIn` computes as written: divided by the factor, capped at `fovMax` only. */
  function ZoomInAsWritten(fov: real, fovMax: real, factor: real): (r: real)
    requires factor != 0.0
    ensures r <= fovMax
    ensures r == fovMax || r == fov / factor
  {
    Min(fovMax, fov / factor)
  }

  /** The field of view `zoomOut` computes as written: the larger of `fovMax` and the multiplied fov. */
  function ZoomOutAsWritten(fov: real, fovMax: real, factor: real): (r: real)
    ensures r >= fovMax
    ensures r == fovMax || r == fov * factor
  {
    Max(fovMax, fov * factor)
  }

  /** Multiplying a positive value by a factor above 1 makes it larger than the value and any bound below it. */
  lemma MulAboveOne(x: real, f: real, b: real)
    requires x > 0.0 && f > 1.0 && b <= x
    ensures x * f > x && x * f > b
  {
    assert x * f - x == x * (f - 1.0);
    assert x * (f - 1.0) > 0.0;
  }

  /** Dividing a non-negative value by a factor of at least 1 does not make it larger. */
  lemma DivAtMost(x: real, f: real)
    requires x >= 0.0 && f >= 1.0
    ensures x / f <= x
  {
    assert (x / f) * f == x;
  }

  /** Dividing a positive value by a factor above 1 makes it smaller. */
  lemma DivBelow(x: real, f: real)
    requires x > 0.0 && f > 1.0
    ensures x / f < x
  {
    var q := x / f;
    assert q * f == x;
    assert q > 0.0;
    MulAboveOne(q, f, q);
  }

  /**
   * `zoomIn` as written does not stop at `fovMin`: from a field of view
   * already at the lower bound, with the default factor above 1, it goes below it.
   */
  lemma ZoomInPassesMin(fovMin: real, fovMax: real, factor: real)
    requires 0.0 < fovMin <= fovMax && factor > 1.0
    ensures ZoomInAsWritten(fovMin, fovMax, factor) < fovMin
  {
    DivBelow(fovMin, factor);
  }

  /**
   * `zoomOut` as written never gives less than `fovMax`, and a second call
   * gives more: the field of view leaves the range the setters keep.
   */
  lemma ZoomOutPassesMax(fov: real, fovMin: real, fovMax: real, factor: real)
    requires 0.0 < fovMax && fovMin <= fov <= fovMax && factor > 1.0
    ensures ZoomOutAsWritten(fov, fovMax, factor) >= fovMax
    ensures ZoomOutAsWritten(ZoomOutAsWritten(fov, fovMax, factor), fovMax, factor) > fovMax
  {
    var once := ZoomOutAsWritten(fov, fovMax, factor);
    MulAboveOne(once, factor, fovMax);
  }

  /** `zoomIn` as evidently intended: divided by the factor, raised to `fovMin`. */
  function ZoomedIn(fov: real, fovMin: real, factor: real): (r: real)
    requires factor > 0.0
    ensures r >= fovMin
    ensures r == fovMin || r == fov / factor
  {
    Max(fovMin, fov / factor)
  }

  /** `zoomOut` as evidently intended: multiplied by the factor, capped at `fovMax`. */
  function ZoomedOut(fov: real, fovMax: real, factor: real): (r: real)
    ensures r <= fovMax
    ensures r == fovMax || r == fov * factor
  {
    Min(fovMax, fov * factor)
  }

  /**
   * The intended zooms keep the field of view within [fovMin, fovMax],
   * zooming in never widens it and zooming out never narrows it, and
   * zooming out then in returns to the start while the cap was not reached.
   */
  lemma ZoomStaysInRange(fov: real, fovMin: real, fovMax: real, factor: real)
    requires 0.0 <= fovMin <= fov <= fovMax && factor >= 1.0
    ensures fovMin <= ZoomedIn(fov, fovMin, factor) <= fov
    ensures fov <= ZoomedOut(fov, fovMax, factor) <= fovMax
    ensures fov * factor <= fovMax ==> ZoomedIn(ZoomedOut(fov, fovMax, factor), fovMin, factor) == fov
  {
    DivAtMost(fov, factor);
    if fov > 0.0 && factor > 1.0 {
      MulAboveOne(fov, factor, fov);
    }
  }

  /** The direction `rotate` gives the `front` setter, for pitch and yaw in degrees. */
  function RotationFront(m: MathLib, pitch: real, yaw: real): Vec {
    Vec(m.cos(ToRad(pitch)) * m.cos(ToRad(yaw)), m.sin(ToRad(pitch)), m.cos(ToRad(pitch)) * m.sin(ToRad(yaw)))
  }

  /** The position after `travell`: forward along the direction, backward for LEFT, DOWN and BACK. */
  function Travelled(p: Vec, direction: Vec, distance: real, movement: Movement): (q: Vec)
  {
    match movement
    case Right | Up | Front => ScaleAndAdd(p, direction, distance)
    case Left | Down | Back => ScaleAndAdd(p, direction, -distance)
  }

  /** The movement `travell` undoes another with. */
  function Opposite(movement: Movement): (o: Movement)
    ensures o != movement
  {
    match movement
    case Right => Left
    case Left => Right
    case Up => Down
    case Down => Up
    case Front => Back
    case Back => Front
  }

  /**
   * RIGHT then LEFT (likewise UP/DOWN, FRONT/BACK) along the same direction
   * and distance returns to the starting position. `travell` keeps the
   * directions and the speeds, so two calls with the same flag and time do.
   */
  lemma TravelOpposite(p: Vec, direction: Vec, distance: real, movement: Movement)
    ensures Travelled(Travelled(p, direction, distance, movement), direction, distance, Opposite(movement)) == p
  {
    var x, y, z := direction.x * distance, direction.y * distance, direction.z * distance;
    assert direction.x * -distance == -x && direction.y * -distance == -y && direction.z * -distance == -z;
  }

  /** Merging the same partial defaults twice is merging them once. */
  lemma PatchIdempotent(d: ProjectionDefaults, v: ViewDefaults, y: DynamicDefaults,
                        p: ProjectionPatch, q: ViewPatch, r: DynamicPatch)
    ensures PatchProjection(PatchProjection(d, p), p) == PatchProjection(d, p)
    ensures PatchView(PatchView(v, q), q) == PatchView(v, q)
    ensures PatchDynamic(PatchDynamic(y, r), r) == PatchDynamic(y, r)
  {
  }

  /** A patch whose every field is undefined leaves the defaults alone. */
  lemma EmptyPatch(d: ProjectionDefaults, v: ViewDefaults, y: DynamicDefaults)
    ensures PatchProjection(d, ProjectionPatch(None, None, None, None, None, None)) == d
    ensures PatchView(v, ViewPatch(None, None, None, None, None, None, None)) == v
    ensures PatchDynamic(y, DynamicPatch(None, None, None, None, None)) == y
  {
  }

  /**
   * The static defaults: the fov bounds are ordered and hold the default fov;
   * the default pitch of -90 lies outside the [-89, 89] range `rotate` keeps.
   */
  lemma DefaultsShape()
    ensures DEFAULT_PROJECTION.fovMin <= DEFAULT_PROJECTION.fov <= DEFAULT_PROJECTION.fovMax
    ensures DEFAULT_PROJECTION.fovMax == PI
    ensures DEFAULT_VIEW.pitch < -89.0
  {
    ToRadMonotonic(EPSILON, 30.0);
    ToRadMonotonic(30.0, 180.0);
  }

  /** `glMatrix.equals(h, 0)` holds exactly for heights within `EPSILON` of 0. */
  lemma NearlyZero(h: real)
    ensures NearlyEqual(h, 0.0) <==> -EPSILON <= h <= EPSILON
  {
    if Abs(h) > 1.0 {
      assert EPSILON * Abs(h) < Abs(h);
    }
  }
}
