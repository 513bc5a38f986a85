/**
 * The canvas reducer (reducers/canvas.ts). The state record becomes the
 * `Scene` datatype, and a reducer step is a function from a scene and an
 * action to the next scene and the ordered trace of calls the step makes:
 * calls on the WebGL context, on the DOM canvas, on the camera and on the
 * palette of points, followed by the draw calls of `render`. The camera,
 * the grid, the points and the GL objects are long-lived objects that the
 * reducer drives by calls; their behaviour is not part of this module.
 */
module Canvas {
  import opened Wrappers
  import Color
  import Camera
  import opened Numerics

  /** `SATURATION`: lines drawn black or in the colour of their axis. */
  datatype Saturation = Black | Rgb

  /**
   * The objects `initialize` creates and every later state carries along:
   * container, canvas, GL context, the six programs, cube, axis, grid and
   * points. `Detached` is `initialCanvas`, where they are all `null`.
   */
  datatype Objects = Detached | Attached(id: nat)

  /** `CanvasState`, apart from the camera, which is one object shared by every state. */
  datatype Scene = Scene(
    background: Color.RGB,
    objects: Objects,
    drawCube: bool,
    alphaIn: real,
    alphaOut: real,
    drawDiagonal: bool,
    colorDiagonal: Saturation,
    alphaDiagonal: real,
    drawAxis: bool,
    colorAxis: Saturation,
    alphaAxis: real,
    drawGrid: bool,
    colorGrid: Saturation,
    alphaGrid: real,
    gapGrid: real,
    colorPoints: Saturation,
    alphaPoints: real,
    colorDistances: Saturation,
    alphaDistances: real,
    errors: seq<string>)

  /**
   * The `model` of `SET_DRAW`, `SET_HIGHTLIGHT`, `SET_SATURATION` and
   * `SET_ALPHA`: one of the strings the source compares it with, or any
   * other string.
   */
  datatype Selector = CUBE | AXIS | GRID | DIAG | POINT | DIST | POINTS | DISTS | IN | OUT | Other(name: string)

  /** The index of a palette entry: a number or `'target'`. */
  datatype PointIndex = Index(n: real) | TargetPoint

  /**
   * `CanvasAction`; `Unknown` is any other action type. `Initialize` and `Resize` carry the
   * container's `offsetWidth`/`offsetHeight` read at that moment;
   * `Initialize` also carries the objects it creates and the messages their
   * constructors report through `onerror`.
   */
  datatype Action =
    | Initialize(width: real, height: real, created: nat, reported: seq<string>)
    | SetBackground(background: string)
    | Resize(width: real, height: real)
    | ResetCamera
    | SetProjection(projection: Camera.ProjectionType)
    | Rotate(dx: real, dy: real, center: Option<Camera.Vec>)
    | ScaleFov(fov: real)
    | ZoomIn
    | ZoomOut
    | SetDraw(model: Selector, index: Option<PointIndex>, status: bool)
    | SetHighlight(model: Selector, index: Option<PointIndex>, status: bool)
    | SetSaturation(model: Selector, mode: Saturation)
    | SetAlpha(model: Selector, opacity: real)
    | SetGridSize(size: real)
    | SetGridGap(gap: real)
    | SetPointSize(size: real)
    | SetColor(entry: PointIndex, color: string)
    | AddColor(color: string)
    | RemoveColor(position: real)
    | CloseErrors
    | CleanUp
    | Unknown(kind: string)

  datatype Program = CubeProgram | AxisProgram | GridProgram | DiagonalProgram | PointsProgram | DistancesProgram

  datatype Model = CubeModel | AxisModel | GridModel | PointsModel

  datatype Face = Back | Front

  /** The uniforms `render` sets: `u_alpha`, `u_rgb`, `u_gap`, `u_axis` and `u_color`. */
  datatype Uniform = UAlpha | URgb | UGap | UAxis | UColor

  /** A call on the WebGL context. */
  datatype GlCall =
    | EnableCullFace
    | EnableBlend
    | BlendAlpha
    | ClearColor(color: Color.RGB, alpha: real)
    | Viewport(width: real, height: real)
    | Clear
    | CullFace(face: Face)

  /** A draw call of a model, or of the palette of points. */
  datatype DrawCall =
    | CubeFaces | CubeDiagonal
    | GridX | GridY | GridZ
    | AxisWhole | AxisX | AxisY | AxisZ
    | Distances(rgbFlag: real)
    | PointCubes

  /** A call on the camera. */
  datatype CameraCall =
    | SetResolution(width: real, height: real)
    | SetPosition(position: Camera.Vec)
    | RotateBy(dx: real, dy: real, center: Option<Camera.Vec>)
    | SaveDefaultView
    | ResetToDefaults
    | SetProjectionType(projection: Camera.ProjectionType)
    | ZoomInOnce
    | ZoomOutOnce
    | SetFov(fov: real)

  /** A call on the palette of points (`GLSLPoints`), whose behaviour is not modelled. */
  datatype PaletteCall =
    | SetSize(size: real)
    | DrawAllPoints(status: bool)
    | DrawPoint(point: PointIndex, status: bool)
    | DrawAllDistances(status: bool)
    | DrawDistance(point: PointIndex, status: bool)
    | HighlightAllPoints(status: bool)
    | HighlightPoint(point: PointIndex, status: bool)
    | HighlightAllDistances(status: bool)
    | HighlightDistance(point: PointIndex, status: bool)
    | Recolor(point: PointIndex, rgb: Color.RGB)
    | Append(rgb: Color.RGB)
    | Remove(position: real)

  /** One call a reducer step makes, in the order it makes them. */
  datatype Command =
    | Gl(gl: GlCall)
    | CanvasSize(width: real, height: real)
    | CreateProgram(created: Program)
    | DeleteShaders(owner: Program)
    | DeleteProgram(deleted: Program)
    | CreateModel(model: Model)
    | DeleteModel(model: Model)
    | Use(program: Program)
    | BindCamera(target: Program)
    | BindModel(model: Model)
    | Uniform1f(at: Program, name: Uniform, value: real)
    | Uniform1i(at: Program, name: Uniform, whole: int)
    | Uniform3fv(at: Program, name: Uniform, rgb: Color.RGB)
    | Draw(draw: DrawCall)
    | OnCamera(camera: CameraCall)
    | GridSize(size: real)
    | OnPoints(palette: PaletteCall)

  /** The next scene and the calls that led to it. */
  datatype Step = Step(scene: Scene, calls: seq<Command>)

  /** `toRGB(str) || fallback`, with `toRGB` in its default hexadecimal format. */
  function ColorOr(str: string, fallback: Color.RGB): (c: Color.RGB)
    ensures Color.ParseHex(str).Some? ==> c == Color.ParseHex(str).value
    ensures Color.ParseHex(str).None? ==> c == fallback
  {
    match Color.ParseHex(str)
    case Some(rgb) => rgb
    case None => fallback
  }

  /** `mode === 'rgb' ? 1 : 0`. */
  function RgbFlag(mode: Saturation): (f: real)
    ensures mode == Rgb ==> f == 1.0
    ensures mode == Black ==> f == 0.0
  {
    if mode == Rgb then 1.0 else 0.0
  }

  /** `colors.blueGray['50']` of the Tailwind palette. */
  const BLUE_GRAY_50: string := "#f8fafc"

  /** `initialCanvas`. */
  const INITIAL: Scene := Scene(
    background := ColorOr(BLUE_GRAY_50, Color.WHITE),
    objects := Detached,
    drawCube := true,
    alphaIn := 0.3,
    alphaOut := 0.25,
    drawDiagonal := false,
    colorDiagonal := Rgb,
    alphaDiagonal := 0.6,
    drawAxis := true,
    colorAxis := Rgb,
    alphaAxis := 0.7,
    drawGrid := false,
    colorGrid := Black,
    alphaGrid := 0.5,
    gapGrid := 8.0,
    colorPoints := Rgb,
    alphaPoints := 0.9,
    colorDistances := Black,
    alphaDistances := 0.45,
    errors := [])

  // ---------------------------------------------------------------------------
  // render (reducers/canvas.ts:164-337)
  // ---------------------------------------------------------------------------

  /** No call of `calls` selects a program. */
  predicate NoUse(calls: seq<Command>) {
    forall i :: 0 <= i < |calls| ==> !calls[i].Use?
  }

  /** A pass of `render`: nothing, or the selection of `p` followed by calls that select no program. */
  predicate PassOf(r: seq<Command>, p: Program) {
    r == [] || (r[0] == Use(p) && NoUse(r[1..]))
  }

  /** The cube: an inner pass when `alphaIn` is truthy, then an outer pass when `alphaOut` is. */
  function CubePass(s: Scene): seq<Command>
  {
    if !s.drawCube then []
    else
      [Use(CubeProgram), BindCamera(CubeProgram), BindModel(CubeModel)]
      + (if s.alphaIn != 0.0 then [Gl(CullFace(Back)), Uniform1f(CubeProgram, UAlpha, s.alphaIn), Draw(CubeFaces)] else [])
      + (if s.alphaOut != 0.0 then [Gl(CullFace(Front)), Uniform1f(CubeProgram, UAlpha, s.alphaOut), Draw(CubeFaces)] else [])
  }

  /** The grid: three planes, each after its `u_axis` value, when the grid is on and its alpha truthy. */
  function GridPass(s: Scene): seq<Command>
  {
    if s.drawGrid && s.alphaGrid != 0.0 then
      [Use(GridProgram), BindCamera(GridProgram), BindModel(GridModel),
       Uniform1f(GridProgram, URgb, RgbFlag(s.colorGrid)),
       Uniform1f(GridProgram, UAlpha, s.alphaGrid),
       Uniform1f(GridProgram, UGap, s.gapGrid),
       Uniform1i(GridProgram, UAxis, 0), Draw(GridX),
       Uniform1i(GridProgram, UAxis, 1), Draw(GridY),
       Uniform1i(GridProgram, UAxis, 2), Draw(GridZ)]
    else []
  }

  /** The axis: red, green and blue shafts one by one, or all three in black. */
  function AxisPass(s: Scene): seq<Command>
  {
    if s.drawAxis && s.alphaAxis != 0.0 then
      [Use(AxisProgram), BindCamera(AxisProgram), BindModel(AxisModel),
       Uniform1f(AxisProgram, UAlpha, s.alphaAxis)]
      + (if s.colorAxis == Rgb then
           [Uniform3fv(AxisProgram, UColor, Color.RED), Draw(AxisX),
            Uniform3fv(AxisProgram, UColor, Color.GREEN), Draw(AxisY),
            Uniform3fv(AxisProgram, UColor, Color.BLUE), Draw(AxisZ)]
         else
           [Uniform3fv(AxisProgram, UColor, Color.BLACK), Draw(AxisWhole)])
    else []
  }

  /** The grey diagonal of the cube, drawn with the cube's buffers. */
  function DiagonalPass(s: Scene): seq<Command>
  {
    if s.drawDiagonal && s.alphaDiagonal != 0.0 then
      [Use(DiagonalProgram), BindCamera(DiagonalProgram), BindModel(CubeModel),
       Uniform1f(DiagonalProgram, URgb, RgbFlag(s.colorDiagonal)),
       Uniform1f(DiagonalProgram, UAlpha, s.alphaDiagonal),
       Draw(CubeDiagonal)]
    else []
  }

  /** The distances between points, always drawn. */
  function DistancesPass(s: Scene): seq<Command>
  {
    [Use(DistancesProgram), BindCamera(DistancesProgram), BindModel(PointsModel),
     Uniform1f(DistancesProgram, UAlpha, s.alphaDistances),
     Draw(Distances(RgbFlag(s.colorDistances)))]
  }

  /** The points, always drawn, each as a small cube. */
  function PointsPass(s: Scene): seq<Command>
  {
    [Use(PointsProgram), BindCamera(PointsProgram), BindModel(CubeModel),
     Uniform1f(PointsProgram, URgb, RgbFlag(s.colorPoints)),
     Uniform1f(PointsProgram, UAlpha, s.alphaPoints),
     Draw(PointCubes)]
  }

  /** Each pass selects its own program first and no other program after it. */
  lemma PassesSelectOnce(s: Scene)
    ensures PassOf(CubePass(s), CubeProgram) && (CubePass(s) != [] <==> s.drawCube)
    ensures PassOf(GridPass(s), GridProgram) && (GridPass(s) != [] <==> s.drawGrid && s.alphaGrid != 0.0)
    ensures PassOf(AxisPass(s), AxisProgram) && (AxisPass(s) != [] <==> s.drawAxis && s.alphaAxis != 0.0)
    ensures PassOf(DiagonalPass(s), DiagonalProgram)
    ensures DiagonalPass(s) != [] <==> s.drawDiagonal && s.alphaDiagonal != 0.0
    ensures PassOf(DistancesPass(s), DistancesProgram) && PassOf(PointsPass(s), PointsProgram)
    ensures DistancesPass(s) != [] && PointsPass(s) != []
  {
  }

  /**
   * `render`: clears, draws cube, grid, axis, diagonal, distances and points,
   * and returns a new record built field by field from the input.
   */
  function Render(s: Scene): (r: Step)
    ensures r.scene == s
  {
    var calls := [Gl(Clear)] + CubePass(s) + GridPass(s) + AxisPass(s) + DiagonalPass(s)
      + DistancesPass(s) + PointsPass(s);
    var next := Scene(
      background := s.background,
      objects := s.objects,
      drawCube := s.drawCube,
      alphaIn := s.alphaIn,
      alphaOut := s.alphaOut,
      drawDiagonal := s.drawDiagonal,
      colorDiagonal := s.colorDiagonal,
      alphaDiagonal := s.alphaDiagonal,
      drawAxis := s.drawAxis,
      colorAxis := s.colorAxis,
      alphaAxis := s.alphaAxis,
      drawGrid := s.drawGrid,
      colorGrid := s.colorGrid,
      alphaGrid := s.alphaGrid,
      gapGrid := s.gapGrid,
      colorPoints := s.colorPoints,
      alphaPoints := s.alphaPoints,
      colorDistances := s.colorDistances,
      alphaDistances := s.alphaDistances,
      errors := s.errors);
    Step(next, calls)
  }

  /**
   * What a branch of the reducer does: the scene it passes on, the calls it
   * makes first, and whether it then returns `render` of that scene rather
   * than the scene itself.
   */
  datatype Outcome = Outcome(scene: Scene, before: seq<Command>, renders: bool)

  /** A branch that makes the calls `pre` and returns `render(s)`. */
  function Rendered(pre: seq<Command>, s: Scene): Outcome {
    Outcome(s, pre, true)
  }

  // ---------------------------------------------------------------------------
  // initialize, resize, setBackground, cleanUp (reducers/canvas.ts:349-510)
  // ---------------------------------------------------------------------------

  const PROGRAMS: seq<Program> :=
    [CubeProgram, AxisProgram, GridProgram, DiagonalProgram, PointsProgram, DistancesProgram]

  /**
   * `initialize`: sets up the context and canvas, creates the six programs
   * and deletes their shaders, creates the four models, places the camera,
   * and renders `initialCanvas` with the new objects and the reported errors.
   */
  function Initialized(width: real, height: real, created: nat, reported: seq<string>): (r: Outcome)
    ensures r.scene == INITIAL.(objects := Attached(created), errors := reported)
  {
    var setup := [Gl(EnableCullFace), Gl(EnableBlend), Gl(BlendAlpha), Gl(ClearColor(INITIAL.background, 1.0)),
                  Gl(Viewport(width, height)), CanvasSize(width, height)];
    var programs := [CreateProgram(CubeProgram), CreateProgram(AxisProgram), CreateProgram(GridProgram),
                     CreateProgram(DiagonalProgram), CreateProgram(PointsProgram), CreateProgram(DistancesProgram),
                     DeleteShaders(CubeProgram), DeleteShaders(AxisProgram), DeleteShaders(GridProgram),
                     DeleteShaders(DiagonalProgram), DeleteShaders(PointsProgram), DeleteShaders(DistancesProgram)];
    var models := [CreateModel(CubeModel), CreateModel(AxisModel), CreateModel(GridModel), CreateModel(PointsModel)];
    var camera := [OnCamera(SetResolution(width, height)), OnCamera(SetPosition(Camera.Vec(0.0, 0.0, -7.0))),
                   OnCamera(RotateBy(-150.0, -100.0, Some(Camera.Vec(0.0, 0.0, 0.0)))), OnCamera(SaveDefaultView)];
    Rendered(setup + programs + models + camera, INITIAL.(objects := Attached(created), errors := reported))
  }

  /** `resize`: viewport, canvas size and camera resolution follow the container. */
  function Resized(s: Scene, width: real, height: real): (r: Outcome)
    ensures r.scene == s
  {
    Rendered([Gl(Viewport(width, height)), CanvasSize(width, height), OnCamera(SetResolution(width, height))], s)
  }

  /** `setBackground`: an unreadable colour becomes white. */
  function WithBackground(s: Scene, bg: string): (r: Outcome)
    ensures r.scene == s.(background := ColorOr(bg, Color.WHITE))
  {
    var background := ColorOr(bg, Color.WHITE);
    Rendered([Gl(ClearColor(background, 1.0))], s.(background := background))
  }

  /** `cleanUp`: deletes the cube's program and the cube, then renders. */
  function CleanedUp(s: Scene): (r: Outcome)
    ensures r.scene == s
  {
    Rendered([DeleteProgram(CubeProgram), DeleteModel(CubeModel)], s)
  }

  // ---------------------------------------------------------------------------
  // canvasReducer (reducers/canvas.ts:558-665)
  // ---------------------------------------------------------------------------

  /** `Math.max(0, Math.min(1, opacity))`. */
  function Opacity(opacity: real): (o: real)
    ensures 0.0 <= o <= 1.0
    ensures 0.0 <= opacity <= 1.0 ==> o == opacity
    ensures opacity < 0.0 ==> o == 0.0
    ensures opacity > 1.0 ==> o == 1.0
  {
    Clamp(0.0, 1.0, opacity)
  }

  /** `SET_DRAW`: a flag of the scene, or one palette call for points and distances. */
  function Drawn(s: Scene, model: Selector, index: Option<PointIndex>, status: bool): (r: Outcome)
    ensures r.renders || r == Outcome(s, [], false)
    ensures r.renders <==> model in [CUBE, AXIS, GRID, DIAG, POINT, DIST]
    ensures model in [CUBE, AXIS, GRID, DIAG] ==> r.before == []
    ensures model in [POINT, DIST] ==> r.scene == s && |r.before| == 1
    ensures r.scene.objects == s.objects && r.scene.background == s.background && r.scene.errors == s.errors
  {
    if model == CUBE then Rendered([], s.(drawCube := status))
    else if model == AXIS then Rendered([], s.(drawAxis := status))
    else if model == GRID then Rendered([], s.(drawGrid := status))
    else if model == DIAG then Rendered([], s.(drawDiagonal := status))
    else if model == POINT then
      Rendered([if index.None? then OnPoints(DrawAllPoints(status)) else OnPoints(DrawPoint(index.value, status))], s)
    else if model == DIST then
      Rendered([if index.None? then OnPoints(DrawAllDistances(status)) else OnPoints(DrawDistance(index.value, status))], s)
    else Outcome(s, [], false)
  }

  /** `SET_HIGHTLIGHT`: one palette call for points or distances. */
  function Highlighted(s: Scene, model: Selector, index: Option<PointIndex>, status: bool): (r: Outcome)
    ensures r.renders || r == Outcome(s, [], false)
    ensures r.renders <==> model == POINT || model == DIST
    ensures r.renders ==> r.scene == s && |r.before| == 1
    ensures r.scene.objects == s.objects && r.scene.background == s.background && r.scene.errors == s.errors
  {
    if model == POINT then
      Rendered([if index.None? then OnPoints(HighlightAllPoints(status)) else OnPoints(HighlightPoint(index.value, status))], s)
    else if model == DIST then
      Rendered([if index.None? then OnPoints(HighlightAllDistances(status)) else OnPoints(HighlightDistance(index.value, status))], s)
    else Outcome(s, [], false)
  }

  /** `SET_SATURATION`: the colour mode of one model. */
  function Saturated(s: Scene, model: Selector, mode: Saturation): (r: Outcome)
    ensures r.renders || r == Outcome(s, [], false)
    ensures r.renders <==> model in [AXIS, GRID, DIAG, POINTS, DISTS]
    ensures r.before == []
    ensures r.scene.objects == s.objects && r.scene.background == s.background && r.scene.errors == s.errors
  {
    if model == AXIS then Rendered([], s.(colorAxis := mode))
    else if model == GRID then Rendered([], s.(colorGrid := mode))
    else if model == DIAG then Rendered([], s.(colorDiagonal := mode))
    else if model == POINTS then Rendered([], s.(colorPoints := mode))
    else if model == DISTS then Rendered([], s.(colorDistances := mode))
    else Outcome(s, [], false)
  }

  /** `SET_ALPHA`: the clamped opacity of one model. */
  function WithAlpha(s: Scene, model: Selector, opacity: real): (r: Outcome)
    ensures r.renders || r == Outcome(s, [], false)
    ensures r.renders <==> IsAlphaModel(model)
    ensures r.before == []
    ensures r.scene.objects == s.objects && r.scene.background == s.background && r.scene.errors == s.errors
  {
    if model == IN then Rendered([], s.(alphaIn := Opacity(opacity)))
    else if model == OUT then Rendered([], s.(alphaOut := Opacity(opacity)))
    else if model == AXIS then Rendered([], s.(alphaAxis := Opacity(opacity)))
    else if model == GRID then Rendered([], s.(alphaGrid := Opacity(opacity)))
    else if model == DIAG then Rendered([], s.(alphaDiagonal := Opacity(opacity)))
    else if model == POINTS then Rendered([], s.(alphaPoints := Opacity(opacity)))
    else if model == DISTS then Rendered([], s.(alphaDistances := Opacity(opacity)))
    else Outcome(s, [], false)
  }

  /**
   * The actions after which `canvasReducer` returns `render(...)`: every
   * action except `CLOSE_ERRORS`, an unknown action, and a `SET_DRAW`,
   * `SET_HIGHTLIGHT`, `SET_SATURATION` or `SET_ALPHA` whose model the
   * branch does not name.
   */
  predicate Renders(a: Action) {
    match a
    case CloseErrors => false
    case Unknown(_) => false
    case SetDraw(model, _, _) => model in [CUBE, AXIS, GRID, DIAG, POINT, DIST]
    case SetHighlight(model, _, _) => model == POINT || model == DIST
    case SetSaturation(model, _) => model in [AXIS, GRID, DIAG, POINTS, DISTS]
    case SetAlpha(model, _) => IsAlphaModel(model)
    case Initialize(_, _, _, _) | SetBackground(_) | Resize(_, _) | ResetCamera | SetProjection(_) | Rotate(_, _, _)
       | ScaleFov(_) | ZoomIn | ZoomOut | SetGridSize(_) | SetGridGap(_) | SetPointSize(_) | SetColor(_, _)
       | AddColor(_) | RemoveColor(_) | CleanUp => true
  }

  /**
   * The branches of `canvasReducer`. Only the steps that do not render,
   * `CLOSE_ERRORS`, an unknown model and an unknown action, make no call;
   * only `INITIALIZE` and `SET_BACKGROUND` touch the objects or the background.
   */
  function Reduce(s: Scene, a: Action): (r: Outcome)
    ensures !r.renders ==> r.before == [] && (a.CloseErrors? || r.scene == s)
    ensures a.Unknown? ==> r == Outcome(s, [], false)
    ensures a.CloseErrors? ==> r == Outcome(s.(errors := []), [], false)
    ensures !a.Initialize? && !a.SetBackground? ==> r.scene.objects == s.objects && r.scene.background == s.background
  {
    match a
    case Initialize(width, height, created, reported) => Initialized(width, height, created, reported)
    case SetBackground(bg) => WithBackground(s, bg)
    case Resize(width, height) => Resized(s, width, height)
    case ResetCamera => Rendered([OnCamera(ResetToDefaults)], s)
    case SetProjection(p) => Rendered([OnCamera(SetProjectionType(p))], s)
    case Rotate(dx, dy, center) => Rendered([OnCamera(RotateBy(dx, dy, center))], s)
    case ZoomIn => Rendered([OnCamera(ZoomInOnce)], s)
    case ZoomOut => Rendered([OnCamera(ZoomOutOnce)], s)
    case ScaleFov(fov) => Rendered([OnCamera(SetFov(fov))], s)
    case SetDraw(model, index, status) => Drawn(s, model, index, status)
    case SetHighlight(model, index, status) => Highlighted(s, model, index, status)
    case SetSaturation(model, mode) => Saturated(s, model, mode)
    case SetAlpha(model, opacity) => WithAlpha(s, model, opacity)
    case SetGridSize(size) => Rendered([GridSize(size)], s)
    case SetGridGap(gap) => Rendered([], s.(gapGrid := gap))
    case SetPointSize(size) => Rendered([OnPoints(SetSize(size))], s)
    case SetColor(index, color) => Rendered([OnPoints(Recolor(index, ColorOr(color, Color.BLACK)))], s)
    case AddColor(color) => Rendered([OnPoints(Append(ColorOr(color, Color.BLACK)))], s)
    case RemoveColor(index) => Rendered([OnPoints(Remove(index))], s)
    case CloseErrors => Outcome(s.(errors := []), [], false)
    case CleanUp => CleanedUp(s)
    case Unknown(_) => Outcome(s, [], false)
  }

  /** The branch renders exactly for the actions `Renders` names. */
  lemma ReduceRendersExactly(s: Scene, a: Action)
    ensures Reduce(s, a).renders <==> Renders(a)
  {
    match a
    case SetDraw(model, index, status) =>
    case SetHighlight(model, index, status) =>
    case SetSaturation(model, mode) =>
    case SetAlpha(model, opacity) =>
    case _ =>
  }

  /**
   * `canvasReducer`: the branch's calls, then the draw calls of `render`
   * when the branch renders; the next state is the branch's scene, which
   * `render` hands back unchanged.
   */
  function Run(s: Scene, a: Action): (r: Step)
    ensures r.scene == Reduce(s, a).scene
    ensures |Reduce(s, a).before| <= |r.calls| && r.calls[..|Reduce(s, a).before|] == Reduce(s, a).before
    ensures Renders(a) ==> r.calls[|Reduce(s, a).before|..] == Render(r.scene).calls
    ensures !Renders(a) ==> r.calls == Reduce(s, a).before
  {
    var o := Reduce(s, a);
    if o.renders then
      var frame := Render(o.scene);
      Step(frame.scene, o.before + frame.calls)
    else Step(o.scene, o.before)
  }

  // ---------------------------------------------------------------------------
  // Properties
  // ---------------------------------------------------------------------------

  /** The alpha field `SET_ALPHA` names by `model`. */
  function AlphaOf(s: Scene, model: Selector): real {
    if model == IN then s.alphaIn
    else if model == OUT then s.alphaOut
    else if model == AXIS then s.alphaAxis
    else if model == GRID then s.alphaGrid
    else if model == DIAG then s.alphaDiagonal
    else if model == POINTS then s.alphaPoints
    else s.alphaDistances
  }

  /** `s` with the alpha field named by `model` set to `v`. */
  function WithAlphaOf(s: Scene, model: Selector, v: real): Scene {
    if model == IN then s.(alphaIn := v)
    else if model == OUT then s.(alphaOut := v)
    else if model == AXIS then s.(alphaAxis := v)
    else if model == GRID then s.(alphaGrid := v)
    else if model == DIAG then s.(alphaDiagonal := v)
    else if model == POINTS then s.(alphaPoints := v)
    else s.(alphaDistances := v)
  }

  predicate IsAlphaModel(model: Selector) {
    model == IN || model == OUT || model == AXIS || model == GRID
      || model == DIAG || model == POINTS || model == DISTS
  }

  /**
   * `SET_ALPHA` stores the opacity clamped to [0, 1] in the field its model
   * names, changes no other field and renders; any other model changes
   * nothing and renders nothing.
   */
  lemma SetAlphaClamps(s: Scene, model: Selector, opacity: real)
    ensures var r := Reduce(s, SetAlpha(model, opacity));
      if IsAlphaModel(model) then
        && 0.0 <= AlphaOf(r.scene, model) <= 1.0
        && (0.0 <= opacity <= 1.0 ==> AlphaOf(r.scene, model) == opacity)
        && (opacity < 0.0 ==> AlphaOf(r.scene, model) == 0.0)
        && (opacity > 1.0 ==> AlphaOf(r.scene, model) == 1.0)
        && WithAlphaOf(r.scene, model, AlphaOf(s, model)) == s
        && r.renders && r.before == []
      else r == Outcome(s, [], false)
  {
  }

  /** `SET_DRAW` on the cube, the axis, the grid or the diagonal changes that flag alone. */
  lemma SetDrawSetsFlag(s: Scene, index: Option<PointIndex>, status: bool)
    ensures var r := Reduce(s, SetDraw(CUBE, index, status)).scene;
      r.drawCube == status && r.(drawCube := s.drawCube) == s
    ensures var r := Reduce(s, SetDraw(AXIS, index, status)).scene;
      r.drawAxis == status && r.(drawAxis := s.drawAxis) == s
    ensures var r := Reduce(s, SetDraw(GRID, index, status)).scene;
      r.drawGrid == status && r.(drawGrid := s.drawGrid) == s
    ensures var r := Reduce(s, SetDraw(DIAG, index, status)).scene;
      r.drawDiagonal == status && r.(drawDiagonal := s.drawDiagonal) == s
  {
    assert Reduce(s, SetDraw(CUBE, index, status)) == Drawn(s, CUBE, index, status) == Rendered([], s.(drawCube := status));
    assert Reduce(s, SetDraw(AXIS, index, status)) == Drawn(s, AXIS, index, status) == Rendered([], s.(drawAxis := status));
    assert Reduce(s, SetDraw(GRID, index, status)) == Drawn(s, GRID, index, status) == Rendered([], s.(drawGrid := status));
    assert Reduce(s, SetDraw(DIAG, index, status)) == Drawn(s, DIAG, index, status) == Rendered([], s.(drawDiagonal := status));
  }

  /**
   * `SET_DRAW` on points or distances leaves the scene as it is and makes
   * one call on the palette before rendering: on every entry when no index
   * is given, on the indexed one otherwise. Any model that is not drawable
   * changes nothing and renders nothing.
   */
  lemma SetDrawPointsTargets(s: Scene, model: Selector, index: Option<PointIndex>, status: bool)
    ensures var r := Reduce(s, SetDraw(model, index, status));
      && (model == POINT ==>
            r.scene == s &&
            r.before[0] == (if index.None? then OnPoints(DrawAllPoints(status)) else OnPoints(DrawPoint(index.value, status))))
      && (model == DIST ==>
            r.scene == s &&
            r.before[0] == (if index.None? then OnPoints(DrawAllDistances(status)) else OnPoints(DrawDistance(index.value, status))))
      && (model !in [CUBE, AXIS, GRID, DIAG, POINT, DIST] ==> r == Outcome(s, [], false))
  {
  }

  /**
   * `SET_HIGHTLIGHT` on points or distances leaves the scene as it is and
   * highlights every entry, or the indexed one, before rendering; any other
   * model changes nothing and renders nothing.
   */
  lemma SetHighlightTargets(s: Scene, model: Selector, index: Option<PointIndex>, status: bool)
    ensures var r := Reduce(s, SetHighlight(model, index, status));
      && (model == POINT ==>
            r.scene == s &&
            r.before[0] == (if index.None? then OnPoints(HighlightAllPoints(status)) else OnPoints(HighlightPoint(index.value, status))))
      && (model == DIST ==>
            r.scene == s &&
            r.before[0] == (if index.None? then OnPoints(HighlightAllDistances(status)) else OnPoints(HighlightDistance(index.value, status))))
      && (model != POINT && model != DIST ==> r == Outcome(s, [], false))
  {
  }

  /** `SET_SATURATION` replaces the colour mode of its model alone. */
  lemma SetSaturationSetsMode(s: Scene, model: Selector, mode: Saturation)
    ensures var r := Reduce(s, SetSaturation(model, mode)).scene;
      && (model == AXIS ==> r.colorAxis == mode && r.(colorAxis := s.colorAxis) == s)
      && (model == GRID ==> r.colorGrid == mode && r.(colorGrid := s.colorGrid) == s)
      && (model == DIAG ==> r.colorDiagonal == mode && r.(colorDiagonal := s.colorDiagonal) == s)
      && (model == POINTS ==> r.colorPoints == mode && r.(colorPoints := s.colorPoints) == s)
      && (model == DISTS ==> r.colorDistances == mode && r.(colorDistances := s.colorDistances) == s)
      && (model !in [AXIS, GRID, DIAG, POINTS, DISTS] ==> Reduce(s, SetSaturation(model, mode)) == Outcome(s, [], false))
  {
  }

  /**
   * The camera, grid-size and palette actions pass the scene on unchanged:
   * each makes exactly its one call on the camera, the grid or the palette,
   * then renders.
   */
  lemma PassThroughKeepsScene(s: Scene, a: Action)
    requires a.ResetCamera? || a.SetProjection? || a.Rotate? || a.ZoomIn? || a.ZoomOut? || a.ScaleFov?
      || a.SetGridSize? || a.SetPointSize? || a.SetColor? || a.AddColor? || a.RemoveColor?
    ensures var r := Reduce(s, a); r.scene == s && |r.before| == 1 && r.renders
    ensures a.ResetCamera? ==> Reduce(s, a).before[0] == OnCamera(ResetToDefaults)
    ensures a.SetProjection? ==> Reduce(s, a).before[0] == OnCamera(SetProjectionType(a.projection))
    ensures a.Rotate? ==> Reduce(s, a).before[0] == OnCamera(RotateBy(a.dx, a.dy, a.center))
    ensures a.ZoomIn? ==> Reduce(s, a).before[0] == OnCamera(ZoomInOnce)
    ensures a.ZoomOut? ==> Reduce(s, a).before[0] == OnCamera(ZoomOutOnce)
    ensures a.ScaleFov? ==> Reduce(s, a).before[0] == OnCamera(SetFov(a.fov))
    ensures a.SetGridSize? ==> Reduce(s, a).before[0] == GridSize(a.size)
    ensures a.SetPointSize? ==> Reduce(s, a).before[0] == OnPoints(SetSize(a.size))
    ensures a.RemoveColor? ==> Reduce(s, a).before[0] == OnPoints(Remove(a.position))
  {
  }

  /** `SET_GRID_GAP` stores the gap alone, makes no call of its own and renders. */
  lemma SetGridGapSetsGap(s: Scene, gap: real)
    ensures var r := Reduce(s, SetGridGap(gap));
      r.scene == s.(gapGrid := gap) && r.before == [] && r.renders
  {
  }

  /**
   * A reducer step that renders ends with the frame `render` draws of the
   * next scene, so the draw and cull lemmas about `Render` hold of that tail;
   * a step that does not render makes no call at all.
   */
  lemma RunDraws(s: Scene, a: Action)
    ensures var r := Run(s, a); var pre := Reduce(s, a).before;
      && (Renders(a) ==>
            && (forall d :: Draw(d) in r.calls[|pre|..] <==> ShouldDraw(r.scene, d))
            && (Gl(CullFace(Back)) in r.calls[|pre|..] <==> r.scene.drawCube && r.scene.alphaIn != 0.0)
            && (Gl(CullFace(Front)) in r.calls[|pre|..] <==> r.scene.drawCube && r.scene.alphaOut != 0.0))
      && (!Renders(a) ==> r.calls == [] && r.scene == (if a.CloseErrors? then s.(errors := []) else s))
  {
    RenderDraws(Run(s, a).scene);
  }

  /**
   * An unreadable background falls back to white and an unreadable palette
   * colour to black; readable ones are used as parsed.
   */
  lemma ColorFallbacks(s: Scene, str: string, index: PointIndex)
    ensures Reduce(s, SetBackground(str)).scene.background ==
      if Color.ParseHex(str).Some? then Color.ParseHex(str).value else Color.WHITE
    ensures Reduce(s, SetBackground(str)).before[0] == Gl(ClearColor(Reduce(s, SetBackground(str)).scene.background, 1.0))
    ensures Reduce(s, SetColor(index, str)).before[0] ==
      OnPoints(Recolor(index, if Color.ParseHex(str).Some? then Color.ParseHex(str).value else Color.BLACK))
    ensures Reduce(s, AddColor(str)).before[0] ==
      OnPoints(Append(if Color.ParseHex(str).Some? then Color.ParseHex(str).value else Color.BLACK))
  {
  }

  /** The programs the calls select, in order. */
  function Programs(calls: seq<Command>): seq<Program> {
    if |calls| == 0 then []
    else (if calls[0].Use? then [calls[0].program] else []) + Programs(calls[1..])
  }

  lemma {:induction false} ProgramsAppend(a: seq<Command>, b: seq<Command>)
    ensures Programs(a + b) == Programs(a) + Programs(b)
    decreases |a|
  {
    if |a| > 0 {
      assert (a + b)[0] == a[0];
      assert (a + b)[1..] == a[1..] + b;
      ProgramsAppend(a[1..], b);
    } else {
      assert a + b == b;
    }
  }

  lemma {:induction false} ProgramsNone(calls: seq<Command>)
    requires NoUse(calls)
    ensures Programs(calls) == []
    decreases |calls|
  {
    if |calls| > 0 {
      assert NoUse(calls[1..]) by {
        forall i | 0 <= i < |calls[1..]| ensures !calls[1..][i].Use? {
          assert calls[1..][i] == calls[i + 1];
        }
      }
      ProgramsNone(calls[1..]);
    }
  }

  /** A pass selects its program once, or not at all when it is empty. */
  lemma ProgramsOfPass(r: seq<Command>, p: Program)
    requires PassOf(r, p)
    ensures Programs(r) == if r == [] then [] else [p]
  {
    if r != [] {
      assert r == [r[0]] + r[1..];
      ProgramsAppend([r[0]], r[1..]);
      ProgramsNone(r[1..]);
    }
  }

  /** The programs of a clear followed by six passes, whatever the passes hold. */
  lemma {:induction false} ProgramsOfPasses(c: seq<Command>, g: seq<Command>, x: seq<Command>, d: seq<Command>,
                                            t: seq<Command>, p: seq<Command>)
    requires PassOf(c, CubeProgram) && PassOf(g, GridProgram) && PassOf(x, AxisProgram)
    requires PassOf(d, DiagonalProgram) && PassOf(t, DistancesProgram) && PassOf(p, PointsProgram)
    ensures Programs([Gl(Clear)] + c + g + x + d + t + p) ==
      (if c == [] then [] else [CubeProgram]) + (if g == [] then [] else [GridProgram])
      + (if x == [] then [] else [AxisProgram]) + (if d == [] then [] else [DiagonalProgram])
      + (if t == [] then [] else [DistancesProgram]) + (if p == [] then [] else [PointsProgram])
  {
    var s0 := [Gl(Clear)];
    ProgramsNone(s0);
    ProgramsOfPass(c, CubeProgram);
    ProgramsAppend(s0, c);
    assert Programs(s0 + c) == Programs(c);
    ProgramsOfPass(g, GridProgram);
    ProgramsAppend(s0 + c, g);
    ProgramsOfPass(x, AxisProgram);
    ProgramsAppend(s0 + c + g, x);
    ProgramsOfPass(d, DiagonalProgram);
    ProgramsAppend(s0 + c + g + x, d);
    ProgramsOfPass(t, DistancesProgram);
    ProgramsAppend(s0 + c + g + x + d, t);
    ProgramsOfPass(p, PointsProgram);
    ProgramsAppend(s0 + c + g + x + d + t, p);
  }

  /**
   * `render` selects the cube program when the cube is on, the grid, axis
   * and diagonal programs when their flag is on and their alpha truthy, and
   * then always the distances and points programs, in this order.
   */
  lemma RenderOrder(s: Scene)
    ensures Programs(Render(s).calls) ==
      (if s.drawCube then [CubeProgram] else [])
      + (if s.drawGrid && s.alphaGrid != 0.0 then [GridProgram] else [])
      + (if s.drawAxis && s.alphaAxis != 0.0 then [AxisProgram] else [])
      + (if s.drawDiagonal && s.alphaDiagonal != 0.0 then [DiagonalProgram] else [])
      + [DistancesProgram, PointsProgram]
  {
    PassesSelectOnce(s);
    ProgramsOfPasses(CubePass(s), GridPass(s), AxisPass(s), DiagonalPass(s), DistancesPass(s), PointsPass(s));
  }

  /** `a` is immediately followed by `b` somewhere in `calls`. */
  predicate Follows(calls: seq<Command>, a: Command, b: Command) {
    exists i :: 0 <= i < |calls| - 1 && calls[i] == a && calls[i + 1] == b
  }

  lemma FollowsAfter(pre: seq<Command>, mid: seq<Command>, a: Command, b: Command)
    requires Follows(mid, a, b)
    ensures Follows(pre + mid, a, b)
  {
    var i :| 0 <= i < |mid| - 1 && mid[i] == a && mid[i + 1] == b;
    assert (pre + mid)[|pre| + i] == a && (pre + mid)[|pre| + i + 1] == b;
  }

  lemma FollowsBefore(mid: seq<Command>, post: seq<Command>, a: Command, b: Command)
    requires Follows(mid, a, b)
    ensures Follows(mid + post, a, b)
  {
    var i :| 0 <= i < |mid| - 1 && mid[i] == a && mid[i + 1] == b;
    assert (mid + post)[i] == a && (mid + post)[i + 1] == b;
  }

  /**
   * Whether `render` should draw `d`: the cube's faces when the cube is on
   * and one of its alphas truthy; the three grid planes when the grid is on
   * and its alpha truthy; the three shafts in rgb mode or the whole axis in
   * black mode when the axis is on and its alpha truthy; the diagonal
   * likewise; the distances, with the flag of their colour mode, and the
   * points always.
   */
  predicate ShouldDraw(s: Scene, d: DrawCall) {
    var grid, axis := s.drawGrid && s.alphaGrid != 0.0, s.drawAxis && s.alphaAxis != 0.0;
    match d
    case CubeFaces => s.drawCube && (s.alphaIn != 0.0 || s.alphaOut != 0.0)
    case GridX => grid
    case GridY => grid
    case GridZ => grid
    case AxisX => axis && s.colorAxis == Rgb
    case AxisY => axis && s.colorAxis == Rgb
    case AxisZ => axis && s.colorAxis == Rgb
    case AxisWhole => axis && s.colorAxis == Black
    case CubeDiagonal => s.drawDiagonal && s.alphaDiagonal != 0.0
    case Distances(flag) => flag == RgbFlag(s.colorDistances)
    case PointCubes => true
  }

  lemma CubePassDraws(s: Scene)
    ensures forall d :: Draw(d) in CubePass(s) <==> d == CubeFaces && s.drawCube && (s.alphaIn != 0.0 || s.alphaOut != 0.0)
    ensures forall f :: Gl(CullFace(f)) in CubePass(s) <==>
      s.drawCube && ((f == Back && s.alphaIn != 0.0) || (f == Front && s.alphaOut != 0.0))
  {
  }

  lemma GridPassDraws(s: Scene)
    ensures forall d :: Draw(d) in GridPass(s) <==> (d == GridX || d == GridY || d == GridZ) && s.drawGrid && s.alphaGrid != 0.0
    ensures forall f :: Gl(CullFace(f)) !in GridPass(s)
  {
  }

  lemma AxisPassDraws(s: Scene)
    ensures forall d :: Draw(d) in AxisPass(s) <==>
      s.drawAxis && s.alphaAxis != 0.0 && (if s.colorAxis == Rgb then d == AxisX || d == AxisY || d == AxisZ else d == AxisWhole)
    ensures forall f :: Gl(CullFace(f)) !in AxisPass(s)
  {
  }

  lemma DiagonalPassDraws(s: Scene)
    ensures forall d :: Draw(d) in DiagonalPass(s) <==> d == CubeDiagonal && s.drawDiagonal && s.alphaDiagonal != 0.0
    ensures forall f :: Gl(CullFace(f)) !in DiagonalPass(s)
  {
  }

  lemma LastPassesDraw(s: Scene)
    ensures forall d :: Draw(d) in DistancesPass(s) <==> d == Distances(RgbFlag(s.colorDistances))
    ensures forall d :: Draw(d) in PointsPass(s) <==> d == PointCubes
    ensures forall f :: Gl(CullFace(f)) !in DistancesPass(s) && Gl(CullFace(f)) !in PointsPass(s)
  {
  }

  /**
   * `render` draws exactly what `ShouldDraw` says, and culls the back faces
   * (for the inner pass) or the front faces (for the outer pass) exactly
   * when the cube is on and the matching alpha is truthy.
   */
  lemma RenderDraws(s: Scene)
    ensures forall d :: Draw(d) in Render(s).calls <==> ShouldDraw(s, d)
    ensures Gl(CullFace(Back)) in Render(s).calls <==> s.drawCube && s.alphaIn != 0.0
    ensures Gl(CullFace(Front)) in Render(s).calls <==> s.drawCube && s.alphaOut != 0.0
  {
    CubePassDraws(s);
    GridPassDraws(s);
    AxisPassDraws(s);
    DiagonalPassDraws(s);
    LastPassesDraw(s);
    DrawsOfPasses(s, CubePass(s), GridPass(s), AxisPass(s), DiagonalPass(s), DistancesPass(s), PointsPass(s));
  }

  /** The draws and culls of a clear followed by six passes, from those of each pass. */
  lemma DrawsOfPasses(s: Scene, c: seq<Command>, g: seq<Command>, x: seq<Command>, dg: seq<Command>,
                      t: seq<Command>, p: seq<Command>)
    requires forall d :: Draw(d) in c <==> d == CubeFaces && s.drawCube && (s.alphaIn != 0.0 || s.alphaOut != 0.0)
    requires forall d :: Draw(d) in g <==> (d == GridX || d == GridY || d == GridZ) && s.drawGrid && s.alphaGrid != 0.0
    requires forall d :: Draw(d) in x <==>
      s.drawAxis && s.alphaAxis != 0.0 && (if s.colorAxis == Rgb then d == AxisX || d == AxisY || d == AxisZ else d == AxisWhole)
    requires forall d :: Draw(d) in dg <==> d == CubeDiagonal && s.drawDiagonal && s.alphaDiagonal != 0.0
    requires forall d :: Draw(d) in t <==> d == Distances(RgbFlag(s.colorDistances))
    requires forall d :: Draw(d) in p <==> d == PointCubes
    requires forall f :: Gl(CullFace(f)) in c <==>
      s.drawCube && ((f == Back && s.alphaIn != 0.0) || (f == Front && s.alphaOut != 0.0))
    requires forall f :: Gl(CullFace(f)) !in g && Gl(CullFace(f)) !in x && Gl(CullFace(f)) !in dg
    requires forall f :: Gl(CullFace(f)) !in t && Gl(CullFace(f)) !in p
    ensures forall d :: Draw(d) in [Gl(Clear)] + c + g + x + dg + t + p <==> ShouldDraw(s, d)
    ensures Gl(CullFace(Back)) in [Gl(Clear)] + c + g + x + dg + t + p <==> s.drawCube && s.alphaIn != 0.0
    ensures Gl(CullFace(Front)) in [Gl(Clear)] + c + g + x + dg + t + p <==> s.drawCube && s.alphaOut != 0.0
  {
    forall e: Command ensures e in [Gl(Clear)] + c + g + x + dg + t + p <==>
      e == Gl(Clear) || e in c || e in g || e in x || e in dg || e in t || e in p
    {
      InPasses(c, g, x, dg, t, p, e);
    }
  }

  lemma InPasses(c: seq<Command>, g: seq<Command>, x: seq<Command>, d: seq<Command>, t: seq<Command>, p: seq<Command>, e: Command)
    ensures e in [Gl(Clear)] + c + g + x + d + t + p <==> e == Gl(Clear) || e in c || e in g || e in x || e in d || e in t || e in p
  {
  }

  /** Each shaft is drawn right after its colour, the whole axis right after black. */
  lemma AxisPassColours(s: Scene)
    requires s.drawAxis && s.alphaAxis != 0.0
    ensures s.colorAxis == Rgb ==>
      && Follows(AxisPass(s), Uniform3fv(AxisProgram, UColor, Color.RED), Draw(AxisX))
      && Follows(AxisPass(s), Uniform3fv(AxisProgram, UColor, Color.GREEN), Draw(AxisY))
      && Follows(AxisPass(s), Uniform3fv(AxisProgram, UColor, Color.BLUE), Draw(AxisZ))
    ensures s.colorAxis == Black ==>
      Follows(AxisPass(s), Uniform3fv(AxisProgram, UColor, Color.BLACK), Draw(AxisWhole))
  {
    var x := AxisPass(s);
    if s.colorAxis == Rgb {
      assert x[4] == Uniform3fv(AxisProgram, UColor, Color.RED) && x[5] == Draw(AxisX);
      assert x[6] == Uniform3fv(AxisProgram, UColor, Color.GREEN) && x[7] == Draw(AxisY);
      assert x[8] == Uniform3fv(AxisProgram, UColor, Color.BLUE) && x[9] == Draw(AxisZ);
    } else {
      assert x[4] == Uniform3fv(AxisProgram, UColor, Color.BLACK) && x[5] == Draw(AxisWhole);
    }
  }

  /** `a` right before `b` in the axis pass stays so in the whole of `render`. */
  lemma FollowsInRender(s: Scene, a: Command, b: Command)
    requires Follows(AxisPass(s), a, b)
    ensures Follows(Render(s).calls, a, b)
  {
    var c, g, x, d, t, p := CubePass(s), GridPass(s), AxisPass(s), DiagonalPass(s), DistancesPass(s), PointsPass(s);
    assert Render(s).calls == [Gl(Clear)] + c + g + x + d + t + p;
    FollowsAfter([Gl(Clear)] + c + g, x, a, b);
    FollowsBefore([Gl(Clear)] + c + g + x, d, a, b);
    FollowsBefore([Gl(Clear)] + c + g + x + d, t, a, b);
    FollowsBefore([Gl(Clear)] + c + g + x + d + t, p, a, b);
  }

  /** A draw that `ShouldDraw` rules out is missing from `render`. */
  lemma NotDrawnInRender(s: Scene, d: DrawCall)
    requires !ShouldDraw(s, d)
    ensures Draw(d) !in Render(s).calls
  {
    RenderDraws(s);
  }

  /**
   * The axis in rgb mode draws its X, Y and Z shafts each right after
   * setting red, green and blue, and never the whole axis.
   */
  lemma AxisRgbColours(s: Scene)
    requires s.drawAxis && s.alphaAxis != 0.0 && s.colorAxis == Rgb
    ensures Follows(Render(s).calls, Uniform3fv(AxisProgram, UColor, Color.RED), Draw(AxisX))
    ensures Follows(Render(s).calls, Uniform3fv(AxisProgram, UColor, Color.GREEN), Draw(AxisY))
    ensures Follows(Render(s).calls, Uniform3fv(AxisProgram, UColor, Color.BLUE), Draw(AxisZ))
    ensures Draw(AxisWhole) !in Render(s).calls
  {
    NotDrawnInRender(s, AxisWhole);
    AxisPassColours(s);
    FollowsInRender(s, Uniform3fv(AxisProgram, UColor, Color.RED), Draw(AxisX));
    FollowsInRender(s, Uniform3fv(AxisProgram, UColor, Color.GREEN), Draw(AxisY));
    FollowsInRender(s, Uniform3fv(AxisProgram, UColor, Color.BLUE), Draw(AxisZ));
  }

  /** The axis in black mode draws the whole axis right after setting black, and no single shaft. */
  lemma AxisBlackColours(s: Scene)
    requires s.drawAxis && s.alphaAxis != 0.0 && s.colorAxis == Black
    ensures Follows(Render(s).calls, Uniform3fv(AxisProgram, UColor, Color.BLACK), Draw(AxisWhole))
    ensures Draw(AxisX) !in Render(s).calls && Draw(AxisY) !in Render(s).calls && Draw(AxisZ) !in Render(s).calls
  {
    NotDrawnInRender(s, AxisX);
    NotDrawnInRender(s, AxisY);
    NotDrawnInRender(s, AxisZ);
    AxisPassColours(s);
    FollowsInRender(s, Uniform3fv(AxisProgram, UColor, Color.BLACK), Draw(AxisWhole));
  }

  /** Splits a concatenation of six parts after its first part. */
  lemma SplitAfterFirst(u: seq<Command>, g: seq<Command>, x: seq<Command>, d: seq<Command>,
                        t: seq<Command>, p: seq<Command>)
    ensures (u + g + x + d + t + p)[..|u|] == u
    ensures (u + g + x + d + t + p)[|u|..] == g + x + d + t + p
  {
    assert u + g + x + d + t + p == u + (g + x + d + t + p);
  }

  /** The passes after the cube's never change the culled face. */
  lemma NoCullAfterCube(s: Scene)
    ensures forall f :: Gl(CullFace(f)) !in GridPass(s) + AxisPass(s) + DiagonalPass(s) + DistancesPass(s) + PointsPass(s)
  {
    GridPassDraws(s);
    AxisPassDraws(s);
    DiagonalPassDraws(s);
    LastPassesDraw(s);
    var g, x, d, t, p := GridPass(s), AxisPass(s), DiagonalPass(s), DistancesPass(s), PointsPass(s);
    forall f
      ensures Gl(CullFace(f)) !in g + x + d + t + p
    {
      assert Gl(CullFace(f)) !in g + x;
      assert Gl(CullFace(f)) !in g + x + d;
      assert Gl(CullFace(f)) !in g + x + d + t;
    }
  }

  /**
   * With both cube alphas truthy, the inside of the cube (back faces culled,
   * `alphaIn`) is drawn before its outside (front faces culled, `alphaOut`),
   * right after the cube pass selects its program, and no later pass changes
   * the culled face.
   */
  lemma CubeInsideBeforeOutside(s: Scene)
    requires s.drawCube && s.alphaIn != 0.0 && s.alphaOut != 0.0
    ensures |Render(s).calls| >= 10
    ensures Render(s).calls[1] == Use(CubeProgram)
    ensures Render(s).calls[4..10] ==
      [Gl(CullFace(Back)), Uniform1f(CubeProgram, UAlpha, s.alphaIn), Draw(CubeFaces),
       Gl(CullFace(Front)), Uniform1f(CubeProgram, UAlpha, s.alphaOut), Draw(CubeFaces)]
    ensures forall f :: Gl(CullFace(f)) !in Render(s).calls[10..]
  {
    var c, g, x, d, t, p := CubePass(s), GridPass(s), AxisPass(s), DiagonalPass(s), DistancesPass(s), PointsPass(s);
    var u := [Gl(Clear)] + c;
    assert Render(s).calls == u + g + x + d + t + p;
    SplitAfterFirst(u, g, x, d, t, p);
    assert u[4..10] == c[3..9];
    NoCullAfterCube(s);
  }

  /**
   * `INITIALIZE` discards every setting of the current state for those of
   * `initialCanvas`, keeps only the new objects and the reported errors,
   * and clears the context to the initial background before any draw.
   */
  lemma InitializeResets(s: Scene, width: real, height: real, created: nat, reported: seq<string>)
    ensures var r := Reduce(s, Initialize(width, height, created, reported));
      && r.scene.(objects := Detached, errors := []) == INITIAL
      && r.scene.objects == Attached(created) && r.scene.errors == reported
      && r.renders && Programs(r.before) == []
      && r.before[..6] == [Gl(EnableCullFace), Gl(EnableBlend), Gl(BlendAlpha), Gl(ClearColor(INITIAL.background, 1.0)),
                          Gl(Viewport(width, height)), CanvasSize(width, height)]
  {
    var r := Reduce(s, Initialize(width, height, created, reported));
    assert NoUse(r.before);
    ProgramsNone(r.before);
  }

  /** The initial background is `#f8fafc`: 248, 250 and 252 out of 255. */
  lemma InitialBackground()
    ensures INITIAL.background == Color.RGB(248.0 / 255.0, 250.0 / 255.0, 252.0 / 255.0)
  {
    var d := Color.AfterHash(BLUE_GRAY_50);
    assert d == "f8fafc";
    assert Color.AllHex(d) by {
      assert Color.IsHexDigit(d[0]) && Color.IsHexDigit(d[1]) && Color.IsHexDigit(d[2]);
      assert Color.IsHexDigit(d[3]) && Color.IsHexDigit(d[4]) && Color.IsHexDigit(d[5]);
    }
    assert Color.PairValue('f', '8') == 248;
    assert Color.PairValue('f', 'a') == 250;
    assert Color.PairValue('f', 'c') == 252;
  }

  /** Every step but `INITIALIZE` and `CLOSE_ERRORS` keeps the errors. */
  lemma ErrorsKept(s: Scene, a: Action)
    requires !a.Initialize? && !a.CloseErrors?
    ensures Reduce(s, a).scene.errors == s.errors
  {
  }
}
