# rgbgaps core, modelled in Dafny

rgbgaps is a web application that shows a colour palette as points inside the
RGB cube, drawn with WebGL. This project models the parts of it that hold
logic of their own:

- the colour codec (`lib/color/index.ts`, `helpers/color.ts`): hex,
  short-hex and triplet parsing, `toHex`, `toRGBString` dispatch and
  `distanceRGB`;
- the palette text editor's import and export (`components/modal/text-editor.tsx`);
- the first-person (free-look) camera (`lib/glsl/camera.ts`), a class whose setters clamp and
  recompute their matrices, and the helpers it uses (`lib/glsl/helpers.ts`);
- the GLSL objects (`lib/glsl/object.ts`, `shader.ts`, `program.ts`) and the
  three meshes (`lib/glsl/model/cube.ts`, `axis.ts`, `grid.ts`), including
  the grid's nested generation loops;
- the in-place linear algebra on `Float32Array`s (`lib/linear/mat4.ts`,
  `vec3.ts`, `linear.ts`);
- the canvas reducer (`reducers/canvas.ts`) and the draw order of its
  `render`.

Modelling choices:

- JavaScript numbers are `real`s. `Math.sqrt`, `Math.sin`, `Math.cos` and
  `Math.atan` are the function values of a `Numerics.MathLib` passed in. A
  member that needs a law of `sqrt` states it as a precondition for the one
  argument it uses (`Numerics.SqrtAt`).
- The WebGL context is the class `WebGL.Device`. Its `calls` field is the
  ordered trace of every call it received. What the GPU answers (new
  handles, compile and link flags, info logs, uniform locations) comes from
  an `Oracle`: functions of the trace so far.
- An `onerror` callback is a `GlslObject.ErrorSink` holding the messages it
  received.
- The camera takes gl-matrix's `lookAt`, `perspective`, `ortho`, `normalize`
  and `cross` as uninterpreted function values. Its matrices are terms
  recording their arguments. The class invariant `Valid()` says each
  matrix is the term of the current fields. Two ghost counters record how
  many times the view and projection matrices were recomputed, which states
  the "unchanged value, no recompute" rules.
- The grid's coordinates are multiples of 1/128. They are kept as integers
  multiplied by 128 and uploaded as fractions over 128.
- The reducer is a function from a scene and an action to the new scene,
  the calls it makes on the long-lived objects, and whether it renders.
  `render` is a function from a scene to the ordered trace of its GL calls.
- `parseInt`, `parseFloat`, `toFixed` and the placing of a float on the
  decimal grid are the function values of a `Color.JsNumerics`. `NaN` is
  `None`.

## Model

| member | source | states |
|---|---|---|
| Numerics.Clamp | lib/glsl/camera.ts:441 | `Math.max(lo, Math.min(hi, x))` lies in [lo, hi] when lo <= hi, is x when x is already inside, and is always x, lo or hi |
| Numerics.Trunc | lib/glsl/model/grid.ts:81 | `Math.trunc` rounds toward zero: n <= x < n + 1 for x >= 0 and n - 1 < x <= n for x < 0 |
| Numerics.SquareNonNegative | lib/color/index.ts:163-169 | a square is never negative (used for `distanceRGB`) |
| GlslHelpers.ToRad | lib/glsl/helpers.ts:7-16 | `toRad(180)` is π |
| GlslHelpers.ToDeg | lib/glsl/helpers.ts:24 | defines `toDeg`: radians divided by `π/180` (its laws are `ToDegOfToRad` and `ToRadOfToDeg`) |
| GlslHelpers.ToDegOfToRad | lib/glsl/helpers.ts:7-24 | `toDeg(toRad(x)) == x` for every x |
| GlslHelpers.ToRadOfToDeg | lib/glsl/helpers.ts:7-24 | `toRad(toDeg(x)) == x` for every x |
| GlslHelpers.ToRadMonotonic | lib/glsl/helpers.ts:16 | `toRad` keeps both `<=` and `<` between angles, in both directions |
| GlslHelpers.Record.constructor | lib/glsl/helpers.ts:35 | a record starts with the given fields |
| GlslHelpers.MergeValue | lib/glsl/helpers.ts:36-41 | the field keeps its value when the source gives none and takes the source's value otherwise |
| GlslHelpers.Merge | lib/glsl/helpers.ts:35-42 | `merge` leaves `dst` with exactly the fields of `Merged`: the source's value in `field` when it is defined (copied by component for vectors), `dst` unchanged otherwise |
| GlslHelpers.MergeUndefined | lib/glsl/helpers.ts:38 | an undefined `src[field]` leaves `dst` as it was |
| GlslHelpers.MergeDefined | lib/glsl/helpers.ts:38-41 | a defined `src[field]` ends up in `dst[field]`, no key is lost or added besides `field`, and every other field keeps its value |
| GlslHelpers.MergeIdempotent | lib/glsl/helpers.ts:35-42 | repeating the same `merge` changes nothing more |
| GlslHelpers.MergedField | lib/glsl/helpers.ts:36-41 | on the merged field, `Merged` agrees with `MergeValue` |
| Linear.ToRad | lib/linear/linear.ts:22-24 | `Linear.toRad(180)` is π |
| Linear.ToDeg | lib/linear/linear.ts:32-34 | `Linear.toDeg(π)` is 180 |
| Linear.FactorsReciprocal | lib/linear/linear.ts:11-14 | the factors π/180 and 180/π multiply to 1 |
| Linear.ToDegOfToRad | lib/linear/linear.ts:11-34 | `toDeg(toRad(x)) == x` |
| Linear.ToRadOfToDeg | lib/linear/linear.ts:11-34 | `toRad(toDeg(x)) == x` |
| Linear.ToRadAdditive | lib/linear/linear.ts:22-24 | `toRad(a + b) == toRad(a) + toRad(b)` |
| Linear.AgreesWithHelpers | lib/linear/linear.ts:22-34 | `Linear.toRad`/`toDeg` give the same angles as the helpers' `toRad`/`toDeg` |
| Vec3.Normalized | lib/linear/vec3.ts:20-28 | defines `normalize`'s result, each entry divided by the length; shape: three entries |
| Vec3.Zero | lib/linear/vec3.ts:9-11 | `Vec3.zero()` is a new array of three zeros |
| Vec3.Normalize | lib/linear/vec3.ts:20-28 | `out` holds each entry of the original `vec` divided by its length, also when `out` is `vec`, because the length is computed before any write |
| Vec3.SqrtNonZero | lib/linear/vec3.ts:21 | the square root of a nonzero radicand is nonzero, so `normalize` does not divide by zero on a nonzero vector |
| Vec3.NormalizedUnit | lib/linear/vec3.ts:20-28 | a nonzero vector normalizes to squared length 1 |
| Vec3.NormalizedScales | lib/linear/vec3.ts:23-25 | each normalized entry times the length gives the input entry back: the direction is kept |
| GlslObject.StatusOf | lib/glsl/object.ts:43-45 | the `status` getter reads true exactly when `_status` is `true`; unset reads false |
| GlslObject.ErrorSink.constructor | lib/glsl/object.ts:31-35 | a callback that has received nothing yet |
| GlslObject.HandleError | lib/glsl/object.ts:31-35 | `handleError` passes the message once to a given `onerror` and returns it unchanged |
| GlslObject.InfoMessage | lib/glsl/program.ts:51 | `log || 'unknown error'` is never empty and is the log itself when the log is a nonempty string |
| Shader.ShaderName | lib/glsl/shader.ts:28 | the stage name is `vertex` exactly for a vertex shader |
| Shader.ShaderErrorText | lib/glsl/shader.ts:55-57 | the message is `could not <action> the <name> shader:\n<error>` |
| Shader.Compiled | lib/glsl/shader.ts:23-44 | the shader's status reads true exactly when nothing was reported, a true status implies an id, the first call is `createShader`, and the id is the context's answer to it |
| Shader.GLSLShader.constructor | lib/glsl/shader.ts:23-44 | id, status, calls and reported messages are those of `Compiled` |
| Shader.GLSLShader.Delete | lib/glsl/shader.ts:63-69 | `delete` always issues `deleteShader(id)` and unsets the status, which then reads false |
| Shader.CreateFailure | lib/glsl/shader.ts:30-31 | a null `createShader` gives no id, a false status, only the create call, and the message `could not create the <name> shader:\nnunknown error` with its `nunknown` spelling |
| Shader.StatusIsCompileStatus | lib/glsl/shader.ts:37 | status true exactly when the shader was created and the compile status is truthy |
| Shader.CompileFailure | lib/glsl/shader.ts:39-42 | a failed compilation reads the info log, reports it (or `unknown error`) and deletes the shader last |
| Program.Linked | lib/glsl/program.ts:27-56 | the program's status reads true exactly when nothing was reported; a true status implies an id and both shader ids; deleting the shaders happens only on a created program that failed to link; the calls extend those before |
| Program.AttachAndLink | lib/glsl/program.ts:44-48 | both shaders are attached, the program linked and its link status read, in that order |
| Program.GLSLProgram.SameContext | lib/glsl/object.ts:6 | the shaders and the program share one context |
| Program.GLSLProgram.constructor | lib/glsl/program.ts:27-56 | id, status, calls and reported messages are those of `Linked`; on a link failure both shaders read status false, otherwise their status is untouched |
| Program.GLSLProgram.Use | lib/glsl/program.ts:74-76 | `use` binds the program only when its status is true |
| Program.GLSLProgram.GetLocation | lib/glsl/program.ts:83-95 | a false status answers null with no query and no caching; a cached name answers the cached value, `null` included, with no query; otherwise one `getUniformLocation` is issued and its answer cached |
| Program.GLSLProgram.DeleteShaders | lib/glsl/program.ts:100-103 | both shaders are deleted, vertex first, and read status false |
| Program.GLSLProgram.Delete | lib/glsl/program.ts:108-115 | `delete` always runs, because its guard compares a boolean with `undefined`: both shaders and the program are deleted and the status reads false |
| Program.LocateTwice | lib/glsl/program.ts:87-94 | asking twice for one name answers the same both times and queries the context at most once |
| Program.InvalidShaders | lib/glsl/program.ts:33-35 | a missing shader id gives no program, a false status, no call and the message `could not create the GLSL program:\nnot valid shader objects` |
| Program.StatusIsLinkStatus | lib/glsl/program.ts:48 | status true exactly when both shader ids exist, the program was created and the link status is truthy |
| Program.LinkFailure | lib/glsl/program.ts:50-53 | a failed link reads the info log, reports it (or `unknown error`), then deletes both shaders and the program |
| Mesh.IssueUpload | lib/glsl/model/cube.ts:73-82 | the seven upload calls, in the source's order |
| Mesh.Built | lib/glsl/model/cube.ts:44-85 | the status is always set, and is true exactly when the vertex array and both buffers exist, exactly when nothing is reported; a null vertex array leaves both buffers null with the VAO message; the vertex buffer is checked before the element buffer |
| Cube.GLSLCube.constructor | lib/glsl/model/cube.ts:44-85 | objects, status, calls and reported messages are those of `Mesh.Built` over the cube's tables |
| Cube.GLSLCube.Bind | lib/glsl/model/cube.ts:105-107 | `bind` binds the vertex array only when the status is true |
| Cube.GLSLCube.Draw | lib/glsl/model/cube.ts:112-115 | `draw` is `drawCube` then `drawDiagonal` |
| Cube.GLSLCube.DrawCube | lib/glsl/model/cube.ts:120-122 | a triangle strip over 14 entries from 0 |
| Cube.GLSLCube.DrawDiagonal | lib/glsl/model/cube.ts:127-129 | a line over 2 entries from 14 |
| Cube.GLSLCube.Delete | lib/glsl/model/cube.ts:134-139 | `delete` releases the vertex buffer and the vertex array but not the element buffer, and the status reads false |
| Cube.CornersOfCube | lib/glsl/model/cube.ts:9-18 | 24 coordinates, each 1 or -1, and the eight corners are pairwise distinct |
| Cube.IndexInRange | lib/glsl/model/cube.ts:21-28 | 16 index entries, each below 8 |
| Cube.DrawRanges | lib/glsl/model/cube.ts:120-129 | `drawCube` reads [0, 14) and `drawDiagonal` [14, 16), both inside the table, together each entry once in order |
| Cube.Diagonal | lib/glsl/model/cube.ts:12-27 | the diagonal's entries are 5 and 2, the corners (-1, -1, -1) and (1, 1, 1) |
| Axis.GLSLAxis.constructor | lib/glsl/model/axis.ts:46-87 | objects, status, calls and reported messages are those of `Mesh.Built` over the axis tables: VAO, then VBO, then EBO, each failure with its own message |
| Axis.GLSLAxis.Bind | lib/glsl/model/axis.ts:107-109 | `bind` binds the vertex array only when the status is true |
| Axis.GLSLAxis.Draw | lib/glsl/model/axis.ts:114-119 | lines over [0, 6), then strips over [6, 9), [9, 12) and [12, 15) |
| Axis.GLSLAxis.DrawX | lib/glsl/model/axis.ts:124-127 | lines over 6 entries from 0, then the strip from 6 |
| Axis.GLSLAxis.DrawY | lib/glsl/model/axis.ts:132-135 | lines over 2 entries from 2, then the strip from 9 |
| Axis.GLSLAxis.DrawZ | lib/glsl/model/axis.ts:140-143 | lines over 2 entries from 4, then the strip from 12 |
| Axis.GLSLAxis.Delete | lib/glsl/model/axis.ts:148-154 | `delete` releases the element buffer, the vertex buffer and the vertex array, and the status reads false |
| Axis.IndexInRange | lib/glsl/model/axis.ts:9-30 | 30 coordinates and 15 index entries, each below the vertex count 10 |
| Axis.Shafts | lib/glsl/model/axis.ts:10-26 | the three shafts start at vertex 0, (-1, -1, -1), and end at the tips 1, 4 and 7, at 1.15 on their own axis |
| Axis.ArrowheadsAtTips | lib/glsl/model/axis.ts:24-29 | each arrowhead strip passes through the tip of its shaft |
| Axis.SpansOfTwo | lib/glsl/model/axis.ts:114-119 | the entries two consecutive `drawElements` calls read are those of the first followed by those of the second |
| Axis.DrawCoversTable | lib/glsl/model/axis.ts:114-119 | `draw` reads every entry of the table exactly once, in order |
| Axis.DrawXReadsAllShafts | lib/glsl/model/axis.ts:124-127 | `drawX` reads [0, 9): as written, all three shafts and the x arrowhead |
| Axis.DrawYRanges | lib/glsl/model/axis.ts:132-135 | `drawY` reads [2, 4) and [9, 12), inside the table |
| Axis.DrawZRanges | lib/glsl/model/axis.ts:140-143 | `drawZ` reads [4, 6) and [12, 15), inside the table |
| Axis.DrawXOverlapsOthers | lib/glsl/model/axis.ts:124-143 | as written, `drawX` also reads entries 2 and 4, which `drawY` and `drawZ` read as their own shafts |
| Axis.DrawXShaftPartition | lib/glsl/model/axis.ts:114-143 | with `drawX` reading [0, 2) and its arrowhead, the three single-axis draws read no entry twice and together read every entry of the table, as `draw` does |
| Grid.Built | lib/glsl/model/grid.ts:24-56 | the status is always set, true exactly when both objects exist, exactly when nothing is reported; a null vertex array leaves the buffer null with the VAO message; a null buffer gives the VBO message |
| Grid.ValuesFrom | lib/glsl/model/grid.ts:86-87 | defines the loop counter's values `v, v + k, …` while at most 1 (128 in the scaled integers) |
| Grid.Values | lib/glsl/model/grid.ts:81-87 | defines the counter's values for step `k / 128`: from -1 when `k > 0`, none otherwise |
| Grid.GridData | lib/glsl/model/grid.ts:82-95 | defines `data.flat()`: the x family's segments, then y's, then z's |
| Grid.Generate | lib/glsl/model/grid.ts:81-95 | the nested loops produce `GridData(k)`: for each `i`, then each `j`, one segment per family, the families concatenated x, y, z |
| Grid.DescribeLayout | lib/glsl/model/grid.ts:47-51 | the four layout calls, in the source's order |
| Grid.GLSLGrid.constructor | lib/glsl/model/grid.ts:24-56 | the size is 64 in every branch; objects, status and message are those of `Built`; geometry is generated and uploaded only after both objects exist and is empty otherwise |
| Grid.GLSLGrid.SetSize | lib/glsl/model/grid.ts:80-102 | the size is stored as given, the data regenerated for step `trunc(size)/128` whatever the status, and uploaded only when the status is true |
| Grid.GLSLGrid.Bind | lib/glsl/model/grid.ts:107-109 | `bind` binds the vertex array only when the status is true |
| Grid.GLSLGrid.Draw | lib/glsl/model/grid.ts:114-116 | lines over `data.length / 3` vertices from 0 |
| Grid.GLSLGrid.DrawX | lib/glsl/model/grid.ts:121-123 | lines over `data.length / 9` vertices from 0 |
| Grid.GLSLGrid.DrawY | lib/glsl/model/grid.ts:128-131 | lines over `data.length / 9` vertices from `data.length / 9` |
| Grid.GLSLGrid.DrawZ | lib/glsl/model/grid.ts:136-139 | lines over `data.length / 9` vertices from twice that |
| Grid.GLSLGrid.Delete | lib/glsl/model/grid.ts:144-149 | `delete` releases the buffer and the vertex array, and the status reads false |
| Grid.InnerStep | lib/glsl/model/grid.ts:87-90 | one inner iteration moves one segment from the remaining work to the output |
| Grid.InnerDone | lib/glsl/model/grid.ts:87 | past 1 the inner loop has nothing left |
| Grid.OuterStep | lib/glsl/model/grid.ts:86-92 | one outer iteration moves one inner loop from the remaining work to the output |
| Grid.OuterDone | lib/glsl/model/grid.ts:86 | past 1 the outer loop has nothing left |
| Grid.NoStepNoGeometry | lib/glsl/model/grid.ts:81-95 | a step `trunc(size)/128 <= 0` leaves the data empty |
| Grid.ValuesFromBounds | lib/glsl/model/grid.ts:86-87 | loop value m is `v + m k` and never passes 1 |
| Grid.ValuesInRange | lib/glsl/model/grid.ts:86-87 | every loop value lies in [-1, 1] |
| Grid.ValuesNonEmpty | lib/glsl/model/grid.ts:86 | a positive step runs the loop at least once, first at -1 |
| Grid.InitialValues | lib/glsl/model/grid.ts:27 | size 64 gives step 0.5 and the values -1, -0.5, 0, 0.5, 1 |
| Grid.InnerLength | lib/glsl/model/grid.ts:87-90 | one inner loop pushes 6 numbers per value |
| Grid.OuterLength | lib/glsl/model/grid.ts:86-92 | both loops push `6 · rows · values` numbers |
| Grid.FamilyLength | lib/glsl/model/grid.ts:82-92 | with n values per axis, a family holds 6n² numbers |
| Grid.GridLength | lib/glsl/model/grid.ts:82-95 | the data holds 18n² numbers, the x family first, then y, then z |
| Grid.InitialSegments | lib/glsl/model/grid.ts:27-53 | size 64 gives 25 segments per family and 450 numbers |
| Grid.InitialCount | lib/glsl/model/grid.ts:27 | size 64 gives 5 values per axis |
| Grid.GridOfCount | lib/glsl/model/grid.ts:82-95 | the lengths of `GridLength` at a known count of values |
| Grid.InnerAt | lib/glsl/model/grid.ts:87-90 | segment q of one inner loop sits at `[6q, 6q + 6)` |
| Grid.OuterAt | lib/glsl/model/grid.ts:86-92 | segment q of outer iteration p sits at `[6(pn + q), 6(pn + q) + 6)` |
| Grid.OuterAtHead | lib/glsl/model/grid.ts:86-92 | the segments of the first outer iteration come first |
| Grid.OuterAtTail | lib/glsl/model/grid.ts:86-92 | segment (p, q) is segment (p - 1, q) of the later iterations, shifted by one inner loop |
| Grid.FamilySegment | lib/glsl/model/grid.ts:88-90 | segment m = pn + q of a family runs along the family's axis from -1 to 1 at the loop values p and q |
| Grid.InnerInRange | lib/glsl/model/grid.ts:88-90 | one inner loop pushes only coordinates in [-1, 1] |
| Grid.OuterInRange | lib/glsl/model/grid.ts:86-92 | both loops push only coordinates in [-1, 1] |
| Grid.GridInRange | lib/glsl/model/grid.ts:86-95 | every generated coordinate lies in [-1, 1] |
| Grid.DrawRanges | lib/glsl/model/grid.ts:114-139 | with `s = data.length / 9`, exact, `drawX`, `drawY` and `drawZ` draw [0, s), [s, 2s) and [2s, 3s): the x, y and z families, disjoint, together the `data.length / 3` vertices of `draw` |
| Camera.StoredHeight | lib/glsl/camera.ts:345 | the stored height is never 0: it is `EPSILON` exactly for heights within `EPSILON` of 0 and the given height otherwise |
| Camera.NearlyZero | lib/glsl/camera.ts:345 | `glMatrix.equals(h, 0)` holds exactly when h lies in [-EPSILON, EPSILON] |
| Camera.DefaultsShape | lib/glsl/camera.ts:57-75 | the static default fov lies between its bounds, the upper bound is π, and the default pitch -90 lies outside the range `rotate` keeps |
| Camera.GLSLCamera.constructor | lib/glsl/camera.ts:175-184 | a camera at the given resolution whose snapshots and fields are the static defaults, with each matrix computed once from them |
| Camera.GLSLCamera.UpdateViewMatrix | lib/glsl/camera.ts:224-226 | the view matrix is `lookAt` of the current position, front and up |
| Camera.GLSLCamera.UpdateProjectionMatrices | lib/glsl/camera.ts:231-238 | both projection matrices are recomputed from the current fov, resolution and clipping |
| Camera.GLSLCamera.UpdateMatrices | lib/glsl/camera.ts:243-246 | every matrix agrees with the current fields, each recomputed once |
| Camera.GLSLCamera.SetDefaultProjection | lib/glsl/camera.ts:262-269 | each defined field of the patch replaces the stored default, each undefined one keeps it; the live fields and matrices are untouched |
| Camera.GLSLCamera.SetDefaultView | lib/glsl/camera.ts:285-293 | the same merge for the view snapshot |
| Camera.GLSLCamera.SetDefaultDynamic | lib/glsl/camera.ts:307-313 | the same merge for the dynamics snapshot |
| Camera.PatchIdempotent | lib/glsl/camera.ts:262-313 | setting the same partial defaults twice is setting them once |
| Camera.EmptyPatch | lib/glsl/camera.ts:262-313 | an all-undefined patch leaves the defaults as they were |
| Camera.GLSLCamera.SetProjection | lib/glsl/camera.ts:322-324 | only the projection type changes, and no matrix is recomputed |
| Camera.GLSLCamera.SetResolution | lib/glsl/camera.ts:335-351 | the width is stored, a changed height is stored through `StoredHeight`, and the projection is recomputed once exactly when either differs from the stored value |
| Camera.GLSLCamera.SetWidth | lib/glsl/camera.ts:359-364 | the width is stored, with one recompute exactly when it changed |
| Camera.GLSLCamera.SetHeight | lib/glsl/camera.ts:372-377 | a changed height is stored through `StoredHeight`, with one recompute exactly when it changed |
| Camera.GLSLCamera.SetClipping | lib/glsl/camera.ts:388-404 | both planes are stored, with one recompute exactly when either changed |
| Camera.GLSLCamera.SetNear | lib/glsl/camera.ts:412-417 | the near plane is stored, with one recompute exactly when it changed |
| Camera.GLSLCamera.SetFar | lib/glsl/camera.ts:425-430 | the far plane is stored, with one recompute exactly when it changed |
| Camera.GLSLCamera.SetFov | lib/glsl/camera.ts:438-444 | unless the degree argument equals the stored radians, the fov becomes its radians clamped to [fovMin, fovMax] and the projection is recomputed; otherwise nothing changes; a degree value stored within range reads back unchanged through the getter |
| Camera.GLSLCamera.FovDegrees | lib/glsl/camera.ts:433-435 | the `fov` getter returns degrees whose radians are the stored field (with `GlslHelpers.ToDegOfToRad`, the setter's argument read back) |
| Camera.GLSLCamera.FovMinDegrees | lib/glsl/camera.ts:447-449 | the same for `fovMin` |
| Camera.GLSLCamera.FovMaxDegrees | lib/glsl/camera.ts:465-467 | the same for `fovMax` |
| Camera.GLSLCamera.SetFovMin | lib/glsl/camera.ts:452-462 | the lower bound becomes the radians capped at `fovMax`, a smaller fov is raised to it with one recompute, and the bounds stay ordered |
| Camera.GLSLCamera.SetFovMax | lib/glsl/camera.ts:470-480 | the upper bound becomes the radians raised to at least `fovMin`, a larger fov is lowered to it with one recompute, and the bounds stay ordered |
| Camera.GLSLCamera.SetReference | lib/glsl/camera.ts:499-501 | only the rotation reference changes |
| Camera.GLSLCamera.SetPosition | lib/glsl/camera.ts:509-512 | the position is stored and every matrix recomputed |
| Camera.GLSLCamera.SetFront | lib/glsl/camera.ts:520-524 | front is the normalized argument, right is front × up, and the view is recomputed |
| Camera.GLSLCamera.SetUp | lib/glsl/camera.ts:537-541 | up is the normalized argument, right is front × up, and the view is recomputed |
| Camera.GLSLCamera.SetRotation | lib/glsl/camera.ts:553-568 | front from the first two angles and up from the third (z kept), both normalized, right their cross product, the view recomputed |
| Camera.GLSLCamera.ResetProjection | lib/glsl/camera.ts:190-195 | type, clipping and fov take the stored defaults; the snapshots are unchanged |
| Camera.GLSLCamera.ResetView | lib/glsl/camera.ts:200-207 | position, the three directions, pitch and yaw take the stored defaults |
| Camera.GLSLCamera.ResetDynamic | lib/glsl/camera.ts:212-218 | the dynamics equal the stored snapshot |
| Camera.GLSLCamera.Reset | lib/glsl/camera.ts:589-595 | projection, view and dynamics fields equal the stored defaults and every matrix is recomputed once |
| Camera.GLSLCamera.ResetGeometry | lib/glsl/camera.ts:600-605 | projection and view fields equal the stored defaults, the dynamics are not touched, and every matrix is recomputed once |
| Camera.Travelled | lib/glsl/camera.ts:634-641 | defines the position after `travell`: moved by the distance along the direction, backward for LEFT, DOWN and BACK (its law is `TravelOpposite`) |
| Camera.GLSLCamera.Travell | lib/glsl/camera.ts:631-644 | the position moves by speed (fast or not) times time along right, up or up × right, backward for LEFT, DOWN and BACK; every matrix is recomputed |
| Camera.Opposite | lib/glsl/camera.ts:635-640 | each movement has a distinct opposite |
| Camera.TravelOpposite | lib/glsl/camera.ts:631-644 | a movement followed by its opposite, along the same direction and distance, returns to the start |
| Camera.GLSLCamera.Translate | lib/glsl/camera.ts:651-654 | the position moves by the displacement and only the view is recomputed |
| Camera.RotationFront | lib/glsl/camera.ts:665-669 | defines the direction from pitch and yaw in degrees, (cos p · cos y, sin p, cos p · sin y); its laws are the `front` clauses of `GLSLCamera.Rotate` and `GLSLCamera.SetRotation`, which normalize it |
| Camera.GLSLCamera.Rotate | lib/glsl/camera.ts:661-670 | yaw is overwritten with dx · sensibility, pitch accumulates dy · sensibility clamped to [-89, 89], and front points along those angles |
| Camera.GLSLCamera.ZoomIn | lib/glsl/camera.ts:675-682 | fov becomes fov / zoomFactor capped at `fovMax`, recomputed only when it changed |
| Camera.GLSLCamera.ZoomOut | lib/glsl/camera.ts:687-694 | fov becomes `Math.max(fovMax, fov · zoomFactor)` as written, so it is at least `fovMax`, recomputed only when it changed |
| Camera.ZoomInAsWritten | lib/glsl/camera.ts:676 | the fov `zoomIn` computes is at most `fovMax`, and is either `fovMax` or fov / zoomFactor |
| Camera.ZoomOutAsWritten | lib/glsl/camera.ts:688 | the fov `zoomOut` computes is at least `fovMax`, and is either `fovMax` or fov · zoomFactor |
| Camera.ZoomInPassesMin | lib/glsl/camera.ts:676 | from a fov at a positive `fovMin`, with a factor above 1, `zoomIn` goes below `fovMin` |
| Camera.ZoomOutPassesMax | lib/glsl/camera.ts:688 | from any fov in range, with a positive `fovMax` and a factor above 1, one `zoomOut` gives at least `fovMax` and a second gives more |
| Camera.ZoomedIn | lib/glsl/camera.ts:676 | the intended `zoomIn` gives at least `fovMin`, and is either `fovMin` or fov / zoomFactor |
| Camera.ZoomedOut | lib/glsl/camera.ts:688 | the intended `zoomOut` gives at most `fovMax`, and is either `fovMax` or fov · zoomFactor |
| Camera.ZoomStaysInRange | lib/glsl/camera.ts:675-694 | the intended zooms keep a fov in [fovMin, fovMax], zooming in never widens it and zooming out never narrows it, and out then in returns to the start while the cap is not reached |
| Mat4.Product | lib/linear/mat4.ts:31-86 | defines the column-major product of two matrices; shape 4×4 |
| Mat4.Zero | lib/linear/mat4.ts:9-11 | `zero()` is a new array of sixteen zeros |
| Mat4.Identity | lib/linear/mat4.ts:14-21 | `identity()` is a new array holding the identity |
| Mat4.Dot | lib/linear/mat4.ts:31-86 | `out` holds the product of the original `a` and `b`, also when `out` is one of them, because each column of `b` is read before it is written |
| Mat4.DotColumn | lib/linear/mat4.ts:50-84 | one column block: column c of the product is written, earlier columns keep their product entries and later entries are untouched |
| Mat4.ProductIdentity | lib/linear/mat4.ts:14-86 | the identity is a unit of `dot` on both sides |
| Mat4.ProductZero | lib/linear/mat4.ts:9-86 | the zero matrix absorbs `dot` on both sides |
| Mat4.OrthoEntries | lib/linear/mat4.ts:100-126 | defines the sixteen entries `ortho` writes from the three reciprocal differences; shape 4×4 |
| Mat4.OrthoMatrix | lib/linear/mat4.ts:100-126 | defines the orthogonal projection of a nondegenerate box; shape 4×4 |
| Mat4.Ortho | lib/linear/mat4.ts:100-126 | `out` holds `OrthoMatrix` of the six bounds |
| Mat4.OrthoPoint | lib/linear/mat4.ts:100-126 | `ortho` scales and shifts each coordinate of a point on its own and keeps the homogeneous 1 |
| Mat4.OrthoMapsBox | lib/linear/mat4.ts:100-126 | `ortho` sends the corner (left, bottom, -near) to (-1, -1, -1) and (right, top, -far) to (1, 1, 1) |
| Mat4.ScalingMatrix | lib/linear/mat4.ts:135-157 | defines the scaling matrix; shape 4×4 |
| Mat4.Scaling | lib/linear/mat4.ts:135-157 | `out` holds the scaling matrix of the original vector |
| Mat4.ScalingIsScaledIdentity | lib/linear/mat4.ts:135-259 | `scaling(v)` equals `scale(identity, v)` |
| Mat4.TranslationMatrix | lib/linear/mat4.ts:166-188 | defines the translation matrix; shape 4×4 |
| Mat4.Translation | lib/linear/mat4.ts:166-188 | `out` holds the translation matrix of the original vector |
| Mat4.TranslationIsTranslatedIdentity | lib/linear/mat4.ts:166-319 | `translation(v)` equals `translate(identity, v)` |
| Mat4.RotationZAsWritten | lib/linear/mat4.ts:197-222 | defines the matrix `rotationZ` writes, with 1 at entry 8 and 0 at entry 10; shape 4×4 |
| Mat4.RotationZ | lib/linear/mat4.ts:197-222 | `out` holds `RotationZAsWritten` of the sine and cosine of the angle |
| Mat4.RotationZAsWrittenDiffers | lib/linear/mat4.ts:211-213 | for every angle the written matrix differs from `rotateZ(identity, rad)` at entries 8 and 10, and sends the point (0, 0, 1) to (1, 0, 0) |
| Mat4.RotationZMatrix | lib/linear/mat4.ts:197-222 | defines the corrected rotation about z; shape 4×4 |
| Mat4.RotationZIsRotatedIdentity | lib/linear/mat4.ts:197-365 | the corrected rotation equals `rotateZ(identity, rad)` |
| Mat4.RotationZKeepsZ | lib/linear/mat4.ts:197-222 | the corrected rotation keeps the z and homogeneous coordinates of every point |
| Mat4.Scaled | lib/linear/mat4.ts:233-259 | defines `scale`'s result, the first three columns multiplied by the vector's entries; shape 4×4 |
| Mat4.Scale | lib/linear/mat4.ts:233-259 | `out` holds the original matrix with columns 0 to 2 scaled by the vector, also when `out` is `mat` |
| Mat4.ScaleColumn | lib/linear/mat4.ts:236-251 | one column block of `scale`: column c is written scaled, earlier entries stay scaled and later ones untouched |
| Mat4.ScaledIsProduct | lib/linear/mat4.ts:135-259 | `scale(m, v)` is `m` times the scaling matrix of `v` |
| Mat4.ScaledKeepsLastColumn | lib/linear/mat4.ts:253-256 | `scale` keeps the last column, and scaling by (1, 1, 1) changes nothing |
| Mat4.Translated | lib/linear/mat4.ts:270-319 | defines `translate`'s result, only the last column moved; shape 4×4 |
| Mat4.Translate | lib/linear/mat4.ts:270-319 | `out` holds the original matrix with its last column moved by the vector, in both the aliased branch and the copying branch |
| Mat4.TranslatedIsProduct | lib/linear/mat4.ts:166-319 | `translate(m, v)` is `m` times the translation matrix of `v` |
| Mat4.TranslatedByZero | lib/linear/mat4.ts:270-319 | translating by the zero vector changes nothing |
| Mat4.RotatedZ | lib/linear/mat4.ts:330-365 | defines `rotateZ`'s result, the first two columns turned; shape 4×4 |
| Mat4.RotateZ | lib/linear/mat4.ts:330-365 | `out` holds the original matrix with columns 0 and 1 rotated by the angle and columns 2 and 3 kept, also when `out` is `mat` |
| Mat4.KeepLastColumns | lib/linear/mat4.ts:344-353 | the guarded copy leaves entries 0 to 7 of `out` and copies entries 8 to 15 of `mat` |
| Mat4.RotatedZIsProduct | lib/linear/mat4.ts:330-365 | `rotateZ(m, rad)` is `m` times the corrected rotation about z |
| Mat4.RotatedZKeepsLastColumns | lib/linear/mat4.ts:344-353 | `rotateZ` keeps the last two columns |
| Mat4.Transform | lib/linear/mat4.ts:31-86 | defines a matrix applied to a homogeneous point; shape: four entries |
| Color.HexValue | lib/color/index.ts:87 | a hexadecimal digit of either case has a value below 16 |
| Color.PairValue | lib/color/index.ts:87 | two hexadecimal digits read in base 16 make a byte |
| Color.LowerHexDigit | lib/color/index.ts:107 | the digit `toString(16)` writes for a value below 16 is a hexadecimal digit of that value |
| Color.UpperHexDigit | lib/color/index.ts:107 | its upper case is an upper-case digit of the same value |
| Color.PadStart | lib/color/index.ts:107 | `padStart(n, pad)` reaches at least length n, ends with the original string and is pad characters before it |
| Color.HexNat | lib/color/index.ts:107 | `toString(16)` writes at least one digit |
| Color.DecimalNat | lib/color/index.ts:140 | `toString()` writes at least one digit |
| Color.DecimalNatWidth | lib/color/index.ts:140 | a number below 1000 takes at most three digits |
| Color.Split | components/modal/text-editor.tsx:44-50 | `split` gives at least one piece and no piece holds the separator |
| Color.SplitWithoutSeparator | components/modal/text-editor.tsx:44-50 | a string without the separator splits into itself alone |
| Color.SplitAtSeparator | components/modal/text-editor.tsx:44-50 | splitting at the first separator puts what precedes it first |
| Color.SplitJoin | components/modal/text-editor.tsx:44-50 | `split` undoes `join` on pieces that hold no separator |
| Color.JoinSplit | components/modal/text-editor.tsx:44-50 | `join` undoes `split` |
| Color.ParseHex | lib/color/index.ts:28-31 | the `hex` format accepts exactly the strings `HEX` or `HEX_SHORT` match, and every colour it gives lies in the unit cube |
| Color.HexLongForm | lib/color/index.ts:84-88 | six digits, with or without `#`, parse pair by pair to value / 255 |
| Color.HexShortDoubles | lib/color/index.ts:90-94 | three digits parse as if each digit were written twice |
| Color.UpperCharHex | lib/color/index.ts:28 | upper-casing keeps a character a hexadecimal digit, with its value, and keeps `#` |
| Color.HexCaseInsensitive | lib/color/index.ts:28-31 | parsing ignores the case of the digits |
| Color.MatchTriplet | lib/color/index.ts:34 | `TRIPLET` captures three groups, each a nonempty run of `[\w.%]` |
| Color.TripletChannel | lib/color/index.ts:51-81 | defines the channel of one captured group: `rgb` gives the value / 255 when `parseInt` and `parseFloat` agree, `arith` gives `parseFloat` / 255, `pct` gives `parseFloat` of the group without its last character / 25500, and `NaN` becomes `None` (laws: `RgbTripletIntegers`, `OpenParenthesisMustClose`, `CloseWithoutOpenPasses`) |
| Color.ParenthesesOk | lib/color/index.ts:37 | defines the `PARENTHESES` test: wrapped in `(` and `)` with no line terminator between, or not starting with `(` (laws: `OpenParenthesisMustClose`, `CloseWithoutOpenPasses`) |
| Color.RgbTripletIntegers | lib/color/index.ts:51-63 | the `rgb` format accepts a triplet exactly when every component has equal `parseInt` and `parseFloat` values, and then each channel is that value / 255 |
| Color.OpenParenthesisMustClose | lib/color/index.ts:37 | in every triplet format, a string that opens a parenthesis without closing it is rejected |
| Color.CloseWithoutOpenPasses | lib/color/index.ts:37 | the second alternative of `PARENTHESES` has no end anchor: any string not starting with `(` passes it, and only `TRIPLET` decides |
| Color.SingleDigitComponent | lib/color/index.ts:34 | a single digit is a component that needs no trimming |
| Color.ParseTriplet | lib/color/index.ts:50-81 | defines the `rgb`, `arith` and `pct` branches: `TRIPLET` and `PARENTHESES` must match, and each group maps to its channel, `null` when one is `NaN` (laws: `RgbTripletIntegers`, `OpenParenthesisMustClose`, `CloseWithoutOpenPasses`) |
| Color.ToRGB | lib/color/index.ts:46-98 | defines `toRGB`: hex parsing for `hex`, triplet parsing otherwise (laws: `HexLongForm`, `HexShortDoubles`, `HexRoundTrip`) |
| Color.ChannelByte | lib/color/index.ts:107 | `trunc(ch * 255)` is a byte for a channel in [0, 1] |
| Color.HexChannelOfByte | lib/color/index.ts:107 | a channel whose byte is t is written as the two upper-case digits of t, padded with `0` |
| Color.HexChannelShape | lib/color/index.ts:107 | a channel in [0, 1] is written as two upper-case digits whose value is `trunc(ch * 255)` |
| Color.ThreeChannelShapes | lib/color/index.ts:107 | the same for the three channels |
| Color.ToHexParts | lib/color/index.ts:106-108 | the `reduce` from `#` appends the three channels in order |
| Color.HashAndPairs | lib/color/index.ts:107 | `#` and three upper-case pairs place each digit where `HEX` reads it |
| Color.ParseHashAndPairs | lib/color/index.ts:84-88 | `#` and three upper-case pairs parse pair by pair |
| Color.ToHexShape | lib/color/index.ts:106-108 | for a colour in the unit cube, `toHex` writes `#` and six upper-case digits, each pair being `trunc(c * 255)` |
| Color.ParseOfPairs | lib/color/index.ts:84-88 | pairs whose values over 255 are r, g, b parse to that colour |
| Color.ParseOfHexChannels | lib/color/index.ts:84-108 | three written channels parse back to their quantized values |
| Color.HexParseOfToHex | lib/color/index.ts:84-108 | `toRGB(toHex(c))` is c with each channel quantized to a multiple of 1/255 |
| Color.UpperOfHexValue | lib/color/index.ts:107 | the upper-case digit of a digit's value is the digit in upper case |
| Color.ChannelOfPair | lib/color/index.ts:87-107 | a channel read from a pair is written back as that pair in upper case |
| Color.TruncOfChannel | lib/color/index.ts:87-107 | `trunc((v / 255) * 255)` is v |
| Color.ByteHexOfPair | lib/color/index.ts:87-107 | the two digits of a pair's value are the pair in upper case |
| Color.DigitsOfByte | lib/color/index.ts:87-107 | the base-16 digits of 16a + b are a and b |
| Color.UpperStringOfPairs | lib/color/index.ts:107 | upper-casing six digits is upper-casing each pair |
| Color.ToHexOfChannels | lib/color/index.ts:106-108 | `toHex` of three channels is `#` and their written pairs |
| Color.ToHexOfDigits | lib/color/index.ts:84-108 | the colour six digits parse to is written back as `#` and the digits in upper case |
| Color.HexRoundTrip | lib/color/index.ts:84-108 | `toHex(toRGB(h))` is `#` and the six digits of h in upper case, whether h had a `#` or not |
| Color.RgbComponentWidth | lib/color/index.ts:140 | a channel in [0, 1] is written in the `rgb` format in exactly three places |
| Color.ParenthesizedWidth | lib/color/index.ts:118-140 | the `( a, b, c )` frame adds eight characters |
| Color.RgbStringWidth | lib/color/index.ts:137-143 | `toRGBString(c, 'rgb')` of a colour in the unit cube always has 17 characters |
| Color.ToHex | lib/color/index.ts:106-108 | defines `toHex`: `#` then each channel truncated to a byte in two upper-case hex digits (laws: `ToHexShape`, `HexRoundTrip`) |
| Color.ToRGBString | lib/color/index.ts:117-143 | defines `toRGBString`'s dispatch on the format: `toHex`, or the three channels framed as `( a, b, c )` (law: `RgbStringWidth`) |
| Color.DistanceRGB | lib/color/index.ts:163-169 | defines `distanceRGB`: the square root of the summed squared channel differences (laws: `DistanceSign`, `DistanceSymmetric`) |
| Color.DistanceSign | lib/color/index.ts:163-169 | with a true square root at the squared distance, `distanceRGB` is never negative, and between equal colours its square is 0 |
| Color.SquaredDistance | lib/color/index.ts:163-169 | defines the sum of the squared channel differences (law: `SquaredDistanceSign`) |
| Color.SquaredDistanceSign | lib/color/index.ts:163-169 | the squared distance is never negative and is 0 between equal colours |
| Color.DistanceSymmetric | lib/color/index.ts:163-169 | `distanceRGB(p, q) == distanceRGB(q, p)` |
| ColorHelpers.HexToRGBA | helpers/color.ts:13-27 | a parsed colour has alpha 1 and channels in [0, 1]; a string without a leading `#` is refused |
| ColorHelpers.HexToRGBAOfParseHex | helpers/color.ts:13-27 | on a string starting with `#`, `hexToRGBA` is the codec's hex parse with alpha 1 appended; anything else is refused |
| ColorHelpers.LongFormPairs | helpers/color.ts:13-27 | `#` and six digits map each pair to value / 255 |
| ColorHelpers.ShortFormDoubles | helpers/color.ts:16-27 | `#` and three digits read as if each digit were written twice |
| ColorHelpers.HashRequired | helpers/color.ts:13-16 | six digits without `#` are accepted by the codec but refused here |
| TextEditor.TrimAll | components/modal/text-editor.tsx:51 | trimming keeps one line per line |
| TextEditor.NonEmptyMembers | components/modal/text-editor.tsx:52 | the filter keeps exactly the nonempty lines, and no more lines than it was given |
| TextEditor.TrimStartShape | components/modal/text-editor.tsx:51 | trimming the start keeps a suffix that does not start with a space |
| TextEditor.TrimEndShape | components/modal/text-editor.tsx:51 | trimming the end keeps a prefix that does not end with a space |
| TextEditor.TrimUnchanged | components/modal/text-editor.tsx:51 | a string that neither starts nor ends with a space trims to itself |
| TextEditor.TrimIdempotent | components/modal/text-editor.tsx:51 | trimming twice is trimming once |
| TextEditor.Lines | components/modal/text-editor.tsx:49-52 | defines the split on `\n`, the trim of each line and the filter of empty ones (laws: `LinesAreTrimmed`, `NonEmptyMembers`, `LinesOfCleanLines`) |
| TextEditor.LinesAreTrimmed | components/modal/text-editor.tsx:49-52 | every parsed line is nonempty and already trimmed |
| TextEditor.ImportLinesPrefix | components/modal/text-editor.tsx:57-66 | the loop reads a prefix of the lines, each colour parsed from its line; it stops early exactly when a line is rejected, at that line |
| TextEditor.ImportLinesStep | components/modal/text-editor.tsx:57-66 | one turn of the loop: a rejected line ends it with the error, an accepted one is pushed and the loop goes on |
| TextEditor.ImportLines | components/modal/text-editor.tsx:57-66 | defines the loop's outcome: the colours parsed before the first rejected line, and whether one was rejected (laws: `ImportLinesPrefix`, `ParseLines`) |
| TextEditor.ParseLines | components/modal/text-editor.tsx:54-66 | the `for … of` loop with its early `break` computes the pushed colours and the error flag of `ImportLines` |
| TextEditor.Import | components/modal/text-editor.tsx:48-69 | defines what `handleTextChange` computes: the loop over the trimmed non-empty lines, with the error flag also raised below two colours (laws: `ImportNeedsTwo`, `ImportStopsAtFirstBadLine`) |
| TextEditor.Editor.constructor | components/modal/text-editor.tsx:32-34 | empty text, no palette and no error, with the given format |
| TextEditor.Editor.HandleTextChange | components/modal/text-editor.tsx:48-75 | the text is stored as typed; it is an error when a line is rejected or fewer than two colours were read; the palette is replaced only without error |
| TextEditor.ImportNeedsTwo | components/modal/text-editor.tsx:69 | an import without error read at least two colours, one per line |
| TextEditor.ImportStopsAtFirstBadLine | components/modal/text-editor.tsx:57-63 | the import fails at the first rejected line and holds the colours of the lines before it |
| TextEditor.Editor.FormatPalette | components/modal/text-editor.tsx:40-45 | nothing changes after an error, without a palette or without `setFormat`; otherwise the format is set and the text is the palette written in it |
| TextEditor.PaletteText | components/modal/text-editor.tsx:44 | defines the text `formatPalette` writes: each colour formatted, joined by line breaks (laws: `PaletteLines`, `HexPaletteRoundTrip`) |
| TextEditor.PaletteLines | components/modal/text-editor.tsx:44 | the written text splits back into one line per colour, in palette order |
| TextEditor.HexLines | components/modal/text-editor.tsx:44 | one hex line per colour, in order |
| TextEditor.QuantizeAll | lib/color/index.ts:84-108 | each colour quantized, in order |
| TextEditor.NonEmptyOfNonEmpty | components/modal/text-editor.tsx:52 | the filter keeps lines that are all nonempty as they are |
| TextEditor.HexLineImport | components/modal/text-editor.tsx:58 | a hex line written for a colour imports as that colour quantized |
| TextEditor.ImportOfHexLines | components/modal/text-editor.tsx:57-66 | the hex lines of a palette import without a rejected line, as the quantized palette |
| TextEditor.HexPaletteRoundTrip | components/modal/text-editor.tsx:44-74 | writing a palette of two or more colours in hex and importing the text gives the quantized palette without error |
| TextEditor.LinesOfCleanLines | components/modal/text-editor.tsx:49-52 | nonempty trimmed lines without `\n`, joined with `\n`, come back unchanged |
| TextEditor.HashDigitsClean | components/modal/text-editor.tsx:49-52 | `#` and six digits form such a line |
| TextEditor.HexLineClean | components/modal/text-editor.tsx:44-52 | a hex line is nonempty, holds no `\n` and is left alone by `trim` |
| TextEditor.PaletteTextHex | components/modal/text-editor.tsx:44 | in hex the text is the hex lines joined with `\n` |
| TextEditor.HexLinesClean | components/modal/text-editor.tsx:44-52 | every hex line of a unit-cube palette is such a line |
| TextEditor.LinesOfHexText | components/modal/text-editor.tsx:44-52 | the hex text of a palette splits back into its hex lines |
| Canvas.ColorOr | reducers/canvas.ts:489 | `toRGB(str)` or else the fallback is the parsed colour when the string reads as hex and the fallback otherwise |
| Canvas.RgbFlag | reducers/canvas.ts:231 | `mode === 'rgb' ? 1 : 0` is 1 in rgb mode and 0 in black mode |
| Canvas.CubePass | reducers/canvas.ts:201-221 | defines the cube pass: program, camera, model, then an inner draw when `alphaIn` is truthy and an outer draw when `alphaOut` is |
| Canvas.GridPass | reducers/canvas.ts:224-244 | defines the grid pass: when the grid is on and its alpha truthy, the three uniforms, then each plane after its `u_axis` value |
| Canvas.AxisPass | reducers/canvas.ts:247-271 | defines the axis pass: three coloured shafts in rgb mode, the whole axis in black otherwise |
| Canvas.DiagonalPass | reducers/canvas.ts:274-282 | defines the diagonal pass, drawn with the cube's buffers |
| Canvas.DistancesPass | reducers/canvas.ts:285-290 | defines the distances pass, always present |
| Canvas.PointsPass | reducers/canvas.ts:293-299 | defines the points pass, always present |
| Canvas.PassesSelectOnce | reducers/canvas.ts:200-299 | each pass of `render` selects its own program first and no other after it; the cube, grid, axis and diagonal passes are present exactly under their guards, the distances and points passes always |
| Canvas.Render | reducers/canvas.ts:164-337 | `render` hands back a state equal to the one it was given |
| Canvas.RenderOrder | reducers/canvas.ts:198-299 | `render` selects the programs cube, grid, axis, diagonal (each under its guard), then distances and points, in this order |
| Canvas.CubePassDraws | reducers/canvas.ts:201-221 | the cube pass draws the faces exactly when the cube is on and one alpha is truthy, culling back faces for `alphaIn` and front faces for `alphaOut` |
| Canvas.GridPassDraws | reducers/canvas.ts:224-244 | the grid pass draws the three planes exactly when the grid is on and its alpha truthy, and culls nothing |
| Canvas.AxisPassDraws | reducers/canvas.ts:247-271 | the axis pass draws the three shafts in rgb mode, or the whole axis in black mode, exactly when the axis is on and its alpha truthy |
| Canvas.DiagonalPassDraws | reducers/canvas.ts:274-282 | the diagonal is drawn exactly when it is on and its alpha truthy |
| Canvas.LastPassesDraw | reducers/canvas.ts:285-299 | the distances, with their colour flag, and the points are always drawn |
| Canvas.RenderDraws | reducers/canvas.ts:198-299 | `render` draws exactly what its guards allow, and culls back or front faces exactly when the cube is on and the matching alpha is truthy |
| Canvas.DrawsOfPasses | reducers/canvas.ts:198-299 | the draws and culls of the whole frame are those of its passes |
| Canvas.InPasses | reducers/canvas.ts:198-299 | a call is in the frame exactly when it is the clear or in one of the passes |
| Canvas.NotDrawnInRender | reducers/canvas.ts:198-299 | a draw the guards rule out is missing from the frame |
| Canvas.AxisPassColours | reducers/canvas.ts:256-270 | each shaft is drawn right after its colour is set, the whole axis right after black |
| Canvas.FollowsAfter | reducers/canvas.ts:198-299 | a call right before another stays so when calls come before |
| Canvas.FollowsBefore | reducers/canvas.ts:198-299 | and when calls come after |
| Canvas.FollowsInRender | reducers/canvas.ts:246-299 | an adjacency inside the axis pass holds in the whole frame |
| Canvas.AxisRgbColours | reducers/canvas.ts:256-265 | in rgb mode the X, Y and Z shafts are each drawn right after red, green and blue, and the whole axis never |
| Canvas.AxisBlackColours | reducers/canvas.ts:266-270 | in black mode the whole axis is drawn right after black, and no single shaft |
| Canvas.CubeInsideBeforeOutside | reducers/canvas.ts:201-221 | with both alphas truthy, the inside (back faces culled, `alphaIn`) is drawn right before the outside (front faces culled, `alphaOut`), and no later pass changes the culled face |
| Canvas.Initialized | reducers/canvas.ts:349-454 | `initialize` renders `initialCanvas` with the new objects and the errors reported while creating them |
| Canvas.InitializeResets | reducers/canvas.ts:349-454 | every setting of the previous state is replaced by those of `initialCanvas`; the context is set up and cleared to the initial background before anything else, and no program is selected before `render` |
| Canvas.InitialBackground | reducers/canvas.ts:518 | the initial background `#f8fafc` is 248, 250 and 252 out of 255 |
| Canvas.Resized | reducers/canvas.ts:462-475 | `resize` keeps the state and renders after the viewport, canvas size and camera resolution |
| Canvas.WithBackground | reducers/canvas.ts:485-494 | `setBackground` stores the parsed colour, white when unreadable |
| Canvas.CleanedUp | reducers/canvas.ts:503-510 | `cleanUp` keeps the state and renders after deleting the cube program and the cube |
| Canvas.Opacity | reducers/canvas.ts:639-645 | `Math.max(0, Math.min(1, opacity))` lies in [0, 1], is the opacity inside it, 0 below and 1 above |
| Canvas.Drawn | reducers/canvas.ts:593-611 | `SET_DRAW` renders exactly for the cube, axis, grid, diagonal, points and distances, and otherwise returns the state unchanged with no call; the four flags make no call of their own, and points and distances keep the scene and make one call; it never touches the objects, the background or the errors (the flag set and the call made: `SetDrawSetsFlag`, `SetDrawPointsTargets`) |
| Canvas.Highlighted | reducers/canvas.ts:613-627 | `SET_HIGHTLIGHT` renders exactly for points and distances, keeping the scene and making one call; otherwise nothing changes (the call: `SetHighlightTargets`) |
| Canvas.Saturated | reducers/canvas.ts:629-636 | `SET_SATURATION` renders exactly for the axis, grid, diagonal, points and distances, with no call of its own; otherwise nothing changes (the mode set: `SetSaturationSetsMode`) |
| Canvas.WithAlpha | reducers/canvas.ts:638-647 | `SET_ALPHA` renders exactly for the seven alpha models, with no call of its own; otherwise nothing changes (the opacity set: `SetAlphaClamps`) |
| Canvas.Renders | reducers/canvas.ts:558-665 | defines the actions whose branch ends in `return render(...)`: all but `CLOSE_ERRORS`, the default case and the four model actions on a model their branch does not name |
| Canvas.Rendered | reducers/canvas.ts:571-658 | defines the outcome of a branch ending in `return render(state)`: the scene passed on, the calls made first, and rendering |
| Canvas.Reduce | reducers/canvas.ts:558-665 | a branch that does not render makes no call and keeps the state, except `CLOSE_ERRORS`, which empties the errors; an unknown action changes nothing; only `INITIALIZE` and `SET_BACKGROUND` touch the objects or the background |
| Canvas.ReduceRendersExactly | reducers/canvas.ts:558-665 | a branch ends in `return render(...)` exactly when `Renders` holds of its action |
| Canvas.Run | reducers/canvas.ts:558-665 | the next state is the branch's state; the branch's calls come first, and after them come exactly the calls of `render` on that state when the branch renders, and nothing when it does not |
| Canvas.PassThroughKeepsScene | reducers/canvas.ts:569-658 | the camera, grid-size, point-size and palette actions keep the scene, make exactly one call (the camera, grid or palette call each names) and render |
| Canvas.SetGridGapSetsGap | reducers/canvas.ts:653 | `SET_GRID_GAP` stores the gap alone, makes no call of its own and renders |
| Canvas.RunDraws | reducers/canvas.ts:558-665 | after a rendering action the frame draws exactly what the guards allow for the next scene and culls back or front faces exactly when the cube is on and the matching alpha is truthy; after any other action no call is made and the state is kept, with the errors emptied by `CLOSE_ERRORS` |
| Canvas.SetAlphaClamps | reducers/canvas.ts:638-647 | `SET_ALPHA` stores the clamped opacity in the field its model names, changes no other field and renders; another model changes nothing |
| Canvas.SetDrawSetsFlag | reducers/canvas.ts:594-597 | `SET_DRAW` on the cube, axis, grid or diagonal sets that flag alone |
| Canvas.SetDrawPointsTargets | reducers/canvas.ts:598-610 | `SET_DRAW` on points or distances keeps the state and makes one palette call, on every entry when there is no index and on the indexed one otherwise; any other model is a no-op |
| Canvas.SetHighlightTargets | reducers/canvas.ts:613-627 | the same for highlighting |
| Canvas.SetSaturationSetsMode | reducers/canvas.ts:629-636 | `SET_SATURATION` replaces the colour mode of its model alone; any other model is a no-op |
| Canvas.ColorFallbacks | reducers/canvas.ts:489-491 | an unreadable background becomes white and the context is cleared to the stored background; an unreadable palette colour becomes black (lines 656-657) |
| Canvas.ProgramsAppend | reducers/canvas.ts:198-299 | the programs selected by two call sequences in a row are those of each, in order |
| Canvas.ProgramsNone | reducers/canvas.ts:198-299 | calls that select no program select none |
| Canvas.ProgramsOfPass | reducers/canvas.ts:198-299 | a pass selects its program once, or nothing when it is empty |
| Canvas.ProgramsOfPasses | reducers/canvas.ts:198-299 | the programs of a clear followed by six passes are those of the non-empty passes, in order |
| Canvas.ErrorsKept | reducers/canvas.ts:558-665 | every action but `INITIALIZE` and `CLOSE_ERRORS` keeps the errors |

## Left out

- WebGL itself is not modelled: what the GPU does with buffers, draws, uniforms, `cullFace` and `viewport` is not modelled. The model records each call in the `WebGL.Device` trace, and an `Oracle` supplies every value the context returns. No claim is made about pixels.
- `console.error` in the default error paths is output only and is not modelled. An `onerror` callback is an `ErrorSink` that collects messages.
- The palette points object (`lib/glsl/model/points.ts`) is an opaque receiver: the reducer's calls to it (`setColor`, `addColor`, `removeColor`, `setDraw*`, `setHightlight*`, `drawPoints`, `drawDistances`) are recorded and their effect is not modelled.
- Float formatting (`toFixed`, the decimal print of a float) and the full `parseInt`/`parseFloat` semantics are function values of `Color.JsNumerics`. The model proves only what follows from hex digits, `padStart` and the string layout.
- `randRGB` draws from `Math.random`, which is nondeterministic, so it is not modelled.
- The gl-matrix functions used by the camera (`lookAt`, `perspective`, `ortho`, `normalize`, `cross`) and `Math.sin`, `Math.cos`, `Math.atan` are uninterpreted. The model makes no claim about what the camera's matrices contain; it only states which arguments they were built from.
- The camera's `bind` (lib/glsl/camera.ts:614-623) uploads uniforms to the GPU. It is not modelled, and neither are the getters that recover angles with `atan2`/`asin`.
- Camera objects share static default snapshots by JavaScript object identity (lib/glsl/camera.ts:176-178). That aliasing is not modelled: each camera owns its defaults.
- The reducer passes a second argument, `center`, to `camera.rotate` (reducers/canvas.ts:424, 578). `rotate` declares no such parameter and ignores it. The model keeps `center` in the recorded call only.
- The text editor's React markup, effects and its close and accept handlers have no logic of their own and are not modelled.
- The `TRANSLATE` action sent by the canvas component is not handled by the reducer. It falls into the reducer's default case, which the model covers.
- `Mat4.Ortho`, `Mat4.Scaling`, `Mat4.Translation`, `Mat4.RotationZ` and `Mat4.Scale` write their entries through one helper, `AssignAt`. It writes the same values in the same order as the source's statement lists.
- The translate model computes the four entries of the last column before writing them. The source writes each entry as it computes it. The values are the same, because no entry of the last column reads another one.
- `Mat4.Ortho` and `Mat4.OrthoMatrix`: require `left != right`, `bottom != top` and `near != far`. The source divides by their differences, and on equal bounds JavaScript produces infinities, which the `real` model does not represent.
- `Vec3.Normalize`: requires a nonzero vector whose length is a true square root. On the zero vector the source divides by zero and writes `NaN`s, which the model does not represent.
- `Camera.GLSLCamera.ZoomIn`: requires a nonzero `zoomFactor`. The source divides by it, and a zero factor gives `Infinity` or `NaN`, which the model does not represent.
- The camera's orthographic matrix term `OrthoOf` keeps the field of view it was built from. It does not compute gl-matrix's `ortho` bounds from it.
- `Color.SquaredDistanceSign`: proves that the squared distance is non-negative and is zero between equal colours. The converse (zero only between equal colours) is not stated.
- `Color.DistanceSign`: states the zero case as `Square(DistanceRGB(p, p, m)) == 0.0` rather than `DistanceRGB(p, p, m) == 0.0`. Together with the non-negativity it also states, the two say the same thing, but the step from one to the other is nonlinear real arithmetic that the solver does not close. The converse (a zero distance only between equal colours) is not stated either.
- `TextEditor.PaletteLines`: holds for palettes whose formatted colours contain no line break. For the `arith` and `pct` formats that depends on `toFixed`, which is uninterpreted.
- WebGL program, shader and buffer creation is issued through a few helper methods (`IssueUpload`, `AttachAndLink`, `DescribeLayout`). Each issues the same calls in the same order as the source's consecutive statements.

## Findings

| source | as written | input that shows it | evidently intended | confidence | as-written member | corrected member |
|---|---|---|---|---|---|---|
| lib/linear/mat4.ts:211-213 | `rotationZ` writes `out[8] = 1` and `out[10] = 0`, so the matrix sends the z axis to the x axis | any angle: the point (0, 0, 1) is mapped to (1, 0, 0) | `out[8] = 0` and `out[10] = 1`, the same matrix as `rotateZ(identity, rad)`, leaving z unchanged | not executed | Mat4.RotationZAsWrittenDiffers | Mat4.RotationZIsRotatedIdentity |
| lib/glsl/model/axis.ts:125 | `drawX` draws `LINES` over 6 entries from 0, the shafts of all three axes | any call of `drawX`, such as the rgb axis pass: entries 2 to 5, the y and z shafts, are also drawn with the x colour | `LINES` over 2 entries from 0, the x shaft alone, so the three single-axis draws split the table as `draw` does | not executed | Axis.DrawXOverlapsOthers | Axis.DrawXShaftPartition |
| lib/glsl/camera.ts:688 | `zoomOut` sets the fov to `Math.max(fovMax, fov · zoomFactor)` | any fov in [fovMin, fovMax] with the default `zoomFactor` 1.0625: one call gives at least `fovMax`, a second call more than `fovMax` | `Math.min(fovMax, fov · zoomFactor)`, widening the view up to `fovMax` | not executed | Camera.ZoomOutPassesMax | Camera.ZoomStaysInRange |
| lib/glsl/camera.ts:676 | `zoomIn` sets the fov to `Math.min(fovMax, fov / zoomFactor)`, with no lower bound | a fov equal to a positive `fovMin` with the default `zoomFactor` 1.0625: the result is below `fovMin` | `Math.max(fovMin, fov / zoomFactor)`, narrowing the view down to `fovMin` | not executed | Camera.ZoomInPassesMin | Camera.ZoomStaysInRange |
