# JelloSwift-WASM in Dafny

A model of the browser front end of the JelloSwift soft-body demo: the drawing
layer that turns geometric primitives into calls on an HTML canvas 2D context,
the transforming canvas that maps simulation coordinates to device pixels, the
point arithmetic they rest on, and the game that steps the physics world and
paints every body on each timer tick.

Modules, one per file:

- `JSMath` (`jsmath.dfy`): `Point`, `Dimension`, `JSRect` and the point operators
  `+ - * /`, with their algebraic laws.
- `Canvas` (`canvas.dfy`): the 2D context is the log of the calls made on it
  (`seq<Cmd>`). The class `JSCanvas` appends the calls of each primitive to that
  log and keeps the buffer `size`. The class `TransformingCanvas` holds `zoom`
  and `offset` and forwards every call with coordinates mapped by
  `(p + offset) * zoom` and radii by `r * zoom`. Each method is proved against a
  function that gives the exact calls it emits. The shape of those calls and the
  transform law are proved as lemmas.
- `Simulation` (`simulation.dfy`): the class `Game`.
  - One `Iterate` re-measures the canvas, then updates the world five times by
    `0.1 / iterationInterval`, then clears, fills white, and draws each body in
    world order.
  - Each body is drawn as a palette stroke chosen by its index modulo 6, the
    closed outline path, a marker circle at every outline point, and a reset to
    black.
  - `Stop` clears the timer. The box and ball builders choose the body's
    components, point masses and internal springs.
- `Physics` (`physics.dfy`) and `Host` (`host.dfy`) are the collaborators,
  reduced to what the game relies on. The physics world is a list of bodies
  plus the log of update time steps. The host's interval timers are a registry
  of active handles.
- `Colors` and `Optional` hold the named CSS colours and an option type.

Doubles are modelled as `real`. The host's readings of the element's client
width and height are `Option<real>` parameters: `None` stands for a reading
that is not a number.

`JSCanvas.drawPath` with a single point emits `beginPath`, `moveTo` and `stroke`.
Nothing visible is drawn, but the calls are made, and the model emits them as
the code does.

## Model

The point operators (`JSMath.Add`, `Sub`, `Scale`, `Divide`), the transform
(`Canvas.ToDevice`, `ToDeviceLength`) and the call lists each primitive emits
(`Canvas.PathCmds`, `CircleCmds`, `FillCircleCmds`, `LineCmds`, `ClearCmds`,
`FillCmds`, `Simulation.BodyCmds`, `FrameCmds`) are definitions. Each is
stated by the lemmas and method contracts in the rows below that cite the
same source lines.

| member | source | states |
|---|---|---|
| JSMath.AddComponentwise | Sources/JelloSwift-WASM/JSMath.swift:35-48 | `+` and `-` act on x and y separately; `+` is commutative |
| JSMath.SubUndoesAdd | Sources/JelloSwift-WASM/JSMath.swift:35-48 | `(p + q) - q == p` and `(p - q) + q == p` |
| JSMath.ZeroIsIdentity | Sources/JelloSwift-WASM/JSMath.swift:20-37 | `Point.zero` is a two-sided identity of `+` and a right identity of `-` |
| JSMath.ScaleDistributes | Sources/JelloSwift-WASM/JSMath.swift:35-51 | `(p + q) * s == p * s + q * s`, and the same for `-` |
| JSMath.DivideUndoesScale | Sources/JelloSwift-WASM/JSMath.swift:49-55 | `(p * s) / s == p` and `(p / s) * s == p` for a non-zero `s` |
| Canvas.LineTos | Sources/JelloSwift-WASM/JSCanvas.swift:99-101 | one `lineTo` per point of the range |
| Canvas.LineTosAt | Sources/JelloSwift-WASM/JSCanvas.swift:99-101 | the k-th `lineTo` goes to the k-th point of the range, in order |
| Canvas.PathCmdsShape | Sources/JelloSwift-WASM/JSCanvas.swift:94-104 | an empty path emits nothing; n ≥ 1 points emit `beginPath`, `moveTo(first)`, the n − 1 later points as `lineTo` in order, then `stroke` and no `fill`; one point gives exactly `beginPath, moveTo, stroke` |
| Canvas.CircleCmdsShape | Sources/JelloSwift-WASM/JSCanvas.swift:74-85 | a stroked circle never fills; a filled circle fills, then strokes |
| Canvas.WholeSurfaceCmds | Sources/JelloSwift-WASM/JSCanvas.swift:42-51 | `clear` and `fill` cover the rect from (0, 0) with the current size, read through the `JSRect` accessors `x`, `y`, `width`, `height` (JSMath.swift:75-83); `fill` sets the fill style first |
| Canvas.ResizedToShape | Sources/JelloSwift-WASM/JSCanvas.swift:30-40 | no resize exactly when a client dimension is missing; 800 × 600 at ratio 2 gives 1600 × 1200 |
| Canvas.MapPoints | Sources/JelloSwift-WASM/JSCanvas.swift:161-163 | the mapped list has the length of the input |
| Canvas.ToDeviceExample | Sources/JelloSwift-WASM/JSCanvas.swift:143-148 | zoom 2, offset (10, −5): (3, 4) goes to (26, −2) and radius 1 to 2 |
| Canvas.TransformedPathShape | Sources/JelloSwift-WASM/JSCanvas.swift:161-163 | a transformed path keeps the input's length and order; its `moveTo` and each `lineTo` go to the corresponding input point under `(p + offset) * zoom` |
| Canvas.ToDeviceInvertible | Sources/JelloSwift-WASM/JSCanvas.swift:143-148 | for a non-zero zoom, `q / zoom - offset` recovers the point, so different points stay different on the device |
| Canvas.ToDeviceDifference | Sources/JelloSwift-WASM/JSCanvas.swift:143-148 | the offset cancels out of differences, which are scaled by zoom alone, as radii are |
| Canvas.JSCanvas.constructor | Sources/JelloSwift-WASM/JSCanvas.swift:18-28 | the context is scaled by the pixel ratio once; the size starts at 0 × 0 |
| Canvas.JSCanvas.UpdateSize | Sources/JelloSwift-WASM/JSCanvas.swift:30-40 | the size becomes client size × ratio and the buffer is resized to it; with a missing dimension nothing changes |
| Canvas.JSCanvas.Clear | Sources/JelloSwift-WASM/JSCanvas.swift:42-45 | appends one `clearRect` over the whole current size |
| Canvas.JSCanvas.Fill | Sources/JelloSwift-WASM/JSCanvas.swift:47-51 | appends the fill style, then one `fillRect` over the whole current size |
| Canvas.JSCanvas.SetStroke | Sources/JelloSwift-WASM/JSCanvas.swift:53-55 | appends the solid stroke style |
| Canvas.JSCanvas.SetGradientStroke | Sources/JelloSwift-WASM/JSCanvas.swift:57-68 | appends a linear-gradient stroke from the start point and colour to the end point and colour |
| Canvas.JSCanvas.SetFill | Sources/JelloSwift-WASM/JSCanvas.swift:70-72 | appends the fill style |
| Canvas.JSCanvas.DrawCircle | Sources/JelloSwift-WASM/JSCanvas.swift:74-79 | appends `beginPath`, a full `arc`, `stroke` |
| Canvas.JSCanvas.DrawFillCircle | Sources/JelloSwift-WASM/JSCanvas.swift:80-85 | appends `beginPath`, a full `arc`, `fill`, `stroke` |
| Canvas.JSCanvas.DrawLine | Sources/JelloSwift-WASM/JSCanvas.swift:87-92 | appends `beginPath`, `moveTo(from)`, `lineTo(to)`, `stroke` |
| Canvas.JSCanvas.DrawPath | Sources/JelloSwift-WASM/JSCanvas.swift:94-104 | appends exactly the path calls whose shape `PathCmdsShape` states; the loop keeps the calls made so far equal to the `lineTo`s of the points visited |
| Canvas.TransformingCanvas.constructor | Sources/JelloSwift-WASM/JSCanvas.swift:107-114 | zoom 1 and offset zero over the given device canvas |
| Canvas.TransformingCanvas.UpdateSize | Sources/JelloSwift-WASM/JSCanvas.swift:116-118 | passed through untransformed |
| Canvas.TransformingCanvas.Clear | Sources/JelloSwift-WASM/JSCanvas.swift:120-122 | passed through untransformed |
| Canvas.TransformingCanvas.Fill | Sources/JelloSwift-WASM/JSCanvas.swift:124-126 | passed through untransformed |
| Canvas.TransformingCanvas.SetStroke | Sources/JelloSwift-WASM/JSCanvas.swift:128-130 | passed through untransformed |
| Canvas.TransformingCanvas.SetGradientStroke | Sources/JelloSwift-WASM/JSCanvas.swift:132-137 | both stop points transformed with the current zoom and offset; the colours unchanged |
| Canvas.TransformingCanvas.SetFill | Sources/JelloSwift-WASM/JSCanvas.swift:139-141 | passed through untransformed |
| Canvas.TransformingCanvas.DrawCircle | Sources/JelloSwift-WASM/JSCanvas.swift:143-148 | the device circle is centred at `(origin + offset) * zoom` with radius `radius * zoom`, using the values at call time; earlier calls stay as they were |
| Canvas.TransformingCanvas.DrawFillCircle | Sources/JelloSwift-WASM/JSCanvas.swift:150-155 | the same transform for the filled circle |
| Canvas.TransformingCanvas.DrawLine | Sources/JelloSwift-WASM/JSCanvas.swift:157-159 | both endpoints transformed |
| Canvas.TransformingCanvas.DrawPath | Sources/JelloSwift-WASM/JSCanvas.swift:161-163 | the device path is drawn through every point mapped by the same transform, in order |
| Physics.SteppedCompose | Sources/JelloSwift-WASM/Game.swift:96-98 | j updates followed by k more are j + k updates of the same bodies, in the same order |
| Physics.World.constructor | Sources/JelloSwift-WASM/Game.swift:6 | a new world has no bodies and no steps |
| Physics.World.Update | Sources/JelloSwift-WASM/Game.swift:97 | records the time step; every body keeps its configuration and vertex count and counts one more update |
| Physics.World.AddBody | Sources/JelloSwift-WASM/Game.swift:140 | a created body joins the world at the end |
| Host.Scheduler.constructor | Sources/JelloSwift-WASM/Game.swift:30 | no timers are active and no periods are recorded at the start |
| Host.Scheduler.SetInterval | Sources/JelloSwift-WASM/Game.swift:30 | returns a fresh handle, makes it active and records the period it was registered with |
| Host.Scheduler.ClearInterval | Sources/JelloSwift-WASM/Game.swift:87 | deactivates the handle if one is given, otherwise changes nothing; recorded periods and issued handles are kept |
| Simulation.StrokeColor | Sources/JelloSwift-WASM/Game.swift:109-110 | the stroke colour is always one of the six palette colours |
| Simulation.StrokeColorCycles | Sources/JelloSwift-WASM/Game.swift:103-110 | the colour repeats every six bodies; the first six bodies get the palette in order; index 7 is gray |
| Simulation.Outline | Sources/JelloSwift-WASM/Game.swift:104-107 | for n vertices the outline has n + 1 points, starts with the vertices, and its last point is its first |
| Simulation.OutlineTriangle | Sources/JelloSwift-WASM/Game.swift:104-107 | a triangle `[v0, v1, v2]` becomes `[v0, v1, v2, v0]` |
| Simulation.Markers | Sources/JelloSwift-WASM/Game.swift:112-114 | three calls per marked point |
| Simulation.MarkersAt | Sources/JelloSwift-WASM/Game.swift:112-114 | the k-th marker is `beginPath`, a full arc of radius `0.1 * zoom` around the k-th point transformed, `stroke` |
| Simulation.BodyCmdsShape | Sources/JelloSwift-WASM/Game.swift:104-115 | one body with n vertices draws 4n + 8 calls: its palette stroke, a path through the n + 1 transformed outline points closing at the first vertex, n + 1 markers, each `beginPath`, an arc of radius `0.1 * zoom` around its transformed point, `stroke` (the first vertex marked twice), then black |
| Simulation.Sections | Sources/JelloSwift-WASM/Game.swift:103 | one section per body of the world, in world order |
| Simulation.ConcatSplit | Sources/JelloSwift-WASM/Game.swift:103-116 | the calls for a run of bodies are the calls for its first part followed by those for the rest |
| Simulation.BodyInFrame | Sources/JelloSwift-WASM/Game.swift:103-116 | in a frame, the body at index k is drawn with its own colour right after every body before it and right before every body after it |
| Simulation.SteppedDrawable | Sources/JelloSwift-WASM/Game.swift:96-104 | world updates keep every body's vertex list non-empty, so the outline's first vertex always exists |
| Simulation.Repeat | Sources/JelloSwift-WASM/Game.swift:96-98 | n copies of the same time step |
| Simulation.BoxComponents | Sources/JelloSwift-WASM/Game.swift:129-138 | a box always has the spring component first; it has gravity exactly when not pinned, never a pressure component, and nothing else: one component when pinned, two otherwise |
| Simulation.Game.constructor | Sources/JelloSwift-WASM/Game.swift:20-26 | the canvas zoom becomes 32 and the offset is untouched; the world is empty and no timer is held |
| Simulation.Game.Start | Sources/JelloSwift-WASM/Game.swift:28-30 | paints the canvas black, then holds the newly registered, active timer, registered with the period `iterationInterval` (10); exactly one more handle has been issued |
| Simulation.Game.Stop | Sources/JelloSwift-WASM/Game.swift:86-89 | afterwards no timer is held and the previously held one is no longer active; a second stop changes nothing; recorded periods are untouched |
| Simulation.Game.DrawMarkers | Sources/JelloSwift-WASM/Game.swift:112-114 | one marker circle of radius 0.1 per point, in order |
| Simulation.Game.DrawBody | Sources/JelloSwift-WASM/Game.swift:104-115 | appends exactly the calls whose layout `BodyCmdsShape` states |
| Simulation.Game.DrawBodies | Sources/JelloSwift-WASM/Game.swift:103-116 | appends every body's calls in world order, each body in the colour of its index |
| Simulation.Game.DrawNext | Sources/JelloSwift-WASM/Game.swift:103-116 | drawing body `idx` extends the frame drawn so far by that body's section |
| Simulation.Game.Iterate | Sources/JelloSwift-WASM/Game.swift:91-117 | the resize comes first, then exactly five world updates of `0.1 / iterationInterval` = 0.01, then the clear, the white fill, and only then the bodies in world order; the bodies keep their vertex counts |
| Simulation.Game.CreateBox | Sources/JelloSwift-WASM/Game.swift:119-153 | spring always, gravity only when not pinned; point mass infinite when static, else `mass`; braces 0–2 and 1–3 with k = 100 and damping 10; the body joins the world |
| Simulation.Game.CreateBouncyBall | Sources/JelloSwift-WASM/Game.swift:155-181 | spring, then pressure with gas 90, then gravity, whether pinned or not; point mass `mass`; `pinned` is copied into the body; the body joins the world |

## Left out

- JavaScript interop is not modelled: `JSObject`, `JSClosure`, the `tickFn` closure and its release in `deinit`, and `getContext`. The context is the call log, the client dimensions are parameters, and the interval timers are the `Host.Scheduler` registry.
- Some host calls are folded together in the call log. The `createLinearGradient` call, its two `addColorStop` calls and the `strokeStyle` assignment (JSCanvas.swift:58-67) are one `SetStrokeStyle(LinearGradient(…))` entry. The `canvas.width` and `canvas.height` assignments (JSCanvas.swift:38-39) are one `ResizeBuffer` entry. The order of calls inside each group is therefore not modelled.
- The force-unwrapped read of `window.devicePixelRatio` (JSCanvas.swift:20) is the `JSCanvas` constructor's `devicePixelRatio` parameter. The trap when the ratio is not a number is not modelled.
- Arc angles: `Cmd.Arc` carries only the centre and radius. Every arc in the source is the full turn from 0 to 2π, which is left implicit because π is not a real literal.
- `DrawCanvas`, the protocol both canvases conform to, is not a separate type. The two classes simply share those method names.
- IEEE-754 doubles are not modelled: there is no rounding, infinity or NaN. The infinite point mass of a static box is the constructor `Infinite`.
- JSMath.DivideUndoesScale: `Divide` requires a non-zero divisor. The source divides by zero unchecked.
- Simulation.Game.Iterate: requires every body to have at least one vertex. With an empty body the source's force-unwrapped `first!` traps.
- Physics.World.Update: the engine's integrator is not modelled. The contract only says that bodies may move, that each keeps its configuration and vertex count, and that the update is counted. Where the vertices end up is left open.
- Simulation.Game.Start: the scene layout is not modelled. That covers the four balls, the two boxes, the static ground platform and their positions, which go through the engine's coordinate conversion. Only the black fill and the timer registration are modelled.
- Simulation.Game.CreateBox: the engine builds the polygon (a rectangle of `size`, rotated by `angle`) and places it at `pos`, so the model takes it as the parameter `shape`. Only the vertex count is stated. `velDamping` and `freeRotate`, which `start` sets afterwards, are not modelled.
- Simulation.Game.CreateBouncyBall: the engine builds the polygon (a circle of `radius` with `def` points, scaled uniformly by 0.3), so the model takes it as the parameter `shape`. Only the vertex count is stated.
- `Game.world` and `Game.canvas` are `var` in Game.swift:6 and 8, but the game never reassigns them, so the model makes them `const`. Replacing the world or the canvas of a running game is not modelled.
- `Sources/JelloSwift-WASM/App.swift` (the DOM set-up) and `Package.swift` are not part of this model.
