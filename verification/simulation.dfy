/**
 * The demo itself: a game that owns one physics world, steps it a fixed number
 * of times per timer tick and paints every body onto a transforming canvas, and
 * the builders that create its boxes and balls.
 */
module Simulation {
  import opened Optional
  import opened JSMath
  import opened Colors
  import opened Canvas
  import opened Physics
  import opened Host

  /** The stroke colours bodies cycle through, by their index in the world. */
  const Palette: seq<Color> := [Blue, Gray, Green, Red, Color("#F0F"), Color("#F60")]

  /** Radius of the marker drawn at every vertex, in simulation units. */
  const MarkerRadius: real := 0.1

  /** Physics updates per tick. */
  const SubSteps: nat := 5

  /** The zoom a new game gives its canvas. */
  const StartZoom: real := 32.0

  const BoxSpring := Spring(true, 600.0, 20.0, 100.0, 60.0)
  const BallSpring := Spring(true, 600.0, 20.0, 10.0, 20.0)
  const BallPressure := Pressure(90.0)

  /** The two diagonal braces of a box: corners 0 to 2 and 1 to 3. */
  const BoxBraces := [InternalSpring(0, 2, 100.0, 10.0), InternalSpring(1, 3, 100.0, 10.0)]

  // ---------------------------------------------------------------- what one tick draws

  /** The stroke colour of the body at `idx`. */
  function StrokeColor(idx: nat): (c: Color)
    ensures c in Palette
  {
    Palette[idx % |Palette|]
  }

  /** The palette repeats every six bodies; the body at index 7 is gray. */
  lemma StrokeColorCycles(idx: nat)
    ensures StrokeColor(idx + |Palette|) == StrokeColor(idx)
    ensures idx < |Palette| ==> StrokeColor(idx) == Palette[idx]
    ensures StrokeColor(7) == Gray
  {
    assert |Palette| == 6;
    assert (idx + 6) % 6 == idx % 6;
  }

  /** The closed outline of a polygon: its vertices, then the first one again. */
  function Outline(vertices: seq<Point>): (outline: seq<Point>)
    requires |vertices| > 0
    ensures |outline| == |vertices| + 1
    ensures outline[..|vertices|] == vertices
    ensures outline[|vertices|] == outline[0]
  {
    vertices + [vertices[0]]
  }

  /** For a triangle the outline has four points and the fourth is the first. */
  lemma OutlineTriangle(v0: Point, v1: Point, v2: Point)
    ensures Outline([v0, v1, v2]) == [v0, v1, v2, v0]
  {
  }

  /** A marker circle at each of the first `n` points, in order, each mapped by the transform. */
  function Markers(points: seq<Point>, n: nat, zoom: real, offset: Point): (cmds: seq<Cmd>)
    requires n <= |points|
    ensures |cmds| == 3 * n
  {
    if n == 0 then []
    else Markers(points, n - 1, zoom, offset) + CircleCmds(ToDevice(points[n - 1], zoom, offset), ToDeviceLength(MarkerRadius, zoom))
  }

  /** The `k`-th marker is a stroked circle of radius `0.1 * zoom` around the `k`-th point, transformed. */
  lemma {:induction false} MarkersAt(points: seq<Point>, n: nat, zoom: real, offset: Point)
    requires n <= |points|
    ensures forall k :: 0 <= k < n ==>
      Markers(points, n, zoom, offset)[3 * k] == BeginPath &&
      Markers(points, n, zoom, offset)[3 * k + 1] == Arc(ToDevice(points[k], zoom, offset), ToDeviceLength(MarkerRadius, zoom)) &&
      Markers(points, n, zoom, offset)[3 * k + 2] == StrokePath
  {
    if n > 0 {
      MarkersAt(points, n - 1, zoom, offset);
      var cmds := Markers(points, n, zoom, offset);
      var init := Markers(points, n - 1, zoom, offset);
      forall k | 0 <= k < n - 1
        ensures cmds[3 * k] == init[3 * k]
        ensures cmds[3 * k + 1] == init[3 * k + 1]
        ensures cmds[3 * k + 2] == init[3 * k + 2]
      {
      }
    }
  }

  /**
   * Everything drawn for one body: its palette stroke, the outline path, a
   * marker at every outline point, then the stroke reset to black.
   */
  function BodyCmds(vertices: seq<Point>, idx: nat, zoom: real, offset: Point): seq<Cmd>
    requires |vertices| > 0
  {
    var outline := Outline(vertices);
    [SetStrokeStyle(Solid(StrokeColor(idx)))] +
    PolylineCmds(MapPoints(outline, zoom, offset)) +
    Markers(outline, |outline|, zoom, offset) +
    [SetStrokeStyle(Solid(Black))]
  }

  /** Every body can be outlined: the renderer takes the first vertex of each unchecked. */
  predicate Drawable(bodies: seq<Body>)
  {
    forall i :: 0 <= i < |bodies| ==> |bodies[i].vertices| > 0
  }

  /** What each body draws, in world order; the body's index picks its colour. */
  function Sections(bodies: seq<Body>, zoom: real, offset: Point): (sections: seq<seq<Cmd>>)
    requires Drawable(bodies)
    ensures |sections| == |bodies|
  {
    seq(|bodies|, i requires 0 <= i < |bodies| => BodyCmds(bodies[i].vertices, i, zoom, offset))
  }

  /** The sections from index `j` up to (not including) `n`, one after another. */
  function Concat(sections: seq<seq<Cmd>>, j: nat, n: nat): seq<Cmd>
    requires j <= n <= |sections|
    decreases n
  {
    if n == j then [] else Concat(sections, j, n - 1) + sections[n - 1]
  }

  /** Everything one tick draws for the bodies of the world. */
  function FrameCmds(bodies: seq<Body>, zoom: real, offset: Point): seq<Cmd>
    requires Drawable(bodies)
  {
    Concat(Sections(bodies, zoom, offset), 0, |bodies|)
  }

  /** Physics updates keep every body drawable. */
  lemma SteppedDrawable(before: seq<Body>, after: seq<Body>, k: nat)
    requires Drawable(before) && Stepped(before, after, k)
    ensures Drawable(after)
  {
    forall i | 0 <= i < |after| ensures |after[i].vertices| > 0 {
      assert SteppedBody(before[i], after[i], k);
    }
  }

  /**
   * The layout of one body's drawing for `n` vertices: the palette stroke for
   * its index, a path through the `n + 1` transformed outline points, `n + 1`
   * markers of radius `0.1 * zoom` (the first vertex is marked twice), and the
   * reset to black last.
   */
  lemma BodyCmdsShape(vertices: seq<Point>, idx: nat, zoom: real, offset: Point)
    requires |vertices| > 0
    ensures var n := |vertices|;
      var cmds := BodyCmds(vertices, idx, zoom, offset);
      |cmds| == 4 * n + 8 &&
      cmds[0] == SetStrokeStyle(Solid(Palette[idx % 6])) &&
      cmds[1] == BeginPath &&
      cmds[2] == MoveTo(ToDevice(vertices[0], zoom, offset)) &&
      (forall k :: 1 <= k < n ==> cmds[k + 2] == LineTo(ToDevice(vertices[k], zoom, offset))) &&
      cmds[n + 2] == LineTo(ToDevice(vertices[0], zoom, offset)) &&
      cmds[n + 3] == StrokePath &&
      (forall k :: 0 <= k < n ==> cmds[n + 5 + 3 * k] == Arc(ToDevice(vertices[k], zoom, offset), ToDeviceLength(MarkerRadius, zoom))) &&
      (forall k :: 0 <= k <= n ==> cmds[n + 4 + 3 * k] == BeginPath && cmds[n + 6 + 3 * k] == StrokePath) &&
      cmds[4 * n + 5] == Arc(ToDevice(vertices[0], zoom, offset), ToDeviceLength(MarkerRadius, zoom)) &&
      cmds[4 * n + 7] == SetStrokeStyle(Solid(Black))
  {
    var n := |vertices|;
    var outline := Outline(vertices);
    var mapped := MapPoints(outline, zoom, offset);
    var path := PolylineCmds(mapped);
    var marks := Markers(outline, |outline|, zoom, offset);
    var cmds := BodyCmds(vertices, idx, zoom, offset);
    PathCmdsShape(mapped);
    MarkersAt(outline, |outline|, zoom, offset);
    assert cmds == [SetStrokeStyle(Solid(StrokeColor(idx)))] + path + marks + [SetStrokeStyle(Solid(Black))];
    assert |path| == n + 3;
    assert outline[0] == vertices[0];
    forall k | 1 <= k < n ensures cmds[k + 2] == LineTo(ToDevice(vertices[k], zoom, offset)) {
      assert cmds[k + 2] == path[k + 1] == LineTo(mapped[k]);
      assert outline[k] == outline[..n][k];
    }
    assert cmds[n + 2] == path[n + 1];
    forall k | 0 <= k < n ensures cmds[n + 5 + 3 * k] == Arc(ToDevice(vertices[k], zoom, offset), ToDeviceLength(MarkerRadius, zoom)) {
      assert cmds[n + 5 + 3 * k] == marks[3 * k + 1];
      assert outline[k] == outline[..n][k];
    }
    assert cmds[4 * n + 5] == marks[3 * n + 1];
    forall k | 0 <= k <= n ensures cmds[n + 4 + 3 * k] == BeginPath && cmds[n + 6 + 3 * k] == StrokePath {
      assert cmds[n + 4 + 3 * k] == marks[3 * k];
      assert cmds[n + 6 + 3 * k] == marks[3 * k + 2];
    }
  }

  /** A run of sections splits at any index in between. */
  lemma {:induction false} ConcatSplit(sections: seq<seq<Cmd>>, i: nat, j: nat, n: nat)
    requires i <= j <= n <= |sections|
    ensures Concat(sections, i, n) == Concat(sections, i, j) + Concat(sections, j, n)
    decreases n
  {
    if j < n {
      ConcatSplit(sections, i, j, n - 1);
      AppendAssoc(Concat(sections, i, j), Concat(sections, j, n - 1), sections[n - 1]);
    }
  }

  /**
   * The body at index `k` is drawn, with its own palette colour, right after
   * the bodies before it and right before the bodies after it.
   */
  lemma {:induction false} BodyInFrame(bodies: seq<Body>, k: nat, zoom: real, offset: Point)
    requires Drawable(bodies) && k < |bodies|
    ensures var sections := Sections(bodies, zoom, offset);
      FrameCmds(bodies, zoom, offset) ==
        Concat(sections, 0, k) + BodyCmds(bodies[k].vertices, k, zoom, offset) + Concat(sections, k + 1, |bodies|)
  {
    var sections := Sections(bodies, zoom, offset);
    ConcatSplit(sections, 0, k, |bodies|);
    ConcatSplit(sections, k, k + 1, |bodies|);
    assert Concat(sections, k, k + 1) == sections[k];
    AppendAssoc(Concat(sections, 0, k), sections[k], Concat(sections, k + 1, |bodies|));
  }

  /** Concatenation of call lists is associative. */
  lemma AppendAssoc(a: seq<Cmd>, b: seq<Cmd>, c: seq<Cmd>)
    ensures (a + b) + c == a + (b + c)
  {
  }

  /** `n` copies of `x`. */
  function Repeat(x: real, n: nat): (r: seq<real>)
    ensures |r| == n
    ensures forall i :: 0 <= i < n ==> r[i] == x
  {
    if n == 0 then [] else Repeat(x, n - 1) + [x]
  }

  // ---------------------------------------------------------------- the builders' choices

  /** A box always gets its spring component, and gravity unless it is pinned. */
  function BoxComponents(pinned: bool): (comps: seq<Component>)
    ensures |comps| >= 1 && comps[0] == BoxSpring
    ensures Gravity in comps <==> !pinned
    ensures BallPressure !in comps
    ensures forall c :: c in comps ==> !c.Pressure?
    ensures |comps| == if pinned then 1 else 2
  {
    [BoxSpring] + (if pinned then [] else [Gravity])
  }

  // ---------------------------------------------------------------- the game

  class Game {
    const world: World
    var timer: Option<nat>
    const canvas: TransformingCanvas
    const host: Scheduler
    const iterationInterval: real := 10.0

    /** A game with an empty world; the canvas is zoomed to 32. */
    constructor (canvas: TransformingCanvas, host: Scheduler)
      modifies canvas
      ensures this.canvas == canvas && this.host == host
      ensures canvas.zoom == StartZoom && canvas.offset == old(canvas.offset)
      ensures fresh(world) && world.bodies == [] && world.steps == []
      ensures timer == None
    {
      world := new World();
      timer := None;
      this.canvas := canvas;
      this.host := host;
      new;
      canvas.zoom := StartZoom;
    }

    /** Paints the canvas black and registers the recurring tick. */
    method Start()
      requires host.Valid()
      modifies this`timer, host, canvas.realCanvas`log
      ensures host.Valid()
      ensures canvas.realCanvas.log == old(canvas.realCanvas.log) + FillCmds(Black, canvas.realCanvas.size)
      ensures timer == Some(old(host.issued)) && old(host.issued) !in old(host.active)
      ensures host.active == old(host.active) + {old(host.issued)} && host.issued == old(host.issued) + 1
      ensures host.periods == old(host.periods)[old(host.issued) := iterationInterval]
    {
      canvas.Fill(Black);
      var handle := host.SetInterval(iterationInterval);
      timer := Some(handle);
    }

    /**
     * Cancels the tick. Afterwards no handle is held and the one held before no
     * longer fires; on a stopped game it changes nothing.
     */
    method Stop()
      requires host.Valid()
      modifies this`timer, host
      ensures host.Valid() && timer == None && host.issued == old(host.issued) && host.periods == old(host.periods)
      ensures host.active == if old(timer).Some? then old(host.active) - {old(timer).value} else old(host.active)
      ensures old(timer).Some? ==> old(timer).value !in host.active
      ensures old(timer).None? ==> host.active == old(host.active)
    {
      host.ClearInterval(timer);
      timer := None;
    }

    /** Marks each point with a circle of radius 0.1, in order. */
    method DrawMarkers(points: seq<Point>)
      modifies canvas.realCanvas`log
      ensures canvas.realCanvas.log == old(canvas.realCanvas.log) + Markers(points, |points|, canvas.zoom, canvas.offset)
    {
      for k := 0 to |points|
        invariant canvas.realCanvas.log == old(canvas.realCanvas.log) + Markers(points, k, canvas.zoom, canvas.offset)
      {
        canvas.DrawCircle(points[k], MarkerRadius);
      }
    }

    /** Draws one body: its outline in its palette colour, a marker at each outline point, then black. */
    method DrawBody(vertices: seq<Point>, idx: nat)
      requires |vertices| > 0
      modifies canvas.realCanvas`log
      ensures canvas.realCanvas.log == old(canvas.realCanvas.log) + BodyCmds(vertices, idx, canvas.zoom, canvas.offset)
    {
      var shapes := Outline(vertices);
      canvas.SetStroke(StrokeColor(idx));
      canvas.DrawPath(shapes);
      DrawMarkers(shapes);
      canvas.SetStroke(Black);
    }

    /**
     * One timer tick: re-measure the canvas, advance the world by five updates of
     * `0.1 / iterationInterval`, clear, fill white, then draw every body in world order.
     */
    method Iterate(clientWidth: Option<real>, clientHeight: Option<real>)
      requires Drawable(world.bodies)
      modifies world, canvas.realCanvas`size, canvas.realCanvas`log
      ensures world.steps == old(world.steps) + Repeat(0.1 / iterationInterval, SubSteps)
      ensures Stepped(old(world.bodies), world.bodies, SubSteps) && Drawable(world.bodies)
      ensures var resized := ResizedTo(clientWidth, clientHeight, canvas.realCanvas.devicePixelRatio);
        canvas.realCanvas.size == (if resized.Some? then resized.value else old(canvas.realCanvas.size)) &&
        canvas.realCanvas.log ==
          old(canvas.realCanvas.log) + ResizeCmds(resized) +
          ClearCmds(canvas.realCanvas.size) + FillCmds(White, canvas.realCanvas.size) +
          FrameCmds(world.bodies, canvas.zoom, canvas.offset)
    {
      ghost var resized := ResizedTo(clientWidth, clientHeight, canvas.realCanvas.devicePixelRatio);
      canvas.UpdateSize(clientWidth, clientHeight);
      ghost var resizedLog := canvas.realCanvas.log;
      assert resizedLog == old(canvas.realCanvas.log) + ResizeCmds(resized);
      ghost var size := canvas.realCanvas.size;
      ghost var before := world.bodies;

      for i := 0 to SubSteps
        invariant world.steps == old(world.steps) + Repeat(0.1 / iterationInterval, i)
        invariant Stepped(before, world.bodies, i)
        invariant canvas.realCanvas.log == resizedLog && canvas.realCanvas.size == size
      {
        ghost var current := world.bodies;
        world.Update(0.1 / iterationInterval);
        SteppedCompose(before, current, world.bodies, i, 1);
      }
      SteppedDrawable(before, world.bodies, SubSteps);

      canvas.Clear();
      canvas.Fill(White);
      ghost var filledLog := canvas.realCanvas.log;
      assert filledLog == resizedLog + ClearCmds(size) + FillCmds(White, size);
      DrawBodies();
    }

    /** Draws every body of the world in order, each stroked with the palette colour of its index. */
    method DrawBodies()
      requires Drawable(world.bodies)
      modifies canvas.realCanvas`log
      ensures canvas.realCanvas.log == old(canvas.realCanvas.log) + FrameCmds(world.bodies, canvas.zoom, canvas.offset)
    {
      var bodies := world.bodies;
      ghost var start := canvas.realCanvas.log;
      ghost var sections := Sections(bodies, canvas.zoom, canvas.offset);
      for idx := 0 to |bodies|
        invariant canvas.realCanvas.log == start + Concat(sections, 0, idx)
      {
        DrawNext(bodies, idx, start, sections);
      }
    }

    /** Draws the body at `idx` after the ones before it. */
    method DrawNext(bodies: seq<Body>, idx: nat, ghost start: seq<Cmd>, ghost sections: seq<seq<Cmd>>)
      requires Drawable(bodies) && idx < |bodies| && sections == Sections(bodies, canvas.zoom, canvas.offset)
      requires canvas.realCanvas.log == start + Concat(sections, 0, idx)
      modifies canvas.realCanvas`log
      ensures canvas.realCanvas.log == start + Concat(sections, 0, idx + 1)
    {
      DrawBody(bodies[idx].vertices, idx);
      AppendAssoc(start, Concat(sections, 0, idx), sections[idx]);
    }

    /**
     * Creates a box from the engine's polygon `shape` (its rectangle of the
     * requested size, turned by the requested angle) and adds it to the world.
     */
    method CreateBox(pos: Point, shape: seq<Point>, pinned: bool := false, kinematic: bool := false,
                     isStatic: bool := false, mass: real := 0.5) returns (body: Body)
      modifies world
      ensures world.bodies == old(world.bodies) + [body] && world.steps == old(world.steps)
      ensures body.components == BoxComponents(pinned)
      ensures body.pointMasses == [if isStatic then Infinite else Finite(mass)]
      ensures body.internalSprings == BoxBraces
      ensures body.isPinned == pinned && body.isKinematic == kinematic && body.position == pos
      ensures |body.vertices| == |shape| && body.updates == 0
    {
      var comps: seq<Component> := [];
      comps := comps + [BoxSpring];
      if !pinned {
        comps := comps + [Gravity];
      }
      var pointMass := if isStatic then Infinite else Finite(mass);
      body := Body(pos, shape, [pointMass], comps, [], kinematic, false, 0);
      body := body.(isPinned := pinned);
      body := body.(internalSprings := body.internalSprings + [InternalSpring(0, 2, 100.0, 10.0)]);
      body := body.(internalSprings := body.internalSprings + [InternalSpring(1, 3, 100.0, 10.0)]);
      world.AddBody(body);
    }

    /**
     * Creates a ball from the engine's polygon `shape` (its circle of the requested
     * radius and point count, scaled uniformly by 0.3) and adds it to the world.
     */
    method CreateBouncyBall(pos: Point, shape: seq<Point>, pinned: bool := false, kinematic: bool := false,
                            mass: real := 0.5) returns (body: Body)
      modifies world
      ensures world.bodies == old(world.bodies) + [body] && world.steps == old(world.steps)
      ensures body.components == [BallSpring, BallPressure, Gravity]
      ensures body.pointMasses == [Finite(mass)] && body.internalSprings == []
      ensures body.isPinned == pinned && body.isKinematic == kinematic && body.position == pos
      ensures |body.vertices| == |shape| && body.updates == 0
    {
      var comps: seq<Component> := [];
      comps := comps + [BallSpring];
      comps := comps + [BallPressure];
      comps := comps + [Gravity];
      body := Body(pos, shape, [Finite(mass)], comps, [], kinematic, false, 0);
      body := body.(isPinned := pinned);
      world.AddBody(body);
    }
  }
}
