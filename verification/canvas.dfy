/**
 * The drawing layer: a device canvas that turns each primitive into calls on the
 * host's 2D context, and a transforming canvas that maps every coordinate from
 * simulation space to device pixels before delegating.
 *
 * The host context is modelled as the log of the calls made on it, in order.
 */
module Canvas {
  import opened Optional
  import opened JSMath
  import opened Colors

  /** What a stroke is painted with: a plain colour or a two-stop linear gradient. */
  datatype Style =
    | Solid(color: Color)
    | LinearGradient(startColor: Color, start: Point, endColor: Color, end: Point)

  /** One call on the 2D context or on the canvas element, in device pixels. */
  datatype Cmd =
    | ScaleContext(sx: real, sy: real)
    | ResizeBuffer(width: real, height: real)
    | ClearRect(x: real, y: real, w: real, h: real)
    | FillRect(x: real, y: real, w: real, h: real)
    | SetFillStyle(fill: Color)
    | SetStrokeStyle(style: Style)
    | BeginPath
    | MoveTo(to: Point)
    | LineTo(to: Point)
    | Arc(center: Point, radius: real)  // always the full turn, from angle 0 to 2 pi
    | StrokePath
    | FillPath

  // ---------------------------------------------------------------- what each primitive emits

  /** The new buffer size after a resize, if the host reported both client dimensions. */
  function ResizedTo(clientWidth: Option<real>, clientHeight: Option<real>, ratio: real): Option<Dimension>
  {
    if clientWidth.Some? && clientHeight.Some? then
      Some(Dimension(clientWidth.value * ratio, clientHeight.value * ratio))
    else
      None
  }

  function ResizeCmds(resized: Option<Dimension>): seq<Cmd>
  {
    if resized.Some? then [ResizeBuffer(resized.value.width, resized.value.height)] else []
  }

  function ClearCmds(size: Dimension): seq<Cmd>
  {
    var rect := JSRect(Zero, size);
    [ClearRect(rect.X(), rect.Y(), rect.Width(), rect.Height())]
  }

  function FillCmds(color: Color, size: Dimension): seq<Cmd>
  {
    var rect := JSRect(Zero, size);
    [SetFillStyle(color), FillRect(rect.X(), rect.Y(), rect.Width(), rect.Height())]
  }

  function CircleCmds(origin: Point, radius: real): seq<Cmd>
  {
    [BeginPath, Arc(origin, radius), StrokePath]
  }

  function FillCircleCmds(origin: Point, radius: real): seq<Cmd>
  {
    [BeginPath, Arc(origin, radius), FillPath, StrokePath]
  }

  function LineCmds(from: Point, to: Point): seq<Cmd>
  {
    [BeginPath, MoveTo(from), LineTo(to), StrokePath]
  }

  /** A `lineTo` to each of the points from index `lo` up to (not including) `hi`, in order. */
  function LineTos(points: seq<Point>, lo: nat, hi: nat): (cmds: seq<Cmd>)
    requires lo <= hi <= |points|
    ensures |cmds| == hi - lo
    decreases hi
  {
    if hi == lo then [] else LineTos(points, lo, hi - 1) + [LineTo(points[hi - 1])]
  }

  /** The `k`-th call is the `lineTo` to the `k`-th point of the range. */
  lemma {:induction false} LineTosAt(points: seq<Point>, lo: nat, hi: nat)
    requires lo <= hi <= |points|
    ensures forall k :: lo <= k < hi ==> LineTos(points, lo, hi)[k - lo] == LineTo(points[k])
    decreases hi
  {
    if hi > lo {
      LineTosAt(points, lo, hi - 1);
    }
  }

  /** A stroked open polyline through at least one point. */
  function PolylineCmds(points: seq<Point>): seq<Cmd>
    requires |points| > 0
  {
    [BeginPath, MoveTo(points[0])] + LineTos(points, 1, |points|) + [StrokePath]
  }

  /** An open polyline through the points; nothing at all for an empty list. */
  function PathCmds(points: seq<Point>): seq<Cmd>
  {
    if points == [] then [] else PolylineCmds(points)
  }

  /**
   * The shape of a path: empty input emits nothing; otherwise `beginPath`, a
   * `moveTo` to the first point, a `lineTo` to each later point in order and one
   * `stroke`, and never a `fill`. A single point gives exactly three calls.
   */
  lemma PathCmdsShape(points: seq<Point>)
    ensures points == [] ==> PathCmds(points) == []
    ensures points != [] ==>
      var cmds := PathCmds(points);
      |cmds| == |points| + 2 &&
      cmds[0] == BeginPath && cmds[1] == MoveTo(points[0]) &&
      (forall k :: 1 <= k < |points| ==> cmds[k + 1] == LineTo(points[k])) &&
      cmds[|cmds| - 1] == StrokePath &&
      FillPath !in cmds
    ensures |points| == 1 ==> PathCmds(points) == [BeginPath, MoveTo(points[0]), StrokePath]
  {
    if points != [] {
      var cmds := PathCmds(points);
      var tail := LineTos(points, 1, |points|);
      LineTosAt(points, 1, |points|);
      assert cmds == [BeginPath, MoveTo(points[0])] + tail + [StrokePath];
      forall k | 1 <= k < |points| ensures cmds[k + 1] == LineTo(points[k]) {
        assert cmds[k + 1] == tail[k - 1];
      }
      forall i | 0 <= i < |cmds| ensures cmds[i] != FillPath {
        if 2 <= i < |cmds| - 1 { assert cmds[i] == tail[i - 2] == LineTo(points[i - 1]); }
      }
    }
  }

  /** A stroked circle has no fill; a filled circle fills before it strokes. */
  lemma CircleCmdsShape(origin: Point, radius: real)
    ensures FillPath !in CircleCmds(origin, radius)
    ensures FillCircleCmds(origin, radius)[2] == FillPath && FillCircleCmds(origin, radius)[3] == StrokePath
  {
  }

  /** Clearing and filling cover the rectangle from (0, 0) with the given size. */
  lemma WholeSurfaceCmds(size: Dimension, color: Color)
    ensures ClearCmds(size) == [ClearRect(0.0, 0.0, size.width, size.height)]
    ensures FillCmds(color, size) == [SetFillStyle(color), FillRect(0.0, 0.0, size.width, size.height)]
  {
  }

  /** Both client dimensions times the pixel ratio, or no resize when either is missing. */
  lemma ResizedToShape(clientWidth: Option<real>, clientHeight: Option<real>, ratio: real)
    ensures ResizedTo(clientWidth, clientHeight, ratio).None? <==> clientWidth.None? || clientHeight.None?
    ensures ResizedTo(Some(800.0), Some(600.0), 2.0) == Some(Dimension(1600.0, 1200.0))
  {
  }

  // ---------------------------------------------------------------- the transform

  /** Simulation coordinates to device pixels: `(p + offset) * zoom`. */
  function ToDevice(p: Point, zoom: real, offset: Point): Point
  {
    Scale(Add(p, offset), zoom)
  }

  /** A length (a radius) from simulation units to device pixels: scaled by `zoom` alone. */
  function ToDeviceLength(length: real, zoom: real): real
  {
    length * zoom
  }

  /** Every point of a list mapped by the same transform, in the same order. */
  function MapPoints(points: seq<Point>, zoom: real, offset: Point): (mapped: seq<Point>)
    ensures |mapped| == |points|
  {
    seq(|points|, k requires 0 <= k < |points| => ToDevice(points[k], zoom, offset))
  }

  /** The worked example: zoom 2 and offset (10, -5) send (3, 4) to (26, -2) and a radius of 1 to 2. */
  lemma ToDeviceExample()
    ensures ToDevice(Point(3.0, 4.0), 2.0, Point(10.0, -5.0)) == Point(26.0, -2.0)
    ensures ToDeviceLength(1.0, 2.0) == 2.0
  {
  }

  /**
   * A transformed path keeps the length and order of its input: the `moveTo` goes
   * to the first point transformed, the `k`-th `lineTo` to the `k`-th point transformed.
   */
  lemma TransformedPathShape(points: seq<Point>, zoom: real, offset: Point)
    ensures points == [] ==> PathCmds(MapPoints(points, zoom, offset)) == []
    ensures points != [] ==>
      var cmds := PathCmds(MapPoints(points, zoom, offset));
      |cmds| == |points| + 2 &&
      cmds[1] == MoveTo(ToDevice(points[0], zoom, offset)) &&
      forall k :: 1 <= k < |points| ==> cmds[k + 1] == LineTo(ToDevice(points[k], zoom, offset))
  {
    var mapped := MapPoints(points, zoom, offset);
    PathCmdsShape(mapped);
    if points != [] {
      var cmds := PathCmds(mapped);
      forall k | 1 <= k < |points| ensures cmds[k + 1] == LineTo(ToDevice(points[k], zoom, offset)) {
        assert cmds[k + 1] == LineTo(mapped[k]);
      }
    }
  }

  /**
   * For a non-zero zoom the transform is undone by `q / zoom - offset`, so it
   * loses nothing: different points stay different on the device.
   */
  lemma ToDeviceInvertible(p: Point, q: Point, zoom: real, offset: Point)
    requires zoom != 0.0
    ensures Sub(Divide(ToDevice(p, zoom, offset), zoom), offset) == p
    ensures ToDevice(p, zoom, offset) == ToDevice(q, zoom, offset) ==> p == q
  {
    DivideUndoesScale(Add(p, offset), zoom);
    DivideUndoesScale(Add(q, offset), zoom);
  }

  /**
   * The transform is a uniform scale after a translation: the offset drops out of
   * differences, which are scaled by `zoom` alone, as radii are.
   */
  lemma ToDeviceDifference(p: Point, q: Point, zoom: real, offset: Point)
    ensures Sub(ToDevice(p, zoom, offset), ToDevice(q, zoom, offset)) == Scale(Sub(p, q), zoom)
  {
  }

  // ---------------------------------------------------------------- the device canvas

  /** The canvas in device pixels; `log` is every call made on its context, in order. */
  class JSCanvas {
    var log: seq<Cmd>
    var size: Dimension
    const devicePixelRatio: real

    /** The context is scaled by the pixel ratio once; the size starts at zero. */
    constructor (devicePixelRatio: real)
      ensures this.devicePixelRatio == devicePixelRatio
      ensures size == Dimension(0.0, 0.0)
      ensures log == [ScaleContext(devicePixelRatio, devicePixelRatio)]
    {
      this.devicePixelRatio := devicePixelRatio;
      size := Dimension(0.0, 0.0);
      log := [ScaleContext(devicePixelRatio, devicePixelRatio)];
    }

    /** Re-measures the element; nothing changes when a client dimension is unavailable. */
    method UpdateSize(clientWidth: Option<real>, clientHeight: Option<real>)
      modifies this`size, this`log
      ensures var resized := ResizedTo(clientWidth, clientHeight, devicePixelRatio);
        size == (if resized.Some? then resized.value else old(size)) &&
        log == old(log) + ResizeCmds(resized)
    {
      if clientWidth.None? || clientHeight.None? {
        return;
      }
      size := Dimension(clientWidth.value * devicePixelRatio, clientHeight.value * devicePixelRatio);
      log := log + [ResizeBuffer(size.width, size.height)];
    }

    method Clear()
      modifies this`log
      ensures log == old(log) + ClearCmds(size)
    {
      var rect := JSRect(Zero, size);
      log := log + [ClearRect(rect.X(), rect.Y(), rect.Width(), rect.Height())];
    }

    method Fill(color: Color)
      modifies this`log
      ensures log == old(log) + FillCmds(color, size)
    {
      log := log + [SetFillStyle(color)];
      var rect := JSRect(Zero, size);
      log := log + [FillRect(rect.X(), rect.Y(), rect.Width(), rect.Height())];
    }

    method SetStroke(color: Color)
      modifies this`log
      ensures log == old(log) + [SetStrokeStyle(Solid(color))]
    {
      log := log + [SetStrokeStyle(Solid(color))];
    }

    /** A gradient stroke from `start` to `end`, with one colour stop at each end. */
    method SetGradientStroke(startColor: Color, start: Point, endColor: Color, end: Point)
      modifies this`log
      ensures log == old(log) + [SetStrokeStyle(LinearGradient(startColor, start, endColor, end))]
    {
      log := log + [SetStrokeStyle(LinearGradient(startColor, start, endColor, end))];
    }

    method SetFill(color: Color)
      modifies this`log
      ensures log == old(log) + [SetFillStyle(color)]
    {
      log := log + [SetFillStyle(color)];
    }

    method DrawCircle(origin: Point, radius: real)
      modifies this`log
      ensures log == old(log) + CircleCmds(origin, radius)
    {
      log := log + [BeginPath];
      log := log + [Arc(origin, radius)];
      log := log + [StrokePath];
    }

    method DrawFillCircle(origin: Point, radius: real)
      modifies this`log
      ensures log == old(log) + FillCircleCmds(origin, radius)
    {
      log := log + [BeginPath];
      log := log + [Arc(origin, radius)];
      log := log + [FillPath];
      log := log + [StrokePath];
    }

    method DrawLine(from: Point, to: Point)
      modifies this`log
      ensures log == old(log) + LineCmds(from, to)
    {
      log := log + [BeginPath];
      log := log + [MoveTo(from)];
      log := log + [LineTo(to)];
      log := log + [StrokePath];
    }

    method DrawPath(points: seq<Point>)
      modifies this`log
      ensures log == old(log) + PathCmds(points)
    {
      if points == [] {
        return;
      }
      log := log + [BeginPath];
      var first := points[0];
      log := log + [MoveTo(first)];
      for i := 1 to |points|
        invariant log == old(log) + [BeginPath, MoveTo(first)] + LineTos(points, 1, i)
      {
        log := log + [LineTo(points[i])];
      }
      log := log + [StrokePath];
    }
  }

  // ---------------------------------------------------------------- the transforming canvas

  /**
   * Wraps a device canvas. Each coordinate is mapped with the `zoom` and `offset`
   * held at the moment of the call, each radius is multiplied by `zoom`; calls
   * without coordinates are passed on as they are. Every method only appends to
   * the device log, so what was drawn before a change of zoom or offset stays.
   */
  class TransformingCanvas {
    const realCanvas: JSCanvas
    var zoom: real
    var offset: Point

    constructor (realCanvas: JSCanvas)
      ensures this.realCanvas == realCanvas
      ensures zoom == 1.0 && offset == Zero
    {
      this.realCanvas := realCanvas;
      zoom := 1.0;
      offset := Zero;
    }

    method UpdateSize(clientWidth: Option<real>, clientHeight: Option<real>)
      modifies realCanvas`size, realCanvas`log
      ensures var resized := ResizedTo(clientWidth, clientHeight, realCanvas.devicePixelRatio);
        realCanvas.size == (if resized.Some? then resized.value else old(realCanvas.size)) &&
        realCanvas.log == old(realCanvas.log) + ResizeCmds(resized)
    {
      realCanvas.UpdateSize(clientWidth, clientHeight);
    }

    method Clear()
      modifies realCanvas`log
      ensures realCanvas.log == old(realCanvas.log) + ClearCmds(realCanvas.size)
    {
      realCanvas.Clear();
    }

    method Fill(color: Color)
      modifies realCanvas`log
      ensures realCanvas.log == old(realCanvas.log) + FillCmds(color, realCanvas.size)
    {
      realCanvas.Fill(color);
    }

    method SetStroke(color: Color)
      modifies realCanvas`log
      ensures realCanvas.log == old(realCanvas.log) + [SetStrokeStyle(Solid(color))]
    {
      realCanvas.SetStroke(color);
    }

    /** Both stop points are transformed; the colours are not. */
    method SetGradientStroke(startColor: Color, start: Point, endColor: Color, end: Point)
      modifies realCanvas`log
      ensures realCanvas.log == old(realCanvas.log) +
        [SetStrokeStyle(LinearGradient(startColor, ToDevice(start, zoom, offset), endColor, ToDevice(end, zoom, offset)))]
    {
      realCanvas.SetGradientStroke(startColor, Scale(Add(start, offset), zoom), endColor, Scale(Add(end, offset), zoom));
    }

    method SetFill(color: Color)
      modifies realCanvas`log
      ensures realCanvas.log == old(realCanvas.log) + [SetFillStyle(color)]
    {
      realCanvas.SetFill(color);
    }

    method DrawCircle(origin: Point, radius: real)
      modifies realCanvas`log
      ensures realCanvas.log == old(realCanvas.log) + CircleCmds(ToDevice(origin, zoom, offset), ToDeviceLength(radius, zoom))
    {
      realCanvas.DrawCircle(Scale(Add(origin, offset), zoom), ToDeviceLength(radius, zoom));
    }

    method DrawFillCircle(origin: Point, radius: real)
      modifies realCanvas`log
      ensures realCanvas.log == old(realCanvas.log) + FillCircleCmds(ToDevice(origin, zoom, offset), ToDeviceLength(radius, zoom))
    {
      realCanvas.DrawFillCircle(Scale(Add(origin, offset), zoom), ToDeviceLength(radius, zoom));
    }

    method DrawLine(from: Point, to: Point)
      modifies realCanvas`log
      ensures realCanvas.log == old(realCanvas.log) + LineCmds(ToDevice(from, zoom, offset), ToDevice(to, zoom, offset))
    {
      realCanvas.DrawLine(Scale(Add(from, offset), zoom), Scale(Add(to, offset), zoom));
    }

    method DrawPath(points: seq<Point>)
      modifies realCanvas`log
      ensures realCanvas.log == old(realCanvas.log) + PathCmds(MapPoints(points, zoom, offset))
    {
      realCanvas.DrawPath(MapPoints(points, zoom, offset));
    }
  }
}
