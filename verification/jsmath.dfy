/**
 * Value types for two-dimensional geometry: points, extents and rectangles,
 * with the componentwise operators the drawing layer is built on.
 * Coordinates are real numbers; rounding of the host's doubles is not modelled.
 */
module JSMath {
  /** Width and height of a drawing surface. */
  datatype Dimension = Dimension(width: real, height: real)

  /** A point (or displacement) in some coordinate space. */
  datatype Point = Point(x: real, y: real)

  const Zero := Point(0.0, 0.0)

  function Add(p: Point, q: Point): Point
  {
    Point(p.x + q.x, p.y + q.y)
  }

  function Sub(p: Point, q: Point): Point
  {
    Point(p.x - q.x, p.y - q.y)
  }

  /** `p * s`: both coordinates scaled by the same factor. */
  function Scale(p: Point, s: real): Point
  {
    Point(p.x * s, p.y * s)
  }

  /** `p / s`; the host divides by zero without complaint, the model requires a non-zero divisor. */
  function Divide(p: Point, s: real): Point
    requires s != 0.0
  {
    Point(p.x / s, p.y / s)
  }

  /** An axis-aligned rectangle given by its corner and its extent. */
  datatype JSRect = JSRect(origin: Point, size: Dimension)
  {
    function X(): real { origin.x }
    function Y(): real { origin.y }
    function Width(): real { size.width }
    function Height(): real { size.height }
  }

  lemma AddComponentwise(p: Point, q: Point)
    ensures Add(p, q).x == p.x + q.x && Add(p, q).y == p.y + q.y
    ensures Sub(p, q).x == p.x - q.x && Sub(p, q).y == p.y - q.y
    ensures Add(p, q) == Add(q, p)
  {
  }

  /** Subtracting what was added gives the point back: `(p + q) - q == p`. */
  lemma SubUndoesAdd(p: Point, q: Point)
    ensures Sub(Add(p, q), q) == p
    ensures Add(Sub(p, q), q) == p
  {
  }

  /** The zero point is a two-sided identity of addition. */
  lemma ZeroIsIdentity(p: Point)
    ensures Add(p, Zero) == p && Add(Zero, p) == p
    ensures Sub(p, Zero) == p
  {
  }

  /** Scaling distributes over addition and over subtraction. */
  lemma ScaleDistributes(p: Point, q: Point, s: real)
    ensures Scale(Add(p, q), s) == Add(Scale(p, s), Scale(q, s))
    ensures Scale(Sub(p, q), s) == Sub(Scale(p, s), Scale(q, s))
  {
  }

  /** Dividing by a non-zero factor undoes scaling by it, in both orders. */
  lemma DivideUndoesScale(p: Point, s: real)
    requires s != 0.0
    ensures Divide(Scale(p, s), s) == p
    ensures Scale(Divide(p, s), s) == p
  {
  }
}
