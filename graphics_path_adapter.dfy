/**
 * The PdfSharp graphics path adapter: a path built segment by segment from a
 * remembered last point, with quarter-circle arcs for rounded box corners.
 *
 * Coordinates follow the drawing surface: x grows to the right, y grows
 * downwards, and angles are in degrees measured clockwise from the positive
 * x axis.
 */
module PdfSharpAdapters {

  datatype Point = Point(x: real, y: real)

  /** A segment of the underlying path, as added to it. */
  datatype Segment =
    | Line(x1: real, y1: real, x2: real, y2: real)
    | Arc(left: real, top: real, width: real, height: real, startAngle: int, sweepAngle: int)

  /** The corner of a box that an arc rounds. */
  datatype Corner = TopLeft | TopRight | BottomLeft | BottomRight

  predicate IsLeft(c: Corner) { c.TopLeft? || c.BottomLeft? }

  predicate IsTop(c: Corner) { c.TopLeft? || c.TopRight? }

  /**
   * Get arc start angle for the given corner. The 90-degree arc that starts
   * there lies in the corner's quadrant: on the left half of the circle for
   * a left corner and on the upper half for a top corner.
   */
  function GetStartAngle(corner: Corner): (a: int)
    ensures a % 90 == 0 && 0 <= a <= 270
    ensures IsLeft(corner) <==> 90 <= a <= 180
    ensures IsTop(corner) <==> 180 <= a
  {
    match corner
    case TopLeft => 180
    case TopRight => 270
    case BottomLeft => 90
    case BottomRight => 0
  }

  /** Distinct corners start their arcs at distinct angles. */
  lemma StartAnglesDistinct(c: Corner, d: Corner)
    requires c != d
    ensures GetStartAngle(c) != GetStartAngle(d)
  {
  }

  function Min(a: real, b: real): real
  {
    if a <= b then a else b
  }

  /**
   * The arc that ArcTo adds from the last point to (x, y): a quarter of the
   * circle of radius size inscribed in the square at (left, top).
   */
  function ArcOf(last: Point, x: real, y: real, size: real, corner: Corner): (s: Segment)
    ensures s.Arc? && s.width == s.height == 2.0 * size
    ensures s.startAngle == GetStartAngle(corner) && s.sweepAngle == 90
  {
    var left := Min(x, last.x) - (if corner == TopRight || corner == BottomRight then size else 0.0);
    var top := Min(y, last.y) - (if corner == BottomLeft || corner == BottomRight then size else 0.0);
    Arc(left, top, 2.0 * size, 2.0 * size, GetStartAngle(corner), 90)
  }

  /** The arc is the same whichever of its two end points is the last point. */
  lemma ArcOfSymmetric(p: Point, q: Point, size: real, corner: Corner)
    ensures ArcOf(p, q.x, q.y, size, corner) == ArcOf(q, p.x, p.y, size, corner)
  {
  }

  /**
   * The unit vector at an angle that is a multiple of 90 degrees (clockwise,
   * with y growing downwards).
   */
  function UnitAt(deg: int): (u: Point)
    requires deg % 90 == 0
    ensures u.x * u.x + u.y * u.y == 1.0
  {
    match deg % 360
    case 0 => Point(1.0, 0.0)
    case 90 => Point(0.0, 1.0)
    case 180 => Point(-1.0, 0.0)
    case _ => Point(0.0, -1.0)
  }

  /** The point at angle deg on the circle inscribed in a square arc segment. */
  function PointOnArc(s: Segment, deg: int): Point
    requires s.Arc? && deg % 90 == 0
  {
    var r := s.width / 2.0;
    var u := UnitAt(deg);
    Point(s.left + r + r * u.x, s.top + r + r * u.y)
  }

  /** Where an arc segment starts and where it ends. */
  function ArcStart(s: Segment): Point
    requires s.Arc? && s.startAngle % 90 == 0
  {
    PointOnArc(s, s.startAngle)
  }

  function ArcEnd(s: Segment): Point
    requires s.Arc? && s.startAngle % 90 == 0 && s.sweepAngle % 90 == 0
  {
    PointOnArc(s, s.startAngle + s.sweepAngle)
  }

  /**
   * The two points where a box outline, traced clockwise, leaves the straight
   * edge before corner k and joins the straight edge after it, when the
   * corner is rounded with radius r.
   */
  function CornerEnds(k: Point, r: real, corner: Corner): (Point, Point)
  {
    match corner
    case TopLeft => (Point(k.x, k.y + r), Point(k.x + r, k.y))
    case TopRight => (Point(k.x - r, k.y), Point(k.x, k.y + r))
    case BottomRight => (Point(k.x, k.y - r), Point(k.x - r, k.y))
    case BottomLeft => (Point(k.x + r, k.y), Point(k.x, k.y - r))
  }

  /**
   * Rounding a corner: when the last point is where the outline leaves the
   * edge before the corner and (x, y) is where it joins the next edge, the
   * arc that ArcTo adds starts at the last point and ends at (x, y).
   */
  lemma ArcJoinsEdges(k: Point, r: real, corner: Corner)
    requires r >= 0.0
    ensures var (p, q) := CornerEnds(k, r, corner);
      ArcStart(ArcOf(p, q.x, q.y, r, corner)) == p &&
      ArcEnd(ArcOf(p, q.x, q.y, r, corner)) == q
  {
  }

  /**
   * Adapter from the renderer's graphics path to a PdfSharp path: the
   * segments added so far and the point the next segment begins from.
   */
  class GraphicsPathAdapter {
    var path: seq<Segment>
    var lastPoint: Point

    constructor ()
      ensures path == [] && lastPoint == Point(0.0, 0.0)
    {
      path := [];
      lastPoint := Point(0.0, 0.0);
    }

    /** Moves the last point to (x, y) without adding a segment. */
    method Start(x: real, y: real)
      modifies this
      ensures path == old(path)
      ensures lastPoint == Point(x, y)
    {
      lastPoint := Point(x, y);
    }

    /** Adds a straight line from the last point to (x, y), which becomes the last point. */
    method LineTo(x: real, y: real)
      modifies this
      ensures path == old(path) + [Line(old(lastPoint).x, old(lastPoint).y, x, y)]
      ensures lastPoint == Point(x, y)
    {
      path := path + [Line(lastPoint.x, lastPoint.y, x, y)];
      lastPoint := Point(x, y);
    }

    /**
     * Adds the quarter-circle arc of radius size that rounds the given corner
     * between the last point and (x, y), which becomes the last point.
     */
    method ArcTo(x: real, y: real, size: real, corner: Corner)
      modifies this
      ensures path == old(path) + [ArcOf(old(lastPoint), x, y, size, corner)]
      ensures lastPoint == Point(x, y)
    {
      var left := Min(x, lastPoint.x) - (if corner == TopRight || corner == BottomRight then size else 0.0);
      var top := Min(y, lastPoint.y) - (if corner == BottomLeft || corner == BottomRight then size else 0.0);
      path := path + [Arc(left, top, size * 2.0, size * 2.0, GetStartAngle(corner), 90)];
      lastPoint := Point(x, y);
    }
  }
}
