// Geometry of the rectangle-selection tool: the shape extent, the clamp
// applied while drawing, the Shift "make it square" step of ReDraw and the
// eight handle positions written by RefreshHandler.

module Extents {

  /** A point in document coordinates (Cairo.PointD, with `real` for `double`). */
  datatype Point = Point(x: real, y: real)

  /** The two defining points of a shape: `shape_origin` and `shape_end`. */
  datatype Extent = Extent(origin: Point, end: Point)

  function Abs(v: real): (r: real)
    ensures r >= 0.0 && (r == v || r == -v)
  {
    if v < 0.0 then -v else v
  }

  function Max(a: real, b: real): (r: real)
    ensures r >= a && r >= b && (r == a || r == b)
  {
    if a >= b then a else b
  }

  /** Signed width and height of an extent. */
  function Width(ext: Extent): real { ext.end.x - ext.origin.x }
  function Height(ext: Extent): real { ext.end.y - ext.origin.y }

  /** |width| == |height|: what the Shift constraint is meant to produce. */
  predicate IsSquare(ext: Extent) {
    Abs(Width(ext)) == Abs(Height(ext))
  }

  /** Utility.Clamp(v, lo, hi), as used for coordinates while drawing. */
  function Clamp(v: real, lo: real, hi: real): (r: real)
    ensures lo <= hi ==> lo <= r <= hi
    ensures lo <= v <= hi ==> r == v
    ensures v < lo ==> r == lo
    ensures lo <= hi && v > hi ==> r == hi
  {
    if v < lo then lo else if v > hi then hi else v
  }

  /** The image rectangle [0, width-1] x [0, height-1] that drawing clamps to. */
  predicate InImage(p: Point, width: int, height: int) {
    0.0 <= p.x <= (width - 1) as real && 0.0 <= p.y <= (height - 1) as real
  }

  /** The point clamped into the image, as OnMouseDown and OnMouseMove do while drawing. */
  function ClampToImage(p: Point, width: int, height: int): (r: Point)
    ensures width >= 1 && height >= 1 ==> InImage(r, width, height)
    ensures InImage(p, width, height) ==> r == p
  {
    Point(Clamp(p.x, 0.0, (width - 1) as real), Clamp(p.y, 0.0, (height - 1) as real))
  }

  /**
   * The Shift step of ReDraw. With Shift the shorter side is stretched to the
   * length of the longer one, on the side of the origin where it already lies;
   * the origin never moves. Without Shift nothing changes.
   */
  function Constrain(ext: Extent, shift: bool): (r: Extent)
    ensures r.origin == ext.origin
    ensures !shift ==> r == ext
    ensures shift ==> Abs(Width(r)) == Abs(Height(r)) == Max(Abs(Width(ext)), Abs(Height(ext)))
    ensures shift && Abs(Width(ext)) <= Abs(Height(ext)) ==> r.end.y == ext.end.y
    ensures shift && Abs(Width(ext)) > Abs(Height(ext)) ==> r.end.x == ext.end.x
    ensures (Width(r) >= 0.0 <==> Width(ext) >= 0.0) && (Height(r) >= 0.0 <==> Height(ext) >= 0.0)
  {
    if !shift then ext
    else
      var o, e := ext.origin, ext.end;
      var dx, dy := Abs(e.x - o.x), Abs(e.y - o.y);
      if dx <= dy then
        Extent(o, e.(x := if e.x >= o.x then o.x + dy else o.x - dy))
      else
        Extent(o, e.(y := if e.y >= o.y then o.y + dx else o.y - dx))
  }

  /** An extent that is already square is left alone by the constraint. */
  lemma ConstrainFixesSquare(ext: Extent, shift: bool)
    requires IsSquare(ext)
    ensures Constrain(ext, shift) == ext
  {
  }

  /** Applying the constraint twice is the same as applying it once. */
  lemma ConstrainIdempotent(ext: Extent, shift: bool)
    ensures Constrain(Constrain(ext, shift), shift) == Constrain(ext, shift)
  {
  }

  /** The end point is clamped into the image before ReDraw, but the Shift step
      may then push it outside: a 100 x 50 image, origin (0,0), pointer (99,10). */
  lemma ConstrainMayLeaveImage()
    ensures var ext := Extent(Point(0.0, 0.0), ClampToImage(Point(99.0, 10.0), 100, 50));
            InImage(ext.end, 100, 50) && !InImage(Constrain(ext, true).end, 100, 50)
  {
  }

  /**
   * The eight handle positions RefreshHandler stores in `controls`:
   * 0..3 the corners (ox,oy), (ox,ey), (ex,oy), (ex,ey);
   * 4..7 the midpoints of the left, top, right and bottom edges.
   */
  function HandlePositions(ext: Extent): (hs: seq<Point>)
    ensures |hs| == 8
  {
    var o, e := ext.origin, ext.end;
    [ Point(o.x, o.y), Point(o.x, e.y), Point(e.x, o.y), Point(e.x, e.y),
      Point(o.x, (o.y + e.y) / 2.0), Point((o.x + e.x) / 2.0, o.y),
      Point(e.x, (o.y + e.y) / 2.0), Point((o.x + e.x) / 2.0, e.y) ]
  }

  function Midpoint(p: Point, q: Point): Point {
    Point((p.x + q.x) / 2.0, (p.y + q.y) / 2.0)
  }

  /** Inside or on the border of the rectangle an extent spans. */
  predicate InBox(p: Point, ext: Extent) {
    var o, e := ext.origin, ext.end;
    (o.x <= p.x <= e.x || e.x <= p.x <= o.x) && (o.y <= p.y <= e.y || e.y <= p.y <= o.y)
  }

  /**
   * Handles 0 and 3 are the origin and the end, 1 and 2 the other two corners;
   * each edge handle is the midpoint of the two corner handles of its edge; every
   * handle lies in the shape's rectangle, so the handles span exactly that rectangle.
   */
  lemma HandlesAreCornersAndMidpoints(ext: Extent)
    ensures var hs := HandlePositions(ext);
      && hs[0] == ext.origin && hs[3] == ext.end
      && hs[1] == Point(ext.origin.x, ext.end.y) && hs[2] == Point(ext.end.x, ext.origin.y)
      && hs[4] == Midpoint(hs[0], hs[1]) && hs[5] == Midpoint(hs[0], hs[2])
      && hs[6] == Midpoint(hs[2], hs[3]) && hs[7] == Midpoint(hs[1], hs[3])
      && (forall i :: 0 <= i < 8 ==> InBox(hs[i], ext))
  {
  }
}
