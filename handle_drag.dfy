// The eight handle-drag rules that CreateHandler installs on `controls`.
// Each rule is written here as the extent it leaves behind, before the
// trailing ReDraw; the class in select_tool.dfy performs the same updates
// field by field and is proved against DragStep.

module HandleDrag {
  import opened Extents

  /** Index into `controls`: 0..3 corners, 4..7 left, top, right, bottom edges. */
  type HandleIndex = i: int | 0 <= i < 8

  /** Handle i's position on the extent (the slot RefreshHandler writes). */
  function Handle(ext: Extent, i: HandleIndex): Point {
    HandlePositions(ext)[i]
  }

  /** The four edge coordinates left, top, right, bottom, which handles 4..7 own. */
  function Edges(ext: Extent): seq<real> {
    [ext.origin.x, ext.origin.y, ext.end.x, ext.end.y]
  }

  function CentreX(ext: Extent): real { (ext.origin.x + ext.end.x) / 2.0 }
  function CentreY(ext: Extent): real { (ext.origin.y + ext.end.y) / 2.0 }

  /**
   * The extent after the closure of handle h runs with pointer (x, y).
   * Corner closures write the two coordinates of their corner and, with Shift,
   * pull one of them back so that the signed width equals the signed height.
   * Edge closures write one coordinate and, with Shift, recompute the two
   * coordinates of the other axis from d, the new length of the dragged axis;
   * the second of those reads the first one's new value.
   */
  function DragStep(h: HandleIndex, ext: Extent, x: real, y: real, shift: bool): (r: Extent)
    // an edge drag, with or without Shift, never moves the opposite edge
    ensures h >= 4 ==> Edges(r)[(h - 2) % 4] == Edges(ext)[(h - 2) % 4]
  {
    var o, e := ext.origin, ext.end;
    if h == 0 then
      if !shift then Extent(Point(x, y), e)
      else if e.x - x <= e.y - y then Extent(Point(e.x - e.y + y, y), e)
      else Extent(Point(x, e.y - e.x + x), e)
    else if h == 1 then
      if !shift then Extent(Point(x, o.y), Point(e.x, y))
      else if e.x - x <= y - o.y then Extent(Point(e.x - y + o.y, o.y), Point(e.x, y))
      else Extent(Point(x, o.y), Point(e.x, o.y + e.x - x))
    else if h == 2 then
      if !shift then Extent(Point(o.x, y), Point(x, e.y))
      else if x - o.x <= e.y - y then Extent(Point(o.x, y), Point(o.x + e.y - y, e.y))
      else Extent(Point(o.x, e.y - x + o.x), Point(x, e.y))
    else if h == 3 then
      if !shift then Extent(o, Point(x, y))
      else if x - o.x <= y - o.y then Extent(o, Point(o.x + y - o.y, y))
      else Extent(o, Point(x, o.y + x - o.x))
    else if h == 4 then
      if !shift then Extent(Point(x, o.y), e)
      else
        var d := e.x - x;
        var oy := (o.y + e.y - d) / 2.0;
        Extent(Point(x, oy), Point(e.x, (oy + e.y + d) / 2.0))
    else if h == 5 then
      if !shift then Extent(Point(o.x, y), e)
      else
        var d := e.y - y;
        var ox := (o.x + e.x - d) / 2.0;
        Extent(Point(ox, y), Point((ox + e.x + d) / 2.0, e.y))
    else if h == 6 then
      if !shift then Extent(o, Point(x, e.y))
      else
        var d := x - o.x;
        var oy := (o.y + e.y - d) / 2.0;
        Extent(Point(o.x, oy), Point(x, (oy + e.y + d) / 2.0))
    else
      if !shift then Extent(o, Point(e.x, y))
      else
        var d := y - o.y;
        var ox := (o.x + e.x - d) / 2.0;
        Extent(Point(ox, o.y), Point((ox + e.x + d) / 2.0, y))
  }

  /** The extent a whole handle drag leaves: the closure, then ReDraw's constraint. */
  function DragAndReDraw(h: HandleIndex, ext: Extent, x: real, y: real, shift: bool): (r: Extent)
    ensures shift ==> IsSquare(r)
    ensures !shift ==> r == DragStep(h, ext, x, y, shift)
  {
    Constrain(DragStep(h, ext, x, y, shift), shift)
  }

  /** A corner drag never moves the diagonally opposite corner, with or without Shift. */
  lemma CornerDragKeepsOpposite(h: HandleIndex, ext: Extent, x: real, y: real, shift: bool)
    requires h < 4
    ensures Handle(DragStep(h, ext, x, y, shift), 3 - h) == Handle(ext, 3 - h)
  {
  }

  /** Without Shift the dragged corner lands on the pointer. */
  lemma CornerDragFollowsPointer(h: HandleIndex, ext: Extent, x: real, y: real)
    requires h < 4
    ensures Handle(DragStep(h, ext, x, y, false), h) == Point(x, y)
  {
  }

  /**
   * With Shift a corner drag leaves signed width equal to signed height, and at
   * least one coordinate of the dragged corner on the pointer; the ReDraw that
   * follows therefore changes nothing.
   */
  lemma CornerShiftIsSquare(h: HandleIndex, ext: Extent, x: real, y: real)
    requires h < 4
    ensures var r := DragStep(h, ext, x, y, true);
      && Width(r) == Height(r)
      && (Handle(r, h).x == x || Handle(r, h).y == y)
      && Constrain(r, true) == r
  {
  }

  /** Without Shift an edge drag moves its own edge to the pointer and no other edge. */
  lemma EdgeDragMovesOneEdge(h: HandleIndex, ext: Extent, x: real, y: real)
    requires h >= 4
    ensures Edges(DragStep(h, ext, x, y, false)) == Edges(ext)[h - 4 := if h % 2 == 0 then x else y]
  {
  }

  /**
   * With Shift, dragging the left or right edge (4, 6) to a width d leaves the
   * height at (h + 3d) / 4 and moves the vertical centre by (h - d) / 8, where h
   * is the height before the drag: because the bottom is computed from the new
   * top, the closure's signed height equals its width, and its centre stays
   * put, each only when h == d already.
   */
  lemma HorizontalEdgeShiftGeometry(h: HandleIndex, ext: Extent, x: real, y: real)
    requires h == 4 || h == 6
    ensures var r := DragStep(h, ext, x, y, true);
      && Width(r) == (if h == 4 then ext.end.x - x else x - ext.origin.x)
      && Edges(r)[h - 4] == x && Edges(r)[6 - h] == Edges(ext)[6 - h]
      && Height(r) == (Height(ext) + 3.0 * Width(r)) / 4.0
      && CentreY(r) - CentreY(ext) == (Height(ext) - Width(r)) / 8.0
      && (Height(r) == Width(r) <==> Height(ext) == Width(r))
      && (CentreY(r) == CentreY(ext) <==> Height(ext) == Width(r))
  {
  }

  /** The same for the top and bottom edges (5, 7), with the axes swapped. */
  lemma VerticalEdgeShiftGeometry(h: HandleIndex, ext: Extent, x: real, y: real)
    requires h == 5 || h == 7
    ensures var r := DragStep(h, ext, x, y, true);
      && Height(r) == (if h == 5 then ext.end.y - y else y - ext.origin.y)
      && Edges(r)[h - 4] == y && Edges(r)[8 - h] == Edges(ext)[8 - h]
      && Width(r) == (Width(ext) + 3.0 * Height(r)) / 4.0
      && CentreX(r) - CentreX(ext) == (Width(ext) - Height(r)) / 8.0
      && (Width(r) == Height(r) <==> Width(ext) == Height(r))
      && (CentreX(r) == CentreX(ext) <==> Width(ext) == Height(r))
  {
  }

  /**
   * A concrete drag: the 10 x 10 square at the origin, left edge dragged to
   * x = -10 with Shift. The closure leaves a 20 x 17.5 rectangle whose vertical
   * centre has moved from 5 to 3.75; only ReDraw squares it, to 20 x 20.
   */
  lemma EdgeShiftNeedsReDraw()
    ensures var ext := Extent(Point(0.0, 0.0), Point(10.0, 10.0));
      var r := DragStep(4, ext, -10.0, 0.0, true);
      && !IsSquare(r) && CentreY(r) != CentreY(ext)
      && DragAndReDraw(4, ext, -10.0, 0.0, true) == Extent(Point(-10.0, -5.0), Point(10.0, 15.0))
  {
  }
}
