// The rectangle-selection tool as an object: the shape extent, the eight
// handle positions in `controls`, the gesture flags and the outstanding
// history snapshot, driven by the mouse handlers.

module Tool {
  import opened Extents
  import opened HandleDrag

  datatype Option<T> = None | Some(value: T)

  /** How a new shape is combined with the previous selection (chosen at press). */
  datatype CombineMode = Replace | Union | Exclude | Xor | Intersect

  /**
   * The document's selection polygons, kept opaque: either cleared, or the
   * previous selection combined with the path of a shape under a mode.
   */
  datatype Selection = Cleared | Combined(previous: Selection, mode: CombineMode, shape: Extent)

  /** What a SelectionHistoryItem captures at press: the selection and the extent recorded with it. */
  datatype Snapshot = Snapshot(selection: Selection, shape: Extent)

  class SelectTool {
    var origin: Point                 // shape_origin
    var end: Point                    // shape_end
    var resetOrigin: Point            // where the last press happened
    const controls: array<Point>      // positions of the eight ToolControls
    var hist: Option<Snapshot>        // the outstanding snapshot, null when None
    var isDrawing: bool
    var isResizing: bool
    var handlerActive: bool
    var isHandCursor: bool
    var combineMode: CombineMode
    var selection: Selection          // doc.Selection's polygons
    var previousSelection: Selection  // doc.PreviousSelection

    ghost var pushed: seq<Snapshot>   // history items pushed, oldest first
    ghost var taken: nat              // snapshots created
    ghost var disposed: nat           // snapshots disposed
    ghost var leaked: nat             // snapshots dropped without being disposed
    ghost var cursorSets: nat         // calls to SetCursor

    /**
     * The tool's invariant: eight handles; a snapshot is outstanding exactly
     * while a gesture (drawing or resizing) is; every snapshot created is
     * disposed, leaked or still outstanding; only disposed snapshots were pushed.
     */
    ghost predicate Valid()
      reads this
    {
      && controls.Length == 8
      && (hist.Some? <==> isDrawing || isResizing)
      && taken == disposed + leaked + (if hist.Some? then 1 else 0)
      && |pushed| <= disposed
    }

    function Shape(): Extent
      reads this
    {
      Extent(origin, end)
    }

    /** Some handle satisfies `hit` at pointer p (ToolControl.Handle or IsInside, not modelled). */
    ghost predicate Hits(hit: (Point, Point) -> bool, p: Point)
      reads controls
    {
      exists k :: 0 <= k < controls.Length && hit(controls[k], p)
    }

    constructor ()
      ensures Valid() && fresh(controls)
      ensures origin == end == Point(0.0, 0.0)
      ensures hist == None && !isDrawing && !isResizing && !handlerActive && !isHandCursor
      ensures selection == previousSelection == Cleared
      ensures pushed == [] && taken == 0 && leaked == 0
    {
      origin, end, resetOrigin := Point(0.0, 0.0), Point(0.0, 0.0), Point(0.0, 0.0);
      controls := new Point[8](_ => Point(0.0, 0.0));
      hist := None;
      isDrawing, isResizing, handlerActive, isHandCursor := false, false, false, false;
      combineMode := Replace;
      selection, previousSelection := Cleared, Cleared;
      pushed, taken, disposed, leaked, cursorSets := [], 0, 0, 0, 0;
    }

    /** RefreshHandler: rewrite all eight handle positions from the extent alone. */
    method RefreshHandler()
      requires controls.Length == 8
      modifies controls
      ensures controls[..] == HandlePositions(Shape())
    {
      controls[0] := Point(origin.x, origin.y);
      controls[1] := Point(origin.x, end.y);
      controls[2] := Point(end.x, origin.y);
      controls[3] := Point(end.x, end.y);
      controls[4] := Point(origin.x, (origin.y + end.y) / 2.0);
      controls[5] := Point((origin.x + end.x) / 2.0, origin.y);
      controls[6] := Point(end.x, (origin.y + end.y) / 2.0);
      controls[7] := Point((origin.x + end.x) / 2.0, end.y);
    }

    /** ReDraw: the Shift constraint on the end point, then the handle refresh. */
    method ReDraw(shift: bool)
      requires controls.Length == 8
      modifies this`end, controls
      ensures Shape() == Constrain(old(Shape()), shift)
      ensures controls[..] == HandlePositions(Shape())
    {
      if shift {
        var dx := Abs(end.x - origin.x);
        var dy := Abs(end.y - origin.y);
        if dx <= dy {
          if end.x >= origin.x {
            end := end.(x := origin.x + dy);
          } else {
            end := end.(x := origin.x - dy);
          }
        } else {
          if end.y >= origin.y {
            end := end.(y := origin.y + dx);
          } else {
            end := end.(y := origin.y - dx);
          }
        }
      }
      RefreshHandler();
    }

    /**
     * The closure CreateHandler installs on controls[h], run with pointer (x, y):
     * the closure's coordinate writes, then ReDraw.
     */
    method DragHandle(h: HandleIndex, x: real, y: real, shift: bool)
      requires controls.Length == 8
      modifies this`origin, this`end, controls
      ensures Shape() == DragAndReDraw(h, old(Shape()), x, y, shift)
      ensures controls[..] == HandlePositions(Shape())
    {
      if h < 4 {
        DragCorner(h, x, y, shift);
      } else {
        DragEdge(h, x, y, shift);
      }
      ReDraw(shift);
    }

    /** The coordinate writes of the corner closures 0..3, in their order. */
    method DragCorner(h: HandleIndex, x: real, y: real, shift: bool)
      requires h < 4
      modifies this`origin, this`end
      ensures Shape() == DragStep(h, old(Shape()), x, y, shift)
    {
      if h == 0 {
        origin := origin.(x := x);
        origin := origin.(y := y);
        if shift {
          if end.x - origin.x <= end.y - origin.y {
            origin := origin.(x := end.x - end.y + origin.y);
          } else {
            origin := origin.(y := end.y - end.x + origin.x);
          }
        }
      } else if h == 1 {
        origin := origin.(x := x);
        end := end.(y := y);
        if shift {
          if end.x - origin.x <= end.y - origin.y {
            origin := origin.(x := end.x - end.y + origin.y);
          } else {
            end := end.(y := origin.y + end.x - origin.x);
          }
        }
      } else if h == 2 {
        end := end.(x := x);
        origin := origin.(y := y);
        if shift {
          if end.x - origin.x <= end.y - origin.y {
            end := end.(x := origin.x + end.y - origin.y);
          } else {
            origin := origin.(y := end.y - end.x + origin.x);
          }
        }
      } else {
        end := end.(x := x);
        end := end.(y := y);
        if shift {
          if end.x - origin.x <= end.y - origin.y {
            end := end.(x := origin.x + end.y - origin.y);
          } else {
            end := end.(y := origin.y + end.x - origin.x);
          }
        }
      }
    }

    /**
     * The coordinate writes of the edge closures 4..7, in their order: with
     * Shift the second write of the other axis reads the first one's result.
     */
    method DragEdge(h: HandleIndex, x: real, y: real, shift: bool)
      requires h >= 4
      modifies this`origin, this`end
      ensures Shape() == DragStep(h, old(Shape()), x, y, shift)
    {
      if h == 4 {
        origin := origin.(x := x);
        if shift {
          var d := end.x - origin.x;
          origin := origin.(y := (origin.y + end.y - d) / 2.0);
          end := end.(y := (origin.y + end.y + d) / 2.0);
        }
      } else if h == 5 {
        origin := origin.(y := y);
        if shift {
          var d := end.y - origin.y;
          origin := origin.(x := (origin.x + end.x - d) / 2.0);
          end := end.(x := (origin.x + end.x + d) / 2.0);
        }
      } else if h == 6 {
        end := end.(x := x);
        if shift {
          var d := end.x - origin.x;
          origin := origin.(y := (origin.y + end.y - d) / 2.0);
          end := end.(y := (origin.y + end.y + d) / 2.0);
        }
      } else {
        end := end.(y := y);
        if shift {
          var d := end.y - origin.y;
          origin := origin.(x := (origin.x + end.x - d) / 2.0);
          end := end.(x := (origin.x + end.x + d) / 2.0);
        }
      }
    }

    /**
     * HandleResize: ask the handles in index order (corners first) whether they
     * take the press at p; the first that does wins. `index` is that handle,
     * or controls.Length when none does.
     */
    method HandleResize(p: Point, accepts: (Point, Point) -> bool) returns (found: bool, index: int)
      ensures found <==> exists k :: 0 <= k < controls.Length && accepts(controls[k], p)
      ensures found ==> 0 <= index < controls.Length && accepts(controls[index], p)
      ensures found ==> forall k :: 0 <= k < index ==> !accepts(controls[k], p)
      ensures !found ==> index == controls.Length
    {
      var i := 0;
      while i < controls.Length
        invariant 0 <= i <= controls.Length
        invariant forall k :: 0 <= k < i ==> !accepts(controls[k], p)
      {
        if accepts(controls[i], p) {
          return true, i;
        }
        i := i + 1;
      }
      return false, i;
    }

    /**
     * CheckHandlerCursor: the hand cursor is on exactly when some handle
     * contains p, and the cursor is set only when that changes.
     */
    method CheckHandlerCursor(p: Point, inside: (Point, Point) -> bool)
      modifies this`isHandCursor, this`cursorSets
      ensures isHandCursor == Hits(inside, p)
      ensures cursorSets == old(cursorSets) + (if isHandCursor == old(isHandCursor) then 0 else 1)
    {
      var i := 0;
      while i < controls.Length
        invariant 0 <= i <= controls.Length
        invariant forall k :: 0 <= k < i ==> !inside(controls[k], p)
      {
        if inside(controls[i], p) {
          if !isHandCursor {
            cursorSets := cursorSets + 1;
            isHandCursor := true;
          }
          return;
        }
        i := i + 1;
      }
      if isHandCursor {
        cursorSets := cursorSets + 1;
        isHandCursor := false;
      }
    }

    /**
     * A new SelectionHistoryItem takes a snapshot of the selection and its
     * extent and becomes `hist`; one still outstanding is dropped undisposed.
     */
    method TakeSnapshot()
      modifies this`hist, this`taken, this`leaked
      ensures hist == Some(Snapshot(selection, Shape()))
      ensures taken == old(taken) + 1
      ensures leaked == old(leaked) + (if old(hist).Some? then 1 else 0)
    {
      if hist.Some? {
        leaked := leaked + 1;
      }
      hist := Some(Snapshot(selection, Shape()));
      taken := taken + 1;
    }

    /**
     * The drawing branch of a press: the combine mode is fixed, the selection
     * is kept as the previous one and its polygons cleared, and a new shape
     * starts at p clamped to the image.
     */
    method StartShape(p: Point, mode: CombineMode, width: int, height: int)
      modifies this`combineMode, this`previousSelection, this`selection, this`origin, this`isDrawing
      ensures isDrawing && combineMode == mode
      ensures previousSelection == old(selection) && selection == Cleared
      ensures origin == ClampToImage(p, width, height)
    {
      combineMode := mode;
      previousSelection := selection;
      selection := Cleared;
      origin := ClampToImage(p, width, height);
      isDrawing := true;
    }

    /**
     * OnMouseDown at document point p (window point `press`). Ignored while
     * drawing. Otherwise a snapshot of the selection and extent is always taken,
     * overwriting (leaking) one left by a resize still in progress; the handles
     * are asked only when they are active. If none takes the press a new shape
     * starts at p clamped to the image and the selection polygons are cleared;
     * if one does, a resize starts and the extent is left alone.
     */
    method OnMouseDown(p: Point, press: Point, mode: CombineMode, width: int, height: int,
                       accepts: (Point, Point) -> bool)
      requires Valid()
      modifies this
      ensures Valid()
      ensures old(isDrawing) ==> unchanged(this)
      ensures !old(isDrawing) ==>
        && hist == Some(Snapshot(old(selection), old(Shape())))
        && taken == old(taken) + 1
        && leaked == old(leaked) + (if old(isResizing) then 1 else 0)
        && disposed == old(disposed) && pushed == old(pushed)
        && resetOrigin == press
        && handlerActive == old(handlerActive) && isHandCursor == old(isHandCursor)
        && end == old(end)
      ensures cursorSets == old(cursorSets)
      ensures !old(isDrawing) && !(old(handlerActive) && Hits(accepts, p)) ==>
        && isDrawing && isResizing == old(isResizing)
        && origin == ClampToImage(p, width, height)
        && (width >= 1 && height >= 1 ==> InImage(origin, width, height))
        && combineMode == mode
        && previousSelection == old(selection) && selection == Cleared
      ensures !old(isDrawing) && old(handlerActive) && Hits(accepts, p) ==>
        && isResizing && !isDrawing
        && origin == old(origin)
        && combineMode == old(combineMode)
        && previousSelection == old(previousSelection) && selection == old(selection)
    {
      if !isDrawing {
        TakeSnapshot();
        resetOrigin := press;

        var hit := false;
        if handlerActive {
          var index;
          hit, index := HandleResize(p, accepts);
        }
        if !hit {
          StartShape(p, mode, width, height);
        } else {
          isResizing := true;
        }
      }
    }

    /**
     * OnMouseMove at document point p. While drawing, the end point becomes p
     * clamped to the image, then ReDraw applies Shift. Otherwise only the
     * hover cursor is updated, and the extent is not touched (a resize moves it
     * through DragHandle). During either gesture the selection is recombined
     * from the previous selection and the current shape.
     */
    method OnMouseMove(p: Point, shift: bool, width: int, height: int,
                       inside: (Point, Point) -> bool)
      requires Valid()
      modifies this, controls
      ensures Valid()
      ensures hist == old(hist) && isDrawing == old(isDrawing) && isResizing == old(isResizing)
      ensures handlerActive == old(handlerActive) && combineMode == old(combineMode)
      ensures previousSelection == old(previousSelection) && resetOrigin == old(resetOrigin)
      ensures pushed == old(pushed) && taken == old(taken) && disposed == old(disposed) && leaked == old(leaked)
      ensures isDrawing ==>
        && Shape() == Constrain(Extent(old(origin), ClampToImage(p, width, height)), shift)
        && controls[..] == HandlePositions(Shape())
        && isHandCursor == old(isHandCursor) && cursorSets == old(cursorSets)
      ensures isDrawing && !shift && width >= 1 && height >= 1 ==> InImage(end, width, height)
      ensures !isDrawing ==>
        && Shape() == old(Shape()) && controls[..] == old(controls[..])
        && isHandCursor == Hits(inside, p)
        && cursorSets == old(cursorSets) + (if isHandCursor == old(isHandCursor) then 0 else 1)
      ensures isDrawing || isResizing ==> selection == Combined(previousSelection, combineMode, Shape())
      ensures !isDrawing && !isResizing ==> selection == old(selection)
    {
      if !isDrawing {
        CheckHandlerCursor(p, inside);
        if !isResizing {
          return;
        }
      } else {
        end := ClampToImage(p, width, height);
        ReDraw(shift);
      }
      selection := Combined(previousSelection, combineMode, Shape());
    }

    /**
     * OnMouseUp at window point `release`. No movement since the press: the
     * selection is deselected and the snapshot disposed without a push, and
     * the handles go inactive. Any movement: ReDraw, recombine, push the
     * snapshot once, dispose it, and the handles go active. Both leave no
     * snapshot and no gesture. `faulted` is the null dereference of the
     * snapshot when none is outstanding, with the state as it was at the throw.
     */
    method OnMouseUp(release: Point, shift: bool) returns (faulted: bool)
      requires Valid()
      modifies this, controls
      ensures Valid()
      ensures faulted <==> old(hist) == None
      ensures hist == None && !isDrawing && !isResizing
      ensures taken == old(taken) && leaked == old(leaked)
      ensures disposed == old(disposed) + (if faulted then 0 else 1)
      ensures isHandCursor == old(isHandCursor) && resetOrigin == old(resetOrigin)
      ensures cursorSets == old(cursorSets)
      ensures combineMode == old(combineMode) && previousSelection == old(previousSelection)
      ensures release == old(resetOrigin) ==>
        && selection == Cleared
        && Shape() == old(Shape()) && controls[..] == old(controls[..])
        && pushed == old(pushed)
        && handlerActive == (faulted && old(handlerActive))
      ensures release != old(resetOrigin) ==>
        && Shape() == Constrain(old(Shape()), shift)
        && controls[..] == HandlePositions(Shape())
        && selection == Combined(previousSelection, combineMode, Shape())
        && pushed == old(pushed) + (if faulted then [] else [old(hist).value])
        && handlerActive
    {
      if Abs(resetOrigin.x - release.x) <= 0.0 && Abs(resetOrigin.y - release.y) <= 0.0 {
        selection := Cleared;
        if hist == None {
          return true;
        }
        disposed := disposed + 1;
        hist := None;
        handlerActive := false;
      } else {
        ReDraw(shift);
        selection := Combined(previousSelection, combineMode, Shape());
        if hist != None {
          pushed := pushed + [hist.value];
        }
        handlerActive := true;
        if hist == None {
          return true;
        }
        disposed := disposed + 1;
        hist := None;
      }
      isDrawing := false;
      isResizing := false;
      return false;
    }

    /** OnDeactivated: the handles go inactive; the gesture and snapshot are left as they are. */
    method OnDeactivated()
      modifies this`handlerActive
      ensures !handlerActive
    {
      handlerActive := false;
    }

    /** OnCommit: the same as OnDeactivated. */
    method OnCommit()
      modifies this`handlerActive
      ensures !handlerActive
    {
      handlerActive := false;
    }

    /** AfterUndo: adopt the extent the history restored and refresh the handles. */
    method AfterUndo(restoredOrigin: Point, restoredEnd: Point)
      requires controls.Length == 8
      modifies this`origin, this`end, controls
      ensures Shape() == Extent(restoredOrigin, restoredEnd)
      ensures controls[..] == HandlePositions(Shape())
    {
      origin := restoredOrigin;
      end := restoredEnd;
      RefreshHandler();
    }

    /** AfterRedo: the same as AfterUndo. */
    method AfterRedo(restoredOrigin: Point, restoredEnd: Point)
      requires controls.Length == 8
      modifies this`origin, this`end, controls
      ensures Shape() == Extent(restoredOrigin, restoredEnd)
      ensures controls[..] == HandlePositions(Shape())
    {
      origin := restoredOrigin;
      end := restoredEnd;
      RefreshHandler();
    }
  }
  /**
   * A press at (10,10), a Shift drag to (50,30) and a release there, on a fresh
   * tool over a 100 x 100 image: the shape becomes the square (10,10)-(50,50)
   * and one history item is pushed.
   */
  method DrawSquareScenario()
  {
    var never := (c: Point, q: Point) => false;
    var t := new SelectTool();
    t.OnMouseDown(Point(10.0, 10.0), Point(10.0, 10.0), Replace, 100, 100, never);
    assert t.isDrawing && t.origin == Point(10.0, 10.0);
    t.OnMouseMove(Point(50.0, 30.0), true, 100, 100, never);
    assert t.end == Point(50.0, 50.0);
    var faulted := t.OnMouseUp(Point(50.0, 30.0), true);
    assert !faulted && t.handlerActive && |t.pushed| == 1;
    assert t.Shape() == Extent(Point(10.0, 10.0), Point(50.0, 50.0));
  }

  /**
   * After drawing (10,10)-(50,50), a press on corner handle 3 starts a resize;
   * dragging it to (70,60) and releasing pushes one more item, holding the
   * extent from before the resize.
   */
  method ResizeScenario()
  {
    var never := (c: Point, q: Point) => false;
    var onHandle := (c: Point, q: Point) => c == q;
    var t := new SelectTool();
    t.OnMouseDown(Point(10.0, 10.0), Point(10.0, 10.0), Replace, 100, 100, never);
    t.OnMouseMove(Point(50.0, 50.0), false, 100, 100, never);
    var faulted := t.OnMouseUp(Point(50.0, 50.0), false);
    assert t.controls[3] == Point(50.0, 50.0) && t.handlerActive && |t.pushed| == 1;

    t.OnMouseDown(Point(50.0, 50.0), Point(50.0, 50.0), Union, 100, 100, onHandle);
    assert t.isResizing && !t.isDrawing;
    t.DragHandle(3, 70.0, 60.0, false);
    t.OnMouseMove(Point(70.0, 60.0), false, 100, 100, never);
    faulted := t.OnMouseUp(Point(70.0, 60.0), false);
    assert !faulted && |t.pushed| == 2;
    assert t.pushed[1].shape == Extent(Point(10.0, 10.0), Point(50.0, 50.0));
    assert t.Shape() == Extent(Point(10.0, 10.0), Point(70.0, 60.0));
  }

  /** A press and release at the same point deselects and pushes nothing. */
  method ClickScenario()
  {
    var never := (c: Point, q: Point) => false;
    var t := new SelectTool();
    t.OnMouseDown(Point(90.0, 90.0), Point(90.0, 90.0), Replace, 100, 100, never);
    assert t.isDrawing;
    var faulted := t.OnMouseUp(Point(90.0, 90.0), false);
    assert !faulted && t.selection == Cleared && !t.handlerActive && t.pushed == [];
    assert t.leaked == 0 && t.hist == None;
  }
}
