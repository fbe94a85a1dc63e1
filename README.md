# Pinta rectangle-selection tool: geometry and gestures

This project models the core of Pinta's `SelectTool`: the logic that turns pointer
gestures into a rectangular selection. It covers:

- the shape extent (`shape_origin`, `shape_end`);
- the eight handles that `RefreshHandler` derives from the extent;
- the eight handle-drag rules that `CreateHandler` installs;
- the Shift "make it square" step of `ReDraw`;
- the gesture flags (`is_drawing`, `isResizing`, `handler_active`, `is_hand_cursor`) and the outstanding history snapshot `hist`, driven by the mouse handlers, `OnDeactivated`/`OnCommit` and `AfterUndo`/`AfterRedo`.

Coordinates are `real`.

- `extents.dfy` (module `Extents`): points and extents, the clamp used while drawing,
  `Constrain` (the Shift step of `ReDraw`) and `HandlePositions` (what `RefreshHandler`
  stores), with their lemmas.
- `handle_drag.dfy` (module `HandleDrag`): `DragStep`, the extent each handle closure
  leaves behind, and lemmas about corner and edge drags.
- `select_tool.dfy` (module `Tool`): class `SelectTool`. Its fields mirror the tool's
  fields. Its methods change them step by step, as the source does, and are proved
  against the functions above. `Valid()` is the tool's invariant:
  - a snapshot is outstanding exactly while a gesture (drawing or resizing) is;
  - every snapshot taken is disposed, leaked or still outstanding.

  The ghost counters `pushed`, `taken`, `disposed`, `leaked` and `cursorSets` record
  history pushes, snapshot lifetime and cursor changes. `DrawSquareScenario`,
  `ResizeScenario` and `ClickScenario` check a Shift draw, a corner-handle resize and a
  click-to-deselect against the contracts.

Quirks of the code that the model keeps and proves:

- The four edge handles with Shift compute the second coordinate of the other axis from
  the first one's new value. The closure alone has signed height equal to width, and keeps its centre, only when
  the old length of that axis already equals the new length of the dragged axis.
  `HorizontalEdgeShiftGeometry` and `VerticalEdgeShiftGeometry` give the exact resulting
  length and centre shift. Only the `ReDraw` that follows makes the shape square.
- The press guard tests only `is_drawing`. A press during a resize overwrites `hist`
  without disposing it; `leaked` counts these.
- `hist.Dispose()` at mouse-up has no null check. `OnMouseUp` returns `faulted` for
  that null dereference and keeps the state as it was at the throw. Under `Valid()`
  it faults exactly when no gesture is outstanding.
- The end point is clamped into the image before `ReDraw`. The Shift step can then move
  it outside the image (`ConstrainMayLeaveImage`). Handle drags are never clamped.
- A press during a resize that hits no handle starts drawing while `isResizing` stays
  set.

Behaviour of the code worth noting:

- Edge handles with Shift do not keep the centre fixed.
- Corner handles with Shift keep the opposite corner fixed. One coordinate of the dragged
  corner moves to make the shape square.
- `OnDeactivated`/`OnCommit` only clear `handler_active`. They leave any gesture and its
  snapshot in place.
- A second press can leak a snapshot.

## Model

| member | source | states |
|---|---|---|
| `Extents.Clamp` | Pinta.Tools/Tools/SelectTool.cs:91-92 | a clamped coordinate lies in [lo, hi] when lo <= hi, and a coordinate already in range is unchanged |
| `Extents.ClampToImage` | Pinta.Tools/Tools/SelectTool.cs:173-176 | a point clamped to the image lies in [0, W-1] x [0, H-1] for a non-empty image, and a point inside is left alone |
| `Extents.Constrain` | Pinta.Tools/Tools/SelectTool.cs:206-220 | with Shift: \|width\| = \|height\| = the larger of the old ones; only the shorter axis of the end point moves; the origin never moves; each side keeps its sign (non-negative stays non-negative). Without Shift: no change |
| `Extents.ConstrainFixesSquare` | Pinta.Tools/Tools/SelectTool.cs:206-220 | an extent that is already square is left unchanged by the Shift step |
| `Extents.ConstrainIdempotent` | Pinta.Tools/Tools/SelectTool.cs:206-220 | applying the Shift step twice gives the same result as applying it once |
| `Extents.ConstrainMayLeaveImage` | Pinta.Tools/Tools/SelectTool.cs:173-178 | an end point clamped into a 100 x 50 image is pushed outside it by the Shift step that ReDraw applies next |
| `Extents.HandlePositions` | Pinta.Tools/Tools/SelectTool.cs:188-198 | there are exactly eight handle positions, computed from the extent alone |
| `Extents.HandlesAreCornersAndMidpoints` | Pinta.Tools/Tools/SelectTool.cs:188-198 | handles 0-3 are the corners (ox,oy), (ox,ey), (ex,oy), (ex,ey); handles 4-7 are the midpoints of the left, top, right and bottom edges; every handle lies in the shape's rectangle |
| `HandleDrag.DragStep` | Pinta.Tools/Tools/SelectTool.cs:232-311 | the extent each handle closure leaves before its ReDraw; an edge drag never moves the opposite edge |
| `HandleDrag.DragAndReDraw` | Pinta.Tools/Tools/SelectTool.cs:230-312 | any handle drag with Shift, followed by its ReDraw, ends square; without Shift ReDraw changes nothing |
| `HandleDrag.CornerDragKeepsOpposite` | Pinta.Tools/Tools/SelectTool.cs:232-275 | a corner drag, with or without Shift, never moves the diagonally opposite corner |
| `HandleDrag.CornerDragFollowsPointer` | Pinta.Tools/Tools/SelectTool.cs:232-275 | without Shift the dragged corner lands exactly on the pointer (unclamped) |
| `HandleDrag.CornerShiftIsSquare` | Pinta.Tools/Tools/SelectTool.cs:232-275 | with Shift a corner drag leaves signed width = signed height with one coordinate of the corner on the pointer, so the following ReDraw changes nothing |
| `HandleDrag.EdgeDragMovesOneEdge` | Pinta.Tools/Tools/SelectTool.cs:276-311 | without Shift, edge handles 4-7 move only their own edge (ox, oy, ex or ey) to the pointer |
| `HandleDrag.HorizontalEdgeShiftGeometry` | Pinta.Tools/Tools/SelectTool.cs:276-302 | with Shift, handles 4 and 6 leave width d, height (h + 3d)/4 and a vertical centre moved by (h - d)/8; the closure's signed height equals its width iff h = d, and its centre is fixed iff h = d |
| `HandleDrag.VerticalEdgeShiftGeometry` | Pinta.Tools/Tools/SelectTool.cs:285-311 | the same for handles 5 and 7 with the axes swapped |
| `HandleDrag.EdgeShiftNeedsReDraw` | Pinta.Tools/Tools/SelectTool.cs:276-284 | dragging the left edge of a 10 x 10 square to x = -10 with Shift gives a 20 x 17.5 closure result with a moved centre; ReDraw then makes it 20 x 20 |
| `Tool.SelectTool.constructor` | Pinta.Tools/Tools/SelectTool.cs:38-54 | a new tool has eight handle slots, no snapshot, no gesture, inactive handles and the default cursor |
| `Tool.SelectTool.RefreshHandler` | Pinta.Tools/Tools/SelectTool.cs:188-198 | overwrites all eight slots of `controls` with the positions derived from the current extent |
| `Tool.SelectTool.ReDraw` | Pinta.Tools/Tools/SelectTool.cs:200-228 | the extent becomes its Shift-constrained form (origin fixed) and the handles are refreshed from it |
| `Tool.SelectTool.DragHandle` | Pinta.Tools/Tools/SelectTool.cs:230-312 | running handle h's closure leaves the extent given by that drag rule followed by ReDraw, with the handles refreshed |
| `Tool.SelectTool.DragCorner` | Pinta.Tools/Tools/SelectTool.cs:232-275 | the field-by-field writes of corner closures 0-3 produce the corner drag rule |
| `Tool.SelectTool.DragEdge` | Pinta.Tools/Tools/SelectTool.cs:276-311 | the field-by-field writes of edge closures 4-7, each reading its own earlier write, produce the edge drag rule |
| `Tool.SelectTool.HandleResize` | Pinta.Tools/Tools/SelectTool.cs:314-323 | reports a hit iff some handle accepts the point; the handle reported is the first in index order that accepts (corners before edges) |
| `Tool.SelectTool.CheckHandlerCursor` | Pinta.Tools/Tools/SelectTool.cs:333-349 | afterwards the hand-cursor flag is exactly "some handle contains the point"; the cursor is set once when the flag changes and not at all otherwise |
| `Tool.SelectTool.TakeSnapshot` | Pinta.Tools/Tools/SelectTool.cs:76-80 | the snapshot holds the current selection and extent; a snapshot still outstanding is dropped undisposed and counted as leaked |
| `Tool.SelectTool.StartShape` | Pinta.Tools/Tools/SelectTool.cs:86-96 | the drawing branch of a press: combine mode set, selection kept as the previous one and cleared, origin = the press point clamped to the image, drawing on |
| `Tool.SelectTool.OnMouseDown` | Pinta.Tools/Tools/SelectTool.cs:68-102 | ignored while drawing; otherwise it always takes a snapshot. It starts drawing when handles are inactive (not consulted) or none accepts: origin clamped into the image, polygons cleared, combine mode set. Otherwise it starts a resize and leaves the extent alone. Keeps `Valid()` |
| `Tool.SelectTool.OnMouseMove` | Pinta.Tools/Tools/SelectTool.cs:158-186 | while drawing: end = pointer clamped to the image, then Shift-constrained, handles refreshed. Otherwise only the hover cursor changes. The selection is recombined from the current shape during a gesture; flags and snapshot are unchanged |
| `Tool.SelectTool.OnMouseUp` | Pinta.Tools/Tools/SelectTool.cs:104-136 | no displacement: selection cleared, snapshot disposed with no push, handles inactive. Any displacement: ReDraw, recombine, exactly one push of the press snapshot, handles active. Both leave no snapshot, no drawing, no resizing. Faults iff there is no snapshot |
| `Tool.SelectTool.OnDeactivated` | Pinta.Tools/Tools/SelectTool.cs:138-146 | the handles become inactive |
| `Tool.SelectTool.OnCommit` | Pinta.Tools/Tools/SelectTool.cs:148-156 | the handles become inactive |
| `Tool.SelectTool.AfterUndo` | Pinta.Tools/Tools/SelectTool.cs:353-363 | the extent becomes the one the history restored, and the handles are refreshed from it |
| `Tool.SelectTool.AfterRedo` | Pinta.Tools/Tools/SelectTool.cs:365-375 | the extent becomes the one the history restored, and the handles are refreshed from it |

## Left out

- Rendering is not modelled. This covers `DrawShape`, `DrawHandler`, `ToolControl.Render`, the tool layer and selection layer surfaces, `ShowSelection`, `last_dirty`, `Utility.PointsToRectangle` and `Invalidate`: they only draw. `ReDraw` is modelled as its Shift step plus the handle refresh.
- Pinta.Tools/Tools/RectangleTool.cs is not part of this model. Its `DrawShape` only dispatches onto Cairo drawing primitives and the dash-pattern generator, neither of which is available. The rest of that file is toolbar wiring.
- Selection-polygon combination (`DetermineCombineMode`, `PerformSelectionMode`, the Clipper library) is not part of this model. The polygon set is an opaque `Selection` value: `Cleared`, or `Combined` from the previous selection, the combine mode and the shape. The combine mode is an input of `OnMouseDown`.
- The contents of history items (`SelectionHistoryItem`, `PushNewItem`, `Dispose`) are not modelled. The model keeps an optional outstanding `Snapshot` of the selection and its extent, plus ghost counts of pushes, disposals and leaks. The document's `selOrigin`/`selEnd`, written at press, appear only inside the snapshot. `AfterUndo`/`AfterRedo` take the restored extent as parameters.
- The Deselect action activated at a click is external. Only its effect of clearing the selection is modelled; whatever history it records itself is not.
- `ToolControl.Handle` and `ToolControl.IsInside` are not part of this model. They are function parameters `(handle position, pointer) -> bool`. The drag dispatch that runs a handle's closure is not part of this model either: `DragHandle` is callable at any time with the handle index.
- The base class (`ShapeTool`) calls in `OnDeactivated`, `OnCommit`, `AfterUndo` and `AfterRedo` are not part of this model.
- `Utility.Clamp` is not part of this model. It is taken as the usual "below min gives min, above max gives max" clamp; the difference could only show on an empty image.
- `doc.Selection` is taken to be non-null (lines 120 and 181).
- GTK cursors, toolbar building, `PintaCore` singletons and the tool's icon, name and shortcut are not modelled. `SetCursor` is modelled only as the ghost count `cursorSets`.
- Floating point: `double` is modelled as `real`, so the model does not capture IEEE rounding (for example in `/ 2`).
- Coordinate spaces: the press and release points (window coordinates) and the document point are separate plain inputs. The mapping between the two spaces is not modelled.
