// The pixel editor's interaction state machine: mouse down, move, up and out
// over the current tool, in edit or view mode, plus the mode switch and the
// tool buttons.
//
// Each handler is specified by a function from the state before the event to
// the state after it; the handler methods perform the source's steps on the
// store and are proved to reach that state. The mouse position arrives as a
// parameter (the source reads it from the DOM event); status text, cursors,
// redraws and the information alert are not modelled.

module EventHandlers {
  import opened Wrappers
  import opened Geometry
  import opened Config
  import opened State
  import opened Actions

  /** Both coordinates snapped to the editor grid. */
  function SnapPoint(p: Point): Point
  {
    Point(SnapToGrid(p.x, GRID_SIZE_PIXELS), SnapToGrid(p.y, GRID_SIZE_PIXELS))
  }

  /** The selected element, looked up by id; `None` once it has left the list. */
  function Selected(st: EditorState): (r: Option<Element>)
    ensures r.Some? ==> r.value in st.elements && Some(r.value.id) == st.selectedId
  {
    if st.selectedId.None? then None else Find(st.elements, WithId(st.selectedId.value))
  }

  /** Some door's opening lies within `tolerance` of `p`. */
  predicate NearSomeDoor(sqrt: real -> real, es: seq<Element>, p: Point, tolerance: real)
  {
    exists i :: 0 <= i < |es| && es[i].WallChild? && es[i].kind == Door && NearDoor(sqrt, es, es[i], p, tolerance)
  }

  /**
   * The grab offset of a newly selected element: from its first point, its
   * corner or its wall start to the pointer; a door or window stores the
   * pointer itself. An element without points keeps the previous offset.
   */
  function MoveOffset(t: Element, pos: Point, prev: Point): Point
  {
    match t
    case Polygon(_, _, pts) => if |pts| > 0 then Point(pos.x - pts[0].x, pos.y - pts[0].y) else prev
    case Route(_, pts) => if |pts| > 0 then Point(pos.x - pts[0].x, pos.y - pts[0].y) else prev
    case WallChild(_, _, _, _, _, _) => pos
    case Rect(_, x, y, _, _) => Point(pos.x - x, pos.y - y)
    case Wall(_, x1, y1, _, _, _) => Point(pos.x - x1, pos.y - y1)
  }

  function ChildKindOf(m: Mode): ChildKind
  {
    if m.WindowMode? then Window else Door
  }

  // ------------------------------------------------------------ mode and tool

  /** `handleModeChange`: entering edit mode selects the select tool, view mode has none. */
  function ModeChange(st: EditorState, edit: bool): EditorState
  {
    ResetInteraction(st.(isEditMode := edit, routeBuildPoints := [], selectedId := None))
      .(currentMode := if edit then SelectMode else NoMode)
  }

  /** `handleToolButtonClick`: ignored in view mode. */
  function ToolButtonClick(st: EditorState, newMode: Mode): EditorState
  {
    if !st.isEditMode then st
    else
      var points := if |st.routeBuildPoints| > 0 && !newMode.RouteMode? then [] else st.routeBuildPoints;
      ResetInteraction(st.(routeBuildPoints := points, currentMode := newMode, selectedId := None))
  }

  // ---------------------------------------------------------------- mouse down

  /** A route-tool click at the snapped point `p`. */
  function RouteClick(sqrt: real -> real, st: EditorState, p: Point): EditorState
  {
    if |st.routeBuildPoints| == 0 then
      st.(routeBuildPoints := [p], isDrawing := true, start := p)
    else if NearSomeDoor(sqrt, st.elements, p, DoorEndSnapTolerance) then
      var points := st.routeBuildPoints + [p];
      Appended(st, NewRoute(st.nextElementId, points)).(routeBuildPoints := [], isDrawing := false)
    else
      st.(routeBuildPoints := st.routeBuildPoints + [p])
  }

  /** A select-tool press: grab a handle of the selection, else select and start moving what is hit. */
  function SelectDown(sqrt: real -> real, st: EditorState, pos: Point): EditorState
  {
    var handle := if st.selectedId.Some? then FindHandleAtSpec(sqrt, st.elements, pos, Selected(st)) else None;
    SelectDownAt(st, pos, handle, FindElementAtSpec(sqrt, st.elements, pos))
  }

  /** The select-tool press, given the handle under the pointer and the element hit. */
  function SelectDownAt(st: EditorState, pos: Point, handle: Option<Handle>, target: Option<Element>): EditorState
  {
    if handle.Some? then
      st.(draggingHandle := handle, isDrawing := true, start := pos)
    else
      match target
      case Some(t) =>
        st.(selectedId := Some(t.id), isDrawing := true, isMoving := true, start := pos,
            moveOffset := MoveOffset(t, pos, st.moveOffset))
      case None => st.(selectedId := None)
  }

  /** A door- or window-tool press: start drawing on the nearest wall within the placement tolerance. */
  function WallChildDown(sqrt: real -> real, st: EditorState, pos: Point): EditorState
  {
    match FindWallNearPointSpec(sqrt, st.elements, pos, WallPlacementTolerance)
    case None => st
    case Some(h) =>
      var w := h.wall;
      var proj := ProjectPointOntoLineSegment(sqrt, pos, WallStart(w), WallEnd(w));
      if proj.onSegment then
        var startDist := Distance(sqrt, WallStart(w), Point(proj.x, proj.y));
        st.(isDrawing := true, drawingOnWallTarget := Some(WallTarget(w, startDist)),
            start := Point(proj.x, proj.y),
            currentWallDrawPos := Some(WallDrawPos(w, startDist, startDist, 0.0)))
      else st
  }

  /** `handleMouseDown`. */
  function MouseDown(sqrt: real -> real, st: EditorState, pos: Point): EditorState
  {
    if !st.isEditMode then st
    else
      var st1 := st.(mouse := Some(pos));
      if st.currentMode.DeleteMode? then
        match FindElementAtSpec(sqrt, st.elements, pos)
        case None => st1
        case Some(t) => Deleted(st1, t)
      else if st.currentMode.RouteMode? then
        RouteClick(sqrt, st1, SnapPoint(pos))
      else
        var st2 := ResetInteraction(st1).(mouse := Some(pos));
        if st.currentMode.SelectMode? then SelectDown(sqrt, st2, pos)
        else if st.currentMode.DoorMode? || st.currentMode.WindowMode? then WallChildDown(sqrt, st2, pos)
        else st2.(isDrawing := true, start := if st.currentMode.WallMode? then SnapPoint(pos) else pos)
  }

  /** The element whose information view mode shows for a click (`loadInformation`'s argument). */
  function InfoTarget(sqrt: real -> real, st: EditorState, pos: Point): Option<int>
  {
    if st.isEditMode then None
    else match FindElementAtSpec(sqrt, st.elements, pos)
         case None => None
         case Some(t) => Some(t.id)
  }

  // ---------------------------------------------------------------- mouse move

  /** The preview of a door or window dragged along its wall up to `pos`. */
  function DrawPos(sqrt: real -> real, t: WallTarget, pos: Point): WallDrawPos
    requires t.wall.Wall?
  {
    var currentDist := Max(0.0, Min(WallLength(sqrt, t.wall), ProjectedDistance(sqrt, t.wall, pos)));
    WallDrawPos(t.wall, t.startDist, currentDist, Abs(currentDist - t.startDist))
  }

  /** `handleMouseMove`. */
  function MouseMove(sqrt: real -> real, st: EditorState, pos: Point): EditorState
  {
    if !st.isEditMode then st
    else
      var st1 := st.(mouse := Some(pos));
      if st.currentMode.RouteMode? && st.isDrawing && |st.routeBuildPoints| > 0 then st1
      else if !st.isDrawing then st1
      else Dragged(sqrt, st1, pos)
  }

  /** A drag in progress: move or resize the selection, or stretch the opening being drawn. */
  function Dragged(sqrt: real -> real, st: EditorState, pos: Point): EditorState
  {
    if st.isMoving && st.selectedId.Some? then
      match Selected(st)
      case None => st
      case Some(e) => st.(elements := ReplaceById(st.elements, e.id, MovedElement(sqrt, st.elements, e, pos, st.moveOffset)))
    else if st.draggingHandle.Some? && st.selectedId.Some? then
      match Selected(st)
      case None => st
      case Some(e) =>
        st.(elements := ReplaceById(st.elements, e.id,
                                    ResizedElement(sqrt, st.elements, e, st.draggingHandle.value.id, pos)))
    else if st.drawingOnWallTarget.Some? && st.drawingOnWallTarget.value.wall.Wall? then
      st.(currentWallDrawPos := Some(DrawPos(sqrt, st.drawingOnWallTarget.value, pos)))
    else st
  }

  // ------------------------------------------------------------------ mouse up

  /** What a finished drag commits, before the interaction flags are cleared. */
  function Committed(sqrt: real -> real, st: EditorState, pos: Point): EditorState
  {
    if st.isMoving && st.selectedId.Some? then st
    else if st.draggingHandle.Some? && st.selectedId.Some? then st
    else if st.drawingOnWallTarget.Some? && st.currentWallDrawPos.Some? then OpeningCommitted(st)
    else if st.isDrawing && IsShapeMode(st.currentMode) then ShapeCommitted(sqrt, st, pos)
    else st
  }

  /**
   * Committing a door or window drawn on the target wall: it spans the two
   * distances in order, and is created only when long enough and clear of
   * the wall's other openings.
   */
  function OpeningCommitted(st: EditorState): EditorState
    requires st.drawingOnWallTarget.Some? && st.currentWallDrawPos.Some?
  {
    var t := st.drawingOnWallTarget.value;
    var endDist := st.currentWallDrawPos.value.endDist;
    var finalStart := Min(t.startDist, endDist);
    var finalEnd := Max(t.startDist, endDist);
    var newLength := finalEnd - finalStart;
    if newLength >= MinDoorWindowLength && !Overlaps(st.elements, t.wall.id, None, finalStart, newLength) then
      Appended(st, NewWallChild(st.nextElementId, ChildKindOf(st.currentMode), t.wall, finalStart, newLength,
                                endDist >= t.startDist))
    else st
  }

  /** Committing a wall, machine, closet or gear drawn from the start point to `pos`. */
  function ShapeCommitted(sqrt: real -> real, st: EditorState, pos: Point): EditorState
  {
    if Distance(sqrt, st.start, pos) < MinElementSize then st
    else if st.currentMode.WallMode? then
      var end := SnapPoint(pos);
      if st.start != end then Appended(st, NewWall(st.nextElementId, st.start, end)) else st
    else if st.currentMode.MachineMode? then Appended(st, NewPolygon(st.nextElementId, Machine, st.start, pos))
    else if st.currentMode.ClosetMode? then Appended(st, NewPolygon(st.nextElementId, Closet, st.start, pos))
    else if st.currentMode.GearMode? then Appended(st, NewRect(st.nextElementId, st.start, pos))
    else st
  }

  /** `handleMouseUp`: nothing in view mode or with the route and delete tools. */
  function MouseUp(sqrt: real -> real, st: EditorState, pos: Point): EditorState
  {
    if !st.isEditMode || st.currentMode.RouteMode? || st.currentMode.DeleteMode? then st
    else ResetInteraction(Committed(sqrt, st.(mouse := Some(pos)), pos))
  }

  /** `handleMouseOut`, with the pointer's last position. */
  function MouseOut(sqrt: real -> real, st: EditorState, pos: Point): EditorState
  {
    if st.currentMode.RouteMode? && st.isDrawing && |st.routeBuildPoints| > 0 then
      ResetInteraction(st.(routeBuildPoints := []))
    else if st.isDrawing && st.isEditMode && !st.currentMode.RouteMode? then
      MouseUp(sqrt, st, pos)
    else if st.isEditMode then
      st.(mouse := None)
    else st
  }

  // ------------------------------------------------------------ properties

  /** In view mode pressing, moving and releasing the mouse change nothing. */
  lemma ViewModeInert(sqrt: real -> real, st: EditorState, pos: Point)
    requires !st.isEditMode
    ensures MouseDown(sqrt, st, pos) == st && MouseMove(sqrt, st, pos) == st && MouseUp(sqrt, st, pos) == st
  {
  }

  /**
   * Switching mode always drops the route being built, the selection and the
   * interaction flags, and leaves the elements alone.
   */
  lemma ModeChangeResets(st: EditorState, edit: bool)
    ensures var r := ModeChange(st, edit);
            r.routeBuildPoints == [] && r.selectedId.None? && !r.isDrawing && !r.isMoving
            && r.draggingHandle.None? && r.drawingOnWallTarget.None? && r.currentWallDrawPos.None?
            && r.isEditMode == edit && (r.currentMode.SelectMode? <==> edit) && (r.currentMode.NoMode? <==> !edit)
            && r.elements == st.elements && r.nextElementId == st.nextElementId
  {
  }

  /**
   * A tool button does nothing in view mode; in edit mode it selects the
   * tool, clears the selection and the flags, and drops the route being built
   * unless the new tool is the route tool.
   */
  lemma ToolButtonClickEffect(st: EditorState, newMode: Mode)
    ensures !st.isEditMode ==> ToolButtonClick(st, newMode) == st
    ensures st.isEditMode ==>
              var r := ToolButtonClick(st, newMode);
              r.currentMode == newMode && r.selectedId.None? && !r.isDrawing && !r.isMoving
              && r.draggingHandle.None? && r.drawingOnWallTarget.None?
              && r.routeBuildPoints == (if newMode.RouteMode? then st.routeBuildPoints else [])
              && r.elements == st.elements
  {
  }

  /**
   * Route building: the first click starts a build with its one point; a
   * later click near a door appends the point and commits the route, which
   * therefore has at least two points, and ends the build; any other later
   * click only appends the point.
   */
  lemma RouteClickEffect(sqrt: real -> real, st: EditorState, p: Point)
    ensures var r := RouteClick(sqrt, st, p);
            |st.routeBuildPoints| == 0 ==>
              r.routeBuildPoints == [p] && r.isDrawing && r.elements == st.elements
    ensures var r := RouteClick(sqrt, st, p);
            |st.routeBuildPoints| > 0 && NearSomeDoor(sqrt, st.elements, p, DoorEndSnapTolerance) ==>
              |r.elements| == |st.elements| + 1 && r.elements[..|st.elements|] == st.elements
              && r.elements[|st.elements|] == Route(st.nextElementId, st.routeBuildPoints + [p])
              && |r.elements[|st.elements|].points| >= 2
              && r.routeBuildPoints == [] && !r.isDrawing && r.nextElementId == st.nextElementId + 1
    ensures var r := RouteClick(sqrt, st, p);
            |st.routeBuildPoints| > 0 && !NearSomeDoor(sqrt, st.elements, p, DoorEndSnapTolerance) ==>
              r.routeBuildPoints == st.routeBuildPoints + [p] && r.elements == st.elements
  {
    var es' := RouteClick(sqrt, st, p).elements;
    if |st.routeBuildPoints| > 0 && NearSomeDoor(sqrt, st.elements, p, DoorEndSnapTolerance) {
      assert es' == st.elements + [Route(st.nextElementId, st.routeBuildPoints + [p])];
    }
  }

  /** Every route the route tool creates has at least two points. */
  lemma RoutesHaveTwoPoints(sqrt: real -> real, st: EditorState, pos: Point)
    requires st.isEditMode && st.currentMode.RouteMode?
    ensures var r := MouseDown(sqrt, st, pos);
            |r.elements| > |st.elements| ==>
              r.elements[|st.elements|].Route? && |r.elements[|st.elements|].points| >= 2
  {
    RouteClickEffect(sqrt, st.(mouse := Some(pos)), SnapPoint(pos));
  }

  /**
   * Pressing with the door or window tool away from every wall (none within
   * the placement tolerance) starts nothing and creates nothing.
   */
  lemma WallChildDownNoWall(sqrt: real -> real, st: EditorState, pos: Point)
    requires st.isEditMode && (st.currentMode.DoorMode? || st.currentMode.WindowMode?)
    requires FindWallNearPointSpec(sqrt, st.elements, pos, WallPlacementTolerance).None?
    ensures var r := MouseDown(sqrt, st, pos);
            !r.isDrawing && r.drawingOnWallTarget.None? && r.elements == st.elements
  {
  }

  /**
   * Releasing after drawing a door or window creates one exactly when the
   * drawn interval, put in order, is at least the minimum length and clashes
   * with no opening of the wall; the new opening spans that interval and
   * swings forwards exactly when it was drawn forwards.
   */
  lemma WallChildCommit(sqrt: real -> real, st: EditorState, pos: Point)
    requires st.isEditMode && !st.currentMode.RouteMode? && !st.currentMode.DeleteMode?
    requires !(st.isMoving && st.selectedId.Some?) && !(st.draggingHandle.Some? && st.selectedId.Some?)
    requires st.drawingOnWallTarget.Some? && st.currentWallDrawPos.Some?
    ensures var r := MouseUp(sqrt, st, pos);
            var t := st.drawingOnWallTarget.value;
            var endDist := st.currentWallDrawPos.value.endDist;
            var lo := Min(t.startDist, endDist);
            var hi := Max(t.startDist, endDist);
            (|r.elements| == |st.elements| + 1 <==>
               hi - lo >= MinDoorWindowLength && !Overlaps(st.elements, t.wall.id, None, lo, hi - lo))
            && (|r.elements| == |st.elements| + 1 ==>
                  var c := r.elements[|st.elements|];
                  c.WallChild? && c.wallId == t.wall.id && c.distanceAlongWall == lo
                  && c.distanceAlongWall + c.length == hi && c.id == st.nextElementId
                  && (c.swingDirection == 1 <==> endDist >= t.startDist))
            && (|r.elements| != |st.elements| + 1 ==> r.elements == st.elements)
  {
  }

  /**
   * Releasing after drawing a wall, machine, closet or gear creates nothing
   * when the drag is shorter than the minimum element size, nor a wall whose
   * snapped end coincides with its start; otherwise it appends one element
   * of the tool's kind.
   */
  lemma ShapeCommit(sqrt: real -> real, st: EditorState, pos: Point)
    requires st.isEditMode && IsShapeMode(st.currentMode) && st.isDrawing
    requires !(st.isMoving && st.selectedId.Some?) && !(st.draggingHandle.Some? && st.selectedId.Some?)
    requires !(st.drawingOnWallTarget.Some? && st.currentWallDrawPos.Some?)
    ensures var r := MouseUp(sqrt, st, pos);
            (|r.elements| == |st.elements| + 1 <==>
               Distance(sqrt, st.start, pos) >= MinElementSize
               && (st.currentMode.WallMode? ==> SnapPoint(pos) != st.start))
            && (|r.elements| != |st.elements| + 1 ==> r.elements == st.elements)
    ensures var r := MouseUp(sqrt, st, pos);
            |r.elements| == |st.elements| + 1 ==>
              var e := r.elements[|st.elements|];
              e.id == st.nextElementId
              && (st.currentMode.WallMode? ==> e == NewWall(st.nextElementId, st.start, SnapPoint(pos)))
              && (st.currentMode.MachineMode? ==> e.Polygon? && e.polyKind == Machine)
              && (st.currentMode.ClosetMode? ==> e.Polygon? && e.polyKind == Closet)
              && (st.currentMode.GearMode? ==> e.Rect?)
  {
  }

  /** A wall drawn from a grid point ends on the grid as well. */
  lemma CommittedWallOnGrid(sqrt: real -> real, st: EditorState, pos: Point)
    requires st.isEditMode && st.currentMode.WallMode? && st.isDrawing
    requires !(st.isMoving && st.selectedId.Some?) && !(st.draggingHandle.Some? && st.selectedId.Some?)
    requires !(st.drawingOnWallTarget.Some? && st.currentWallDrawPos.Some?)
    requires OnGrid(st.start.x, GRID_SIZE_PIXELS) && OnGrid(st.start.y, GRID_SIZE_PIXELS)
    ensures var r := MouseUp(sqrt, st, pos);
            |r.elements| == |st.elements| + 1 ==>
              var w := r.elements[|st.elements|];
              w.Wall? && OnGrid(w.x1, GRID_SIZE_PIXELS) && OnGrid(w.y1, GRID_SIZE_PIXELS)
              && OnGrid(w.x2, GRID_SIZE_PIXELS) && OnGrid(w.y2, GRID_SIZE_PIXELS)
  {
    SnapToGridNearest(pos.x, GRID_SIZE_PIXELS);
    SnapToGridNearest(pos.y, GRID_SIZE_PIXELS);
  }

  /** Outside the route and delete tools, every release in edit mode ends the interaction. */
  lemma MouseUpResets(sqrt: real -> real, st: EditorState, pos: Point)
    requires st.isEditMode && !st.currentMode.RouteMode? && !st.currentMode.DeleteMode?
    ensures var r := MouseUp(sqrt, st, pos);
            !r.isDrawing && !r.isMoving && r.draggingHandle.None? && r.drawingOnWallTarget.None?
            && r.currentWallDrawPos.None? && r.mouse.None?
            && r.selectedId == st.selectedId && r.routeBuildPoints == st.routeBuildPoints
            && r.currentMode == st.currentMode
  {
  }

  /**
   * Leaving the canvas while building a route discards its points and ends
   * the interaction; leaving while drawing anything else in edit mode is a
   * release at the last position.
   */
  lemma MouseOutEffect(sqrt: real -> real, st: EditorState, pos: Point)
    ensures st.currentMode.RouteMode? && st.isDrawing && |st.routeBuildPoints| > 0 ==>
              var r := MouseOut(sqrt, st, pos);
              r.routeBuildPoints == [] && !r.isDrawing && r.elements == st.elements
    ensures !st.currentMode.RouteMode? && st.isDrawing && st.isEditMode ==>
              MouseOut(sqrt, st, pos) == MouseUp(sqrt, st, pos)
  {
  }

  /**
   * While a door or window is dragged along its wall, the preview's end
   * stays on the wall and its length is the distance from where the drag
   * started.
   */
  lemma DrawPosOnWall(sqrt: real -> real, t: WallTarget, pos: Point)
    requires IsSqrt(sqrt) && t.wall.Wall?
    ensures var d := DrawPos(sqrt, t, pos);
            0.0 <= d.endDist <= WallLength(sqrt, t.wall)
            && d.length >= 0.0 && (d.length == d.endDist - d.startDist || d.length == d.startDist - d.endDist)
  {
    DistanceFacts(sqrt, WallStart(t.wall), WallEnd(t.wall));
  }

  /** Pressing on an element and moving without moving the pointer leaves the element where it was. */
  lemma GrabThenMoveInPlace(sqrt: real -> real, es: seq<Element>, t: Element, pos: Point, prev: Point)
    requires !t.WallChild? && ((t.Polygon? || t.Route?) ==> |t.points| > 0)
    ensures MovedElement(sqrt, es, t, pos, MoveOffset(t, pos, prev)) == t
  {
    if t.Polygon? || t.Route? {
      var r := MovedElement(sqrt, es, t, pos, MoveOffset(t, pos, prev));
      assert r.points == t.points;
    }
  }

  // ------------------------------------------------------- the invariant

  /** Clearing the interaction flags keeps a valid state valid. */
  lemma ResetValid(st: EditorState)
    requires Valid(st)
    ensures Valid(ResetInteraction(st))
  {
  }

  lemma ModeChangeValid(st: EditorState, edit: bool)
    requires Valid(st)
    ensures Valid(ModeChange(st, edit))
  {
    ResetValid(st.(isEditMode := edit, routeBuildPoints := [], selectedId := None));
  }

  lemma ToolButtonClickValid(st: EditorState, newMode: Mode)
    requires Valid(st)
    ensures Valid(ToolButtonClick(st, newMode))
  {
    if st.isEditMode {
      var points := if |st.routeBuildPoints| > 0 && !newMode.RouteMode? then [] else st.routeBuildPoints;
      ResetValid(st.(routeBuildPoints := points, selectedId := None, isMoving := false, draggingHandle := None,
                     drawingOnWallTarget := None));
      assert ToolButtonClick(st, newMode)
          == ResetInteraction(st.(routeBuildPoints := points, selectedId := None, isMoving := false,
                                  draggingHandle := None, drawingOnWallTarget := None)).(currentMode := newMode);
    }
  }

  /**
   * A state with the same elements and counter as a valid one is valid when
   * its flags are consistent with its tool.
   */
  lemma SameElementsValid(st: EditorState, st': EditorState)
    requires Valid(st)
    requires st'.elements == st.elements && st'.nextElementId == st.nextElementId
    requires st'.drawingOnWallTarget.Some? ==>
               st'.drawingOnWallTarget.value.wall in st.elements && st'.drawingOnWallTarget.value.wall.Wall?
               && (st'.currentMode.DoorMode? || st'.currentMode.WindowMode?)
    requires (st'.isMoving || st'.draggingHandle.Some?) ==> st'.currentMode.SelectMode?
    ensures Valid(st')
  {
  }

  lemma RouteClickValid(sqrt: real -> real, st: EditorState, p: Point)
    requires Valid(st) && st.currentMode.RouteMode?
    ensures Valid(RouteClick(sqrt, st, p))
  {
    if |st.routeBuildPoints| == 0 {
      SameElementsValid(st, RouteClick(sqrt, st, p));
    } else if NearSomeDoor(sqrt, st.elements, p, DoorEndSnapTolerance) {
      var points := st.routeBuildPoints + [p];
      AppendedValid(st, NewRoute(st.nextElementId, points));
    } else {
      SameElementsValid(st, RouteClick(sqrt, st, p));
    }
  }

  lemma SelectDownValid(sqrt: real -> real, st: EditorState, pos: Point)
    requires Valid(st) && st.currentMode.SelectMode? && st.drawingOnWallTarget.None?
    ensures Valid(SelectDown(sqrt, st, pos))
  {
    SameElementsValid(st, SelectDown(sqrt, st, pos));
  }

  lemma WallChildDownValid(sqrt: real -> real, st: EditorState, pos: Point)
    requires Valid(st) && (st.currentMode.DoorMode? || st.currentMode.WindowMode?)
    requires !st.isMoving && st.draggingHandle.None?
    ensures Valid(WallChildDown(sqrt, st, pos))
  {
    SameElementsValid(st, WallChildDown(sqrt, st, pos));
  }

  /**
   * Every mouse press keeps the state valid: ids stay unique and below the
   * counter, openings stay on walls of the list without clashing, and only
   * the door and window tools draw on a wall.
   */
  lemma MouseDownValid(sqrt: real -> real, st: EditorState, pos: Point)
    requires Valid(st)
    ensures Valid(MouseDown(sqrt, st, pos))
  {
    if st.isEditMode {
      var st1 := st.(mouse := Some(pos));
      SameElementsValid(st, st1);
      if st.currentMode.DeleteMode? {
        var target := FindElementAtSpec(sqrt, st.elements, pos);
        if target.Some? {
          FindElementAtPriority(sqrt, st.elements, pos);
          DeletedValid(st1, target.value);
        }
      } else if st.currentMode.RouteMode? {
        RouteClickValid(sqrt, st1, SnapPoint(pos));
      } else {
        var st2 := ResetInteraction(st1).(mouse := Some(pos));
        SameElementsValid(st, st2);
        if st.currentMode.SelectMode? {
          SelectDownValid(sqrt, st2, pos);
        } else if st.currentMode.DoorMode? || st.currentMode.WindowMode? {
          WallChildDownValid(sqrt, st2, pos);
        } else {
          SameElementsValid(st, MouseDown(sqrt, st, pos));
        }
      }
    }
  }

  lemma MouseMoveValid(sqrt: real -> real, st: EditorState, pos: Point)
    requires Valid(st)
    ensures Valid(MouseMove(sqrt, st, pos))
  {
    if st.isEditMode {
      var st1 := st.(mouse := Some(pos));
      SameElementsValid(st, st1);
      DraggedValid(sqrt, st1, pos);
    }
  }

  lemma DraggedValid(sqrt: real -> real, st: EditorState, pos: Point)
    requires Valid(st)
    ensures Valid(Dragged(sqrt, st, pos))
  {
    var sel := Selected(st);
    if sel.Some? {
      var e := sel.value;
      if st.isMoving && st.selectedId.Some? {
        ReplaceValid(st, e, MovedElement(sqrt, st.elements, e, pos, st.moveOffset));
      } else if st.draggingHandle.Some? && st.selectedId.Some? {
        ReplaceValid(st, e, ResizedElement(sqrt, st.elements, e, st.draggingHandle.value.id, pos));
      }
    }
  }

  lemma CommittedValid(sqrt: real -> real, st: EditorState, pos: Point)
    requires Valid(st)
    ensures Valid(Committed(sqrt, st, pos))
  {
    if st.isMoving && st.selectedId.Some? {
    } else if st.draggingHandle.Some? && st.selectedId.Some? {
    } else if st.drawingOnWallTarget.Some? && st.currentWallDrawPos.Some? {
      OpeningCommittedValid(st);
    } else if st.isDrawing && IsShapeMode(st.currentMode) {
      ShapeCommittedValid(sqrt, st, pos);
    }
  }

  lemma OpeningCommittedValid(st: EditorState)
    requires Valid(st) && st.drawingOnWallTarget.Some? && st.currentWallDrawPos.Some?
    ensures Valid(OpeningCommitted(st))
  {
    var t := st.drawingOnWallTarget.value;
    var endDist := st.currentWallDrawPos.value.endDist;
    var lo := Min(t.startDist, endDist);
    var len := Max(t.startDist, endDist) - lo;
    if len >= MinDoorWindowLength && !Overlaps(st.elements, t.wall.id, None, lo, len) {
      var c := NewWallChild(st.nextElementId, ChildKindOf(st.currentMode), t.wall, lo, len, endDist >= t.startDist);
      OpeningOnTargetValid(st, c);
      assert OpeningCommitted(st) == Appended(st, c);
    }
  }

  /** An opening on the wall being drawn on, clear of the wall's other openings, keeps the state valid. */
  lemma OpeningOnTargetValid(st: EditorState, c: Element)
    requires Valid(st) && st.drawingOnWallTarget.Some?
    requires c.WallChild? && c.id == st.nextElementId && c.wallId == st.drawingOnWallTarget.value.wall.id
    requires !Overlaps(st.elements, c.wallId, None, c.distanceAlongWall, c.length)
    ensures Valid(Appended(st, c))
  {
    var w := st.drawingOnWallTarget.value.wall;
    assert w in st.elements && w.Wall?;
    assert HasWall(st.elements, c.wallId);
    AppendedValid(st, c);
  }

  lemma ShapeCommittedValid(sqrt: real -> real, st: EditorState, pos: Point)
    requires Valid(st)
    ensures Valid(ShapeCommitted(sqrt, st, pos))
  {
    if Distance(sqrt, st.start, pos) >= MinElementSize {
      if st.currentMode.WallMode? {
        AppendedValid(st, NewWall(st.nextElementId, st.start, SnapPoint(pos)));
      } else if st.currentMode.MachineMode? {
        AppendedValid(st, NewPolygon(st.nextElementId, Machine, st.start, pos));
      } else if st.currentMode.ClosetMode? {
        AppendedValid(st, NewPolygon(st.nextElementId, Closet, st.start, pos));
      } else if st.currentMode.GearMode? {
        AppendedValid(st, NewRect(st.nextElementId, st.start, pos));
      }
    }
  }

  lemma MouseUpValid(sqrt: real -> real, st: EditorState, pos: Point)
    requires Valid(st)
    ensures Valid(MouseUp(sqrt, st, pos))
  {
    if st.isEditMode && !st.currentMode.RouteMode? && !st.currentMode.DeleteMode? {
      var st1 := st.(mouse := Some(pos));
      SameElementsValid(st, st1);
      CommittedValid(sqrt, st1, pos);
      ResetValid(Committed(sqrt, st1, pos));
    }
  }

  lemma MouseOutValid(sqrt: real -> real, st: EditorState, pos: Point)
    requires Valid(st)
    ensures Valid(MouseOut(sqrt, st, pos))
  {
    if st.currentMode.RouteMode? && st.isDrawing && |st.routeBuildPoints| > 0 {
      ResetValid(st.(routeBuildPoints := []));
    } else if st.isDrawing && st.isEditMode && !st.currentMode.RouteMode? {
      MouseUpValid(sqrt, st, pos);
    }
  }

  // ------------------------------------------ grid snapping in the wall tool

  /** A JavaScript value, as far as the calls below need: a number, NaN or `undefined`. */
  datatype JsValue = Number(n: real) | NaN | Undefined

  /**
   * `snapToGrid(pos.x, pos.y, GRID_SIZE_PIXELS)` as the handlers call it:
   * `snapToGrid` takes a coordinate and a grid size, so the extra argument is
   * dropped and `pos.y` serves as the grid size. The result is one number
   * (NaN when `pos.y` is 0), not a point.
   */
  function SnapCalledWithPoint(x: real, y: real): JsValue
  {
    if y != 0.0 then Number(Round(x / y) as real * y) else NaN
  }

  /** Reading `.x` or `.y` of a number yields `undefined`. */
  function CoordinateOf(v: JsValue): JsValue
    requires !v.Undefined?
  {
    Undefined
  }

  /** JavaScript `a !== b`; NaN differs from everything, `undefined` only from other values. */
  function StrictlyDifferent(a: JsValue, b: JsValue): bool
  {
    match (a, b)
    case (Number(m), Number(n)) => m != n
    case (Undefined, Undefined) => false
    case _ => true
  }

  /** JavaScript `a < b`: false as soon as either side is not a number. */
  function JsLess(a: JsValue, b: JsValue): bool
  {
    a.Number? && b.Number? && a.n < b.n
  }

  /** `distance` over JavaScript values: NaN unless all four are numbers. */
  function JsDistance(sqrt: real -> real, x1: JsValue, y1: JsValue, x2: JsValue, y2: JsValue): JsValue
  {
    if x1.Number? && y1.Number? && x2.Number? && y2.Number?
    then Number(Distance(sqrt, Point(x1.n, y1.n), Point(x2.n, y2.n)))
    else NaN
  }

  /**
   * The wall tool as written: whether pressing at `down` and releasing at
   * `up` reaches `createWall`. The start is the `.x`/`.y` of the snapped
   * number, the size test compares NaN, and the end is snapped the same way.
   */
  function WallCreatedAsWritten(sqrt: real -> real, down: Point, up: Point): bool
  {
    var snappedStart := SnapCalledWithPoint(down.x, down.y);
    var startX := CoordinateOf(snappedStart);
    var startY := CoordinateOf(snappedStart);
    if JsLess(JsDistance(sqrt, startX, startY, Number(up.x), Number(up.y)), Number(MinElementSize)) then false
    else
      var snappedEnd := SnapCalledWithPoint(up.x, up.y);
      StrictlyDifferent(startX, CoordinateOf(snappedEnd)) || StrictlyDifferent(startY, CoordinateOf(snappedEnd))
  }

  /** As written, the wall tool never creates a wall: both ends compare as `undefined`. */
  lemma WallToolNeverCreatesAsWritten(sqrt: real -> real, down: Point, up: Point)
    ensures !WallCreatedAsWritten(sqrt, down, up)
  {
  }

  /**
   * `isPointOnLineSegment` for a point given as JavaScript values and a
   * segment with numeric ends. A comparison with NaN is false, so a point
   * whose coordinates are not numbers passes all three rejections of a
   * proper segment.
   */
  function JsIsPointOnLineSegment(sqrt: real -> real, px: JsValue, py: JsValue, a: Point, b: Point,
                                  tolerance: real): bool
  {
    var len := Distance(sqrt, a, b);
    if len == 0.0 then JsLess(JsDistance(sqrt, px, py, Number(a.x), Number(a.y)), Number(tolerance))
    else
      var numeric := px.Number? && py.Number?;
      var distToLine := if numeric then Number(Abs(Cross(Point(px.n, py.n), a, b)) / len) else NaN;
      var dot := if numeric then Number(Dot(Point(px.n, py.n), a, b)) else NaN;
      !JsLess(Number(tolerance), distToLine) && !JsLess(dot, Number(0.0)) && !JsLess(Number(Sq(len)), dot)
  }

  /** On numbers the JavaScript-valued test is `isPointOnLineSegment` itself. */
  lemma JsOnSegmentOnNumbers(sqrt: real -> real, p: Point, a: Point, b: Point, tolerance: real)
    ensures JsIsPointOnLineSegment(sqrt, Number(p.x), Number(p.y), a, b, tolerance)
            == IsPointOnLineSegment(sqrt, p, a, b, tolerance)
  {
  }

  /** `isPointNearDoor`'s test for door `d`, with the point given as JavaScript values. */
  predicate JsNearDoor(sqrt: real -> real, es: seq<Element>, d: Element, px: JsValue, py: JsValue, tolerance: real)
    requires d.WallChild?
  {
    match Find(es, WithId(d.wallId))
    case None => false
    case Some(w) =>
      w.Wall?
      && JsIsPointOnLineSegment(sqrt, px, py,
           GetPointAlongLine(sqrt, WallStart(w), WallEnd(w), d.distanceAlongWall),
           GetPointAlongLine(sqrt, WallStart(w), WallEnd(w), d.distanceAlongWall + d.length),
           tolerance)
  }

  /**
   * The route tool as written. A click stores the number that the
   * three-argument `snapToGrid` call returns, so the stored point's `.x` and
   * `.y` are `undefined`. From the second click on, the door test on those
   * coordinates accepts every door whose opening has non-zero length on its
   * wall, wherever the click lands.
   */
  lemma RouteClickAsWritten(sqrt: real -> real, es: seq<Element>, d: Element, click: Point, tolerance: real)
    requires d.WallChild?
    ensures CoordinateOf(SnapCalledWithPoint(click.x, click.y)) == Undefined
    ensures var c := CoordinateOf(SnapCalledWithPoint(click.x, click.y));
            JsNearDoor(sqrt, es, d, c, c, tolerance)
            <==> match Find(es, WithId(d.wallId))
                 case None => false
                 case Some(w) =>
                   w.Wall?
                   && Distance(sqrt, GetPointAlongLine(sqrt, WallStart(w), WallEnd(w), d.distanceAlongWall),
                                     GetPointAlongLine(sqrt, WallStart(w), WallEnd(w), d.distanceAlongWall + d.length))
                      != 0.0
  {
  }

  /**
   * With each coordinate snapped (`SnapPoint`), pressing and releasing with
   * the wall tool creates a wall from the snapped press to the snapped
   * release exactly when the drag is long enough and the snapped ends differ.
   */
  lemma WallToolDrawsWall(sqrt: real -> real, st: EditorState, down: Point, up: Point)
    requires st.isEditMode && st.currentMode.WallMode?
    ensures var r := MouseUp(sqrt, MouseDown(sqrt, st, down), up);
            (|r.elements| == |st.elements| + 1 <==>
               Distance(sqrt, SnapPoint(down), up) >= MinElementSize && SnapPoint(up) != SnapPoint(down))
            && (|r.elements| == |st.elements| + 1 ==>
                  r.elements[|st.elements|] == NewWall(st.nextElementId, SnapPoint(down), SnapPoint(up)))
            && (|r.elements| != |st.elements| + 1 ==> r.elements == st.elements)
  {
    var mid := MouseDown(sqrt, st, down);
    assert mid.isDrawing && !mid.isMoving && mid.draggingHandle.None? && mid.drawingOnWallTarget.None?;
    assert mid.start == SnapPoint(down) && mid.elements == st.elements;
    ShapeCommit(sqrt, mid, up);
  }

  /** A drag from (0, 0) to (50, 0) creates a wall once snapping is per coordinate. */
  lemma WallToolExample(sqrt: real -> real)
    requires IsSqrt(sqrt)
    ensures Distance(sqrt, SnapPoint(Point(0.0, 0.0)), Point(50.0, 0.0)) >= MinElementSize
    ensures SnapPoint(Point(50.0, 0.0)) != SnapPoint(Point(0.0, 0.0))
  {
    SnapExample();
    var d := Distance(sqrt, Point(0.0, 0.0), Point(50.0, 0.0));
    DistanceFacts(sqrt, Point(0.0, 0.0), Point(50.0, 0.0));
    assert SqDist(Point(0.0, 0.0), Point(50.0, 0.0)) == 2500.0;
    AtLeastThree(d);
  }

  lemma SnapExample()
    ensures SnapPoint(Point(0.0, 0.0)) == Point(0.0, 0.0)
    ensures SnapPoint(Point(50.0, 0.0)) == Point(50.0, 0.0)
  {
    assert Round(0.0) == 0 && Round(2.0) == 2;
  }

  lemma AtLeastThree(d: real)
    requires d >= 0.0 && Sq(d) == 2500.0
    ensures d >= 3.0
  {
    var below, above := d - 3.0, d + 3.0;
    assert below * above == 2491.0;
    PositiveFactor(below, above);
  }

  lemma PositiveFactor(a: real, b: real)
    requires b > 0.0 && a * b > 0.0
    ensures a > 0.0
  {
  }

  // ------------------------------------------------------------ the handlers

  method HandleModeChange(s: Store, edit: bool)
    modifies s
    ensures s.Snapshot() == ModeChange(old(s.Snapshot()), edit)
  {
    s.isEditMode := edit;
    s.ResetRouteBuild();
    s.selectedId := None;
    s.ResetInteractionState();
    if s.isEditMode {
      s.currentMode := SelectMode;
    } else {
      s.currentMode := NoMode;
    }
  }

  method HandleToolButtonClick(s: Store, newMode: Mode)
    modifies s
    ensures s.Snapshot() == ToolButtonClick(old(s.Snapshot()), newMode)
  {
    if !s.isEditMode {
      return;
    }
    if |s.routeBuildPoints| > 0 && newMode != RouteMode {
      s.ResetRouteBuild();
    }
    s.currentMode := newMode;
    s.selectedId := None;
    s.ResetInteractionState();
  }

  /** Returns the id whose information a view-mode click shows. */
  method HandleMouseDown(s: Store, sqrt: real -> real, pos: Point) returns (info: Option<int>)
    modifies s
    ensures s.Snapshot() == MouseDown(sqrt, old(s.Snapshot()), pos)
    ensures info == InfoTarget(sqrt, old(s.Snapshot()), pos)
  {
    info := None;
    if s.isEditMode {
      s.mouse := Some(pos);
    }
    if !s.isEditMode {
      var targetElement := FindElementAt(sqrt, s.elements, pos);
      if targetElement.Some? {
        info := Some(targetElement.value.id);
      }
      return;
    }
    if s.currentMode == DeleteMode {
      var targetElement := FindElementAt(sqrt, s.elements, pos);
      DeleteElement(s, targetElement);
      return;
    }
    if s.currentMode == RouteMode {
      RouteMouseDown(s, sqrt, SnapPoint(pos));
      return;
    }
    var current := s.mouse;
    s.ResetInteractionState();
    s.mouse := current;
    if s.currentMode == SelectMode {
      SelectMouseDown(s, sqrt, pos);
    } else if s.currentMode == WindowMode || s.currentMode == DoorMode {
      WallChildMouseDown(s, sqrt, pos);
    } else {
      s.isDrawing := true;
      var startPoint := pos;
      if s.currentMode == WallMode {
        startPoint := SnapPoint(pos);
      }
      s.start := startPoint;
    }
  }

  /** A route-tool click at the snapped point `p`. */
  method RouteMouseDown(s: Store, sqrt: real -> real, p: Point)
    modifies s
    ensures s.Snapshot() == RouteClick(sqrt, old(s.Snapshot()), p)
  {
    if |s.routeBuildPoints| == 0 {
      s.AddRouteBuildPoint(p);
      s.isDrawing := true;
      s.start := p;
    } else {
      var near := IsPointNearDoor(sqrt, s.elements, p, DoorEndSnapTolerance);
      if near {
        FinishRoute(s, p);
      } else {
        s.AddRouteBuildPoint(p);
      }
    }
  }

  /** The closing click of a route: the point ends the route, which is stored and the build cleared. */
  method FinishRoute(s: Store, p: Point)
    modifies s
    ensures s.Snapshot() == Appended(old(s.Snapshot()), NewRoute(old(s.nextElementId), old(s.routeBuildPoints) + [p]))
                              .(routeBuildPoints := [], isDrawing := false)
  {
    s.AddRouteBuildPoint(p);
    CreateRoute(s, s.routeBuildPoints);
    s.ResetRouteBuild();
    s.isDrawing := false;
  }

  method SelectMouseDown(s: Store, sqrt: real -> real, pos: Point)
    modifies s
    ensures s.Snapshot() == SelectDown(sqrt, old(s.Snapshot()), pos)
  {
    var handle: Option<Handle> := None;
    if s.selectedId.Some? {
      handle := FindHandleAt(sqrt, s.elements, pos, Selected(s.Snapshot()));
    }
    var targetElement := FindElementAt(sqrt, s.elements, pos);
    SelectAt(s, pos, handle, targetElement);
  }

  method SelectAt(s: Store, pos: Point, handle: Option<Handle>, targetElement: Option<Element>)
    modifies s
    ensures s.Snapshot() == SelectDownAt(old(s.Snapshot()), pos, handle, targetElement)
  {
    if handle.Some? {
      s.draggingHandle := handle;
      s.isDrawing := true;
      s.start := pos;
      return;
    }
    if targetElement.Some? {
      var t := targetElement.value;
      s.selectedId := Some(t.id);
      s.isDrawing := true;
      s.isMoving := true;
      s.start := pos;
      SetMoveOffset(s, t, pos);
      return;
    }
    s.selectedId := None;
  }

  /** The grab offset of a newly selected element, by the kind tests of the source. */
  method SetMoveOffset(s: Store, t: Element, pos: Point)
    modifies s
    ensures s.Snapshot() == old(s.Snapshot()).(moveOffset := MoveOffset(t, pos, old(s.moveOffset)))
  {
    if (t.Polygon? || t.Route?) && |t.points| > 0 {
      s.moveOffset := Point(pos.x - t.points[0].x, pos.y - t.points[0].y);
    } else if t.WallChild? {
      s.moveOffset := pos;
    } else if t.Rect? {
      s.moveOffset := Point(pos.x - t.x, pos.y - t.y);
    } else if t.Wall? {
      s.moveOffset := Point(pos.x - t.x1, pos.y - t.y1);
    }
  }

  method WallChildMouseDown(s: Store, sqrt: real -> real, pos: Point)
    modifies s
    ensures s.Snapshot() == WallChildDown(sqrt, old(s.Snapshot()), pos)
  {
    var wallInfo := FindWallNearPoint(sqrt, s.elements, pos, WallPlacementTolerance);
    if wallInfo.Some? {
      var w := wallInfo.value.wall;
      var projection := ProjectPointOntoLineSegment(sqrt, pos, WallStart(w), WallEnd(w));
      if projection.onSegment {
        var startDist := Distance(sqrt, WallStart(w), Point(projection.x, projection.y));
        s.isDrawing := true;
        s.drawingOnWallTarget := Some(WallTarget(w, startDist));
        s.start := Point(projection.x, projection.y);
        s.currentWallDrawPos := Some(WallDrawPos(w, startDist, startDist, 0.0));
      }
    }
  }

  method HandleMouseMove(s: Store, sqrt: real -> real, pos: Point)
    modifies s
    ensures s.Snapshot() == MouseMove(sqrt, old(s.Snapshot()), pos)
  {
    if !s.isEditMode {
      return;
    }
    s.mouse := Some(pos);
    if s.currentMode == RouteMode && s.isDrawing && |s.routeBuildPoints| > 0 {
      return;
    }
    if !s.isDrawing {
      return;
    }
    DragTo(s, sqrt, pos);
  }

  method DragTo(s: Store, sqrt: real -> real, pos: Point)
    modifies s
    ensures s.Snapshot() == Dragged(sqrt, old(s.Snapshot()), pos)
  {
    if s.isMoving && s.selectedId.Some? {
      var selected := Selected(s.Snapshot());
      if selected.Some? {
        var e := selected.value;
        s.elements := ReplaceById(s.elements, e.id, MovedElement(sqrt, s.elements, e, pos, s.moveOffset));
      }
    } else if s.draggingHandle.Some? && s.selectedId.Some? {
      var selected := Selected(s.Snapshot());
      if selected.Some? {
        var e := selected.value;
        s.elements := ReplaceById(s.elements, e.id, ResizedElement(sqrt, s.elements, e, s.draggingHandle.value.id, pos));
      }
    } else if s.drawingOnWallTarget.Some? && s.drawingOnWallTarget.value.wall.Wall? {
      var t := s.drawingOnWallTarget.value;
      var wallLen := Distance(sqrt, WallStart(t.wall), WallEnd(t.wall));
      var currentDist := Max(0.0, Min(wallLen, ProjectedDistance(sqrt, t.wall, pos)));
      s.currentWallDrawPos := Some(WallDrawPos(t.wall, t.startDist, currentDist, Abs(currentDist - t.startDist)));
    }
  }

  method HandleMouseUp(s: Store, sqrt: real -> real, pos: Point)
    modifies s
    ensures s.Snapshot() == MouseUp(sqrt, old(s.Snapshot()), pos)
  {
    if !s.isEditMode {
      return;
    }
    if s.currentMode == RouteMode || s.currentMode == DeleteMode {
      return;
    }
    s.mouse := Some(pos);
    if s.isMoving && s.selectedId.Some? {
    } else if s.draggingHandle.Some? && s.selectedId.Some? {
    } else if s.drawingOnWallTarget.Some? && s.currentWallDrawPos.Some? {
      CommitOpening(s);
    } else if s.isDrawing && IsShapeMode(s.currentMode) {
      CommitShape(s, sqrt, pos);
    }
    s.ResetInteractionState();
  }

  method CommitOpening(s: Store)
    requires s.drawingOnWallTarget.Some? && s.currentWallDrawPos.Some?
    modifies s
    ensures s.Snapshot() == OpeningCommitted(old(s.Snapshot()))
  {
    var t := s.drawingOnWallTarget.value;
    var endDist := s.currentWallDrawPos.value.endDist;
    var finalStartDist := Min(t.startDist, endDist);
    var finalEndDist := Max(t.startDist, endDist);
    var newLength := finalEndDist - finalStartDist;
    if newLength >= MinDoorWindowLength {
      var overlap := CheckWallChildOverlap(s.elements, t.wall, None, finalStartDist, newLength);
      if !overlap {
        var drawnForward := endDist >= t.startDist;
        CreateWallChild(s, ChildKindOf(s.currentMode), t.wall, finalStartDist, newLength, drawnForward);
      }
    }
  }

  method CommitShape(s: Store, sqrt: real -> real, pos: Point)
    modifies s
    ensures s.Snapshot() == ShapeCommitted(sqrt, old(s.Snapshot()), pos)
  {
    var endPoint := pos;
    var startPoint := s.start;
    if Distance(sqrt, startPoint, endPoint) >= MinElementSize {
      if s.currentMode == WallMode {
        endPoint := SnapPoint(endPoint);
        if startPoint != endPoint {
          CreateWall(s, startPoint, endPoint);
        }
      } else if s.currentMode == MachineMode {
        CreatePolygonElementFromRect(s, Machine, startPoint, endPoint);
      } else if s.currentMode == ClosetMode {
        CreatePolygonElementFromRect(s, Closet, startPoint, endPoint);
      } else if s.currentMode == GearMode {
        CreateRectElement(s, startPoint, endPoint);
      }
    }
  }

  method HandleMouseOut(s: Store, sqrt: real -> real, pos: Point)
    modifies s
    ensures s.Snapshot() == MouseOut(sqrt, old(s.Snapshot()), pos)
  {
    if s.currentMode == RouteMode && s.isDrawing && |s.routeBuildPoints| > 0 {
      s.ResetRouteBuild();
      s.ResetInteractionState();
      return;
    }
    if s.isDrawing && s.isEditMode && s.currentMode != RouteMode {
      HandleMouseUp(s, sqrt, pos);
    } else if s.isEditMode {
      s.mouse := None;
    }
  }
}
