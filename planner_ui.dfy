// The split metre editor (static/js/floorplanner/core.js, elements.js and
// ui.js): the single-file editor's handlers plus resize handles on the
// selected element, doors and windows that must start on a wall, emergency
// routes with a list of points, and a delete key. Each handler is specified
// by a function from the state before the event to the state after it.

module PlannerUi {
  import opened Wrappers
  import opened Geometry
  import opened PlanModel
  import Planner

  /** `currentState` of core.js; the selection is an index into `elements`. */
  datatype UiState = UiState(
    elements: seq<PlanElement>,
    selected: Option<nat>,
    tool: Tool,
    isDrawing: bool,
    startPoint: Option<Point>,
    scale: real,
    pan: Point,
    isResizing: bool,
    resizeHandle: Option<ResizeHandle>)

  predicate Valid(st: UiState)
  {
    st.scale > 0.0 && (st.selected.Some? ==> st.selected.value < |st.elements|)
  }

  /** The pointer in metres; here it snaps to the grid only for the wall tool. */
  function Position(st: UiState, offset: Point): Point
    requires st.scale > 0.0
  {
    CanvasPosition(offset, st.pan, st.scale, st.tool == DrawTool(WallType))
  }

  /** `selectElement(element)`: note that it sets `isResizing` to true. */
  function SelectElement(st: UiState, element: Option<nat>): UiState
  {
    st.(selected := element, isResizing := true, isDrawing := false, resizeHandle := None)
  }

  // --------------------------------------------------------- route points

  /** The point a `{ x, y }` entry of `properties.points` holds. */
  function PointFrom(j: Json): Option<Point>
  {
    if j.JObj? && "x" in j.fields && "y" in j.fields && j.fields["x"].JNum? && j.fields["y"].JNum?
    then Some(Point(j.fields["x"].n, j.fields["y"].n))
    else None
  }

  lemma PointJsonRoundTrip(p: Point)
    ensures PointFrom(PointJson(p)) == Some(p)
  {
  }

  /** `properties.points` when it is an array. */
  function RoutePoints(props: map<string, Json>): Option<seq<Json>>
  {
    if "points" in props && props["points"].JArr? then Some(props["points"].items) else None
  }

  /**
   * `points[0] = {...pos}` (a start handle) or `points[points.length - 1] =
   * {...pos}` (an end handle); `None` when `points` is missing or null and
   * the read throws.
   */
  function WithEndPoint(props: map<string, Json>, atStart: bool, pos: Point): Option<map<string, Json>>
  {
    if "points" !in props || props["points"] == JNull then None
    else match props["points"]
      case JArr(items) =>
        var items' := if atStart then (if |items| == 0 then [PointJson(pos)] else items[0 := PointJson(pos)])
                      else (if |items| == 0 then items else items[|items| - 1 := PointJson(pos)]);
        Some(props["points" := JArr(items')])
      case _ => Some(props)
  }

  /** `addPointToEmergencyRoute` on the route itself; `None` when `points.push` throws. */
  function WithAddedPoint(e: PlanElement, pos: Point): Option<PlanElement>
  {
    match RoutePoints(e.properties)
    case None => None
    case Some(items) => Some(e.(properties := e.properties["points" := JArr(items + [PointJson(pos)])], end := pos))
  }

  /** `splice(index, 1)`: a negative index counts from the end; one past the end removes nothing. */
  function Splice1(s: seq<Json>, index: int): seq<Json>
  {
    var k := if index < 0 then (if |s| + index < 0 then 0 else |s| + index) else index;
    if k < |s| then RemoveAt(s, k) else s
  }

  /**
   * `removePointFromEmergencyRoute(index)` on the route itself: removing the
   * first point moves the start onto the new first point, removing the last
   * moves the end onto the new last one; `None` when `points` is not an
   * array and the call throws.
   */
  function WithoutPoint(e: PlanElement, index: int): Option<PlanElement>
  {
    match RoutePoints(e.properties)
    case None => None
    case Some(items) =>
      if index == 0 then
        var rest := if |items| == 0 then [] else items[1..];
        var start := if |rest| > 0 && PointFrom(rest[0]).Some? then PointFrom(rest[0]).value else e.start;
        Some(e.(properties := e.properties["points" := JArr(rest)], start := start))
      else if index == |items| - 1 then
        var rest := if |items| == 0 then [] else items[..|items| - 1];
        var end := if |rest| > 0 && PointFrom(rest[|rest| - 1]).Some? then PointFrom(rest[|rest| - 1]).value else e.end;
        Some(e.(properties := e.properties["points" := JArr(rest)], end := end))
      else Some(e.(properties := e.properties["points" := JArr(Splice1(items, index))]))
  }

  /**
   * Adding a point appends it to the route's points and makes it the end.
   * Removing the first or last of two or more points drops exactly that
   * point and moves the start or end onto the new first or last point;
   * removing a point in between leaves start and end where they were.
   */
  lemma RoutePointEditing(e: PlanElement, pos: Point, index: int, pts: seq<Point>)
    requires RoutePoints(e.properties) == Some(seq(|pts|, i requires 0 <= i < |pts| => PointJson(pts[i])))
    ensures var r := WithAddedPoint(e, pos);
            r.Some? && r.value.end == pos && r.value.start == e.start
            && RoutePoints(r.value.properties).value == RoutePoints(e.properties).value + [PointJson(pos)]
    ensures |pts| >= 2 && index == 0 ==>
              var r := WithoutPoint(e, index);
              r.Some? && RoutePoints(r.value.properties).value == RoutePoints(e.properties).value[1..]
              && r.value.start == pts[1] && r.value.end == e.end
    ensures |pts| >= 2 && index == |pts| - 1 ==>
              var r := WithoutPoint(e, index);
              r.Some? && RoutePoints(r.value.properties).value == RoutePoints(e.properties).value[..|pts| - 1]
              && r.value.end == pts[|pts| - 2] && r.value.start == e.start
    ensures 0 < index < |pts| - 1 ==>
              var r := WithoutPoint(e, index);
              r.Some? && RoutePoints(r.value.properties).value == RemoveAt(RoutePoints(e.properties).value, index)
              && r.value.start == e.start && r.value.end == e.end
  {
    var items := RoutePoints(e.properties).value;
    if |pts| >= 2 {
      PointJsonRoundTrip(pts[1]);
      PointJsonRoundTrip(pts[|pts| - 2]);
      assert items[1..][0] == items[1];
      assert items[..|pts| - 1][|pts| - 2] == items[|pts| - 2];
    }
  }

  // ------------------------------------------------------------- resizing

  /**
   * A box corner drag AS WRITTEN in `resizeSelectedElement`: the corner is
   * found among the min/max corners, but the write always goes to `start`
   * for the left and top sides and to `end` for the right and bottom sides.
   */
  function BoxResizedAsWritten(e: PlanElement, h: ResizeHandle, pos: Point): PlanElement
  {
    match h
    case TopLeft => e.(start := pos)
    case TopRight => e.(end := e.end.(x := pos.x), start := e.start.(y := pos.y))
    case BottomLeft => e.(start := e.start.(x := pos.x), end := e.end.(y := pos.y))
    case BottomRight => e.(end := pos)
    case _ => e
  }

  /** The handle at the corner diagonally opposite `h`. */
  function Opposite(h: ResizeHandle): ResizeHandle
  {
    match h
    case TopLeft => BottomRight
    case TopRight => BottomLeft
    case BottomLeft => TopRight
    case BottomRight => TopLeft
    case StartHandle => EndHandle
    case EndHandle => StartHandle
  }

  predicate IsCorner(h: ResizeHandle)
  {
    h == TopLeft || h == TopRight || h == BottomLeft || h == BottomRight
  }

  /** The box is spanned by `a` and `b`, whichever corners they are. */
  predicate Spans(e: PlanElement, a: Point, b: Point)
  {
    Min(e.start.x, e.end.x) == Min(a.x, b.x) && Max(e.start.x, e.end.x) == Max(a.x, b.x)
    && Min(e.start.y, e.end.y) == Min(a.y, b.y) && Max(e.start.y, e.end.y) == Max(a.y, b.y)
  }

  /**
   * A box drawn from its bottom-right corner to its top-left one, start
   * (4, 4) and end (2, 2): dragging its top-left handle, at (2, 2), to
   * (1, 1) as written leaves the box from (1, 1) to (2, 2). The dragged
   * corner did not move to the pointer with the far corner (4, 4) staying.
   */
  lemma BoxResizeAsWrittenMovesFarCorner()
    ensures var e := PlanElement("m", Machine, Point(4.0, 4.0), Point(2.0, 2.0), 0.2, map[]);
            var r := BoxResizedAsWritten(e, TopLeft, Point(1.0, 1.0));
            HandlePoint(e, TopLeft) == Point(2.0, 2.0) && HandlePoint(e, BottomRight) == Point(4.0, 4.0)
            && Spans(r, Point(1.0, 1.0), Point(2.0, 2.0)) && !Spans(r, Point(1.0, 1.0), Point(4.0, 4.0))
  {
  }

  /** Sets the side of the box lying at the min (`minSide`) or max x to `v`. */
  function WithSideX(e: PlanElement, minSide: bool, v: real): PlanElement
  {
    if (e.start.x <= e.end.x) == minSide then e.(start := e.start.(x := v)) else e.(end := e.end.(x := v))
  }

  function WithSideY(e: PlanElement, minSide: bool, v: real): PlanElement
  {
    if (e.start.y <= e.end.y) == minSide then e.(start := e.start.(y := v)) else e.(end := e.end.(y := v))
  }

  /** A box corner drag: the coordinates of the corner's own sides move to the pointer. */
  function BoxResized(e: PlanElement, h: ResizeHandle, pos: Point): PlanElement
  {
    if IsCorner(h) then
      var left := h == TopLeft || h == BottomLeft;
      var top := h == TopLeft || h == TopRight;
      WithSideY(WithSideX(e, left, pos.x), top, pos.y)
    else e
  }

  /**
   * Dragging a corner of a box makes the box the one spanned by the pointer
   * and the opposite corner, however the box was drawn; nothing else about
   * the element changes. When the box was drawn from top-left to
   * bottom-right, the source's writes do the same.
   */
  lemma BoxResizeKeepsOppositeCorner(e: PlanElement, h: ResizeHandle, pos: Point)
    requires IsCorner(h)
    ensures Spans(BoxResized(e, h, pos), pos, HandlePoint(e, Opposite(h)))
    ensures BoxResized(e, h, pos).(start := e.start, end := e.end) == e
    ensures e.start.x <= e.end.x && e.start.y <= e.end.y ==> BoxResizedAsWritten(e, h, pos) == BoxResized(e, h, pos)
  {
  }

  /**
   * `resizeSelectedElement` on the selected element: a wall, door or window
   * moves the dragged end; a route also rewrites its first or last point; a
   * machine or closet moves the dragged corner. Other pairs of type and
   * handle change nothing.
   */
  function Resized(e: PlanElement, h: ResizeHandle, pos: Point): PlanElement
  {
    if IsLineKind(e.kind, false) then
      if h == StartHandle then e.(start := pos)
      else if h == EndHandle then e.(end := pos)
      else e
    else if e.kind == EmergencyRoute then
      if h == StartHandle || h == EndHandle then
        match WithEndPoint(e.properties, h == StartHandle, pos)
        case None => e
        case Some(props) => if h == StartHandle then e.(properties := props, start := pos) else e.(properties := props, end := pos)
      else e
    else if IsBoxKind(e.kind) then BoxResized(e, h, pos)
    else e
  }

  /**
   * Resizing puts the dragged handle of a line element or a route with a
   * point list under the pointer and leaves the other end where it was;
   * a route's first or last point follows its start or end.
   */
  lemma ResizeMovesHandle(e: PlanElement, h: ResizeHandle, pos: Point)
    requires IsLineKind(e.kind, true) && (h == StartHandle || h == EndHandle)
    requires e.kind == EmergencyRoute ==> RoutePoints(e.properties).Some? && |RoutePoints(e.properties).value| > 0
    ensures HandlePoint(Resized(e, h, pos), h) == pos
    ensures HandlePoint(Resized(e, h, pos), Opposite(h)) == HandlePoint(e, Opposite(h))
    ensures e.kind == EmergencyRoute ==>
              var items := RoutePoints(Resized(e, h, pos).properties).value;
              |items| == |RoutePoints(e.properties).value|
              && (if h == StartHandle then items[0] else items[|items| - 1]) == PointJson(pos)
  {
  }

  // ------------------------------------------------------------- handlers

  function DragSelected(st: UiState, pos: Point): UiState
    requires Valid(st)
  {
    match st.selected
    case None => st
    case Some(i) => st.(elements := st.elements[i := Planner.CentredOn(st.elements[i], pos)])
  }

  function ResizeSelected(st: UiState, pos: Point): UiState
    requires Valid(st)
  {
    if st.selected.None? || st.resizeHandle.None? then st
    else
      var i := st.selected.value;
      st.(elements := st.elements[i := Resized(st.elements[i], st.resizeHandle.value, pos)])
  }

  function AddPointToRoute(st: UiState, pos: Point): UiState
    requires Valid(st)
  {
    match st.selected
    case None => st
    case Some(i) =>
      if st.elements[i].kind != EmergencyRoute then st
      else match WithAddedPoint(st.elements[i], pos)
        case None => st
        case Some(e) => st.(elements := st.elements[i := e])
  }

  function RemovePointFromRoute(st: UiState, index: int): UiState
    requires Valid(st)
  {
    match st.selected
    case None => st
    case Some(i) =>
      if st.elements[i].kind != EmergencyRoute then st
      else match WithoutPoint(st.elements[i], index)
        case None => st
        case Some(e) => st.(elements := st.elements[i := e])
  }

  /** Width of a new emergency route, in metres. */
  const RouteWidth: real := 1.0

  predicate IsOpeningTool(t: Tool)
  {
    t == DrawTool(DoorStandard) || t == DrawTool(DoorEmergency) || t == DrawTool(WindowType)
  }

  /** The element a finished drag creates: routes are 1 m wide and hold their two points. */
  function NewElement(newId: string, tool: Tool, start: Point, end: Point): PlanElement
  {
    var kind := KindDrawnBy(tool);
    if kind == EmergencyRoute then
      PlanElement(newId, kind, start, end, RouteWidth,
                  map["routeName" := JStr("Emergency Exit Route"), "exitPoint" := JStr("end"),
                      "points" := JArr([PointJson(start), PointJson(end)])])
    else PlanElement(newId, kind, start, end, Planner.DefaultWidth, Planner.DefaultProperties(kind))
  }

  /**
   * `finishDrawing(endPoint)` of elements.js: as in the single-file editor,
   * and a door or window whose start is not within 0.2 m of some wall is
   * refused.
   */
  function FinishDrawing(sqrt: real -> real, st: UiState, endPoint: Point, newId: string): UiState
    requires Valid(st)
  {
    match st.startPoint
    case None => st
    case Some(start) =>
      if Distance(sqrt, start, endPoint) < Planner.MinDrawLength then st.(startPoint := None)
      else if IsOpeningTool(st.tool) && Find(st.elements, NearWall(sqrt, start)).None? then st.(startPoint := None)
      else
        var st1 := st.(elements := st.elements + [NewElement(newId, st.tool, start, endPoint)]);
        SelectElement(st1, Some(|st.elements|)).(startPoint := None)
  }

  function MouseDown(sqrt: real -> real, st: UiState, offset: Point): UiState
    requires Valid(st)
  {
    var pos := Position(st, offset);
    if st.tool == SelectTool then
      var handle := if st.selected.Some? then HandleAt(sqrt, st.elements[st.selected.value], pos) else None;
      if handle.Some? then st.(isResizing := true, resizeHandle := handle)
      else SelectElement(st, LatestHitIndex(st.elements, |st.elements|, HitBy(sqrt, pos, true)))
    else st.(isDrawing := true, startPoint := Some(pos))
  }

  function MouseMove(st: UiState, offset: Point, buttons: int): UiState
    requires Valid(st)
  {
    var pos := Position(st, offset);
    if st.isResizing && st.selected.Some? && buttons == 1 then ResizeSelected(st, pos)
    else if st.isDrawing && st.startPoint.Some? then st
    else if st.selected.Some? && buttons == 1 && st.tool == SelectTool then DragSelected(st, pos)
    else st
  }

  /**
   * The final resize of a release throws: the selected route is dragged by
   * its start or end handle, and its `points` is missing or null, so the
   * write to `points[0]` or `points[points.length - 1]` fails.
   */
  predicate ResizeThrows(st: UiState)
    requires Valid(st)
  {
    st.selected.Some? && st.resizeHandle.Some?
    && var e := st.elements[st.selected.value];
       var h := st.resizeHandle.value;
       e.kind == EmergencyRoute && (h == StartHandle || h == EndHandle)
       && WithEndPoint(e.properties, h == StartHandle, Point(0.0, 0.0)).None?
  }

  /**
   * The release listener throws before it resets its flags: in the resize
   * branch when `ResizeThrows`, and in the double-click branch when the
   * selected route's `points` is not an array and `push` fails.
   */
  predicate ReleaseThrows(st: UiState, detail: int)
    requires Valid(st)
  {
    if st.isResizing then ResizeThrows(st)
    else if st.isDrawing && st.startPoint.Some? then false
    else st.selected.Some? && st.elements[st.selected.value].kind == EmergencyRoute && detail == 2
         && RoutePoints(st.elements[st.selected.value].properties).None?
  }

  /**
   * A release; `detail` is the click count, 2 for a double click. When the
   * listener throws, the state stays as it was, flags included.
   */
  function MouseUp(sqrt: real -> real, st: UiState, offset: Point, detail: int, newId: string): UiState
    requires Valid(st)
  {
    var pos := Position(st, offset);
    if ReleaseThrows(st, detail) then st
    else
      var st1 :=
        if st.isResizing then ResizeSelected(st, pos).(isResizing := false, resizeHandle := None)
        else if st.isDrawing && st.startPoint.Some? then FinishDrawing(sqrt, st, pos, newId)
        else if st.selected.Some? && st.elements[st.selected.value].kind == EmergencyRoute && detail == 2 then
          AddPointToRoute(st, pos)
        else st;
      st1.(isDrawing := false)
  }

  function MouseLeave(st: UiState): UiState
  {
    st.(isDrawing := false, isResizing := false)
  }

  function SetActiveTool(st: UiState, tool: Tool): UiState
  {
    var st1 := st.(tool := tool);
    if tool != SelectTool then SelectElement(st1, None) else st1
  }

  function DeleteSelected(st: UiState): UiState
    requires Valid(st)
  {
    match st.selected
    case None => st
    case Some(i) =>
      match FindIndex(st.elements, Planner.HasId(st.elements[i].id))
      case None => st
      case Some(k) => st.(elements := RemoveAt(st.elements, k), selected := None)
  }

  /** The delete button selects the select tool, then deletes. */
  function DeleteButton(st: UiState): UiState
    requires Valid(st)
  {
    DeleteSelected(SetActiveTool(st, SelectTool))
  }

  // ---------------------------------------------------------------- lemmas

  lemma HandlersKeepValid(sqrt: real -> real, st: UiState, offset: Point, buttons: int, detail: int,
                          newId: string, tool: Tool, index: int)
    requires Valid(st)
    ensures Valid(MouseDown(sqrt, st, offset))
    ensures Valid(MouseMove(st, offset, buttons))
    ensures Valid(MouseUp(sqrt, st, offset, detail, newId))
    ensures Valid(MouseLeave(st))
    ensures Valid(SetActiveTool(st, tool))
    ensures Valid(DeleteButton(st))
    ensures Valid(RemovePointFromRoute(st, index))
  {
  }

  /**
   * With the select tool, a press on a handle of the selected element starts
   * a resize with that handle and keeps the selection; any other press
   * selects the latest element under the pointer and, as written, sets
   * `isResizing`.
   */
  lemma SelectPress(sqrt: real -> real, st: UiState, offset: Point)
    requires Valid(st) && st.tool == SelectTool
    ensures var r := MouseDown(sqrt, st, offset);
            var pos := Position(st, offset);
            r.elements == st.elements && r.isResizing
            && (st.selected.Some? && HandleAt(sqrt, st.elements[st.selected.value], pos).Some? ==>
                  r.selected == st.selected && r.resizeHandle == HandleAt(sqrt, st.elements[st.selected.value], pos))
            && (st.selected.None? || HandleAt(sqrt, st.elements[st.selected.value], pos).None? ==>
                  r.selected == LatestHitIndex(st.elements, |st.elements|, HitBy(sqrt, pos, true))
                  && r.resizeHandle.None? && !r.isDrawing)
  {
  }

  /**
   * A release while resizing applies one last resize at the pointer, then
   * clears `isResizing` and the handle, and every release ends the drawing;
   * but when the listener throws, nothing changes, so a route resize that
   * finds no `points` leaves `isResizing` and the handle set. Leaving the
   * canvas ends both drawing and resizing.
   */
  lemma ReleaseEndsGestures(sqrt: real -> real, st: UiState, offset: Point, detail: int, newId: string)
    requires Valid(st)
    ensures var r := MouseUp(sqrt, st, offset, detail, newId);
            !ReleaseThrows(st, detail) ==>
              !r.isDrawing
              && (st.isResizing ==>
                    r == ResizeSelected(st, Position(st, offset)).(isResizing := false, resizeHandle := None, isDrawing := false))
    ensures ReleaseThrows(st, detail) ==> MouseUp(sqrt, st, offset, detail, newId) == st
    ensures st.isResizing && ResizeThrows(st) ==>
              var r := MouseUp(sqrt, st, offset, detail, newId);
              r.isResizing && r.resizeHandle == st.resizeHandle && r.elements == st.elements
    ensures !MouseLeave(st).isDrawing && !MouseLeave(st).isResizing && MouseLeave(st).elements == st.elements
  {
  }

  /**
   * Because selecting sets `isResizing`, and both a change to a drawing tool
   * (`selectElement(null)`) and a finished drawing (`selectElement` of the
   * new element) select, the next press and release with a drawing tool is
   * taken as a resize: nothing is drawn, `isResizing` is cleared, and the
   * start point is left behind. The drawing after that one goes through.
   */
  lemma DrawingAfterSelectDropped(sqrt: real -> real, st: UiState, tool: Tool, down: Point, up: Point, detail: int,
                                  newId: string)
    requires Valid(st) && tool != SelectTool
    ensures var s1 := SetActiveTool(st, tool);
            s1.isResizing && s1.resizeHandle.None? && s1.selected.None?
    ensures st.tool != SelectTool && st.isResizing && st.resizeHandle.None? ==>
              var r := MouseUp(sqrt, MouseDown(sqrt, st, down), up, detail, newId);
              r.elements == st.elements && !r.isResizing && !r.isDrawing && r.startPoint == Some(Position(st, down))
    ensures st.tool != SelectTool && !st.isResizing ==>
              var r := MouseUp(sqrt, MouseDown(sqrt, st, down), up, detail, newId);
              r == FinishDrawing(sqrt, MouseDown(sqrt, st, down), Position(st, up), newId).(isDrawing := false)
  {
  }

  /**
   * Because selecting sets `isResizing`, a click with the select tool that
   * does not grab a handle is released into the resize branch with no
   * handle: the elements are left exactly as they were, so a double click on
   * a route never reaches the branch that would add a point.
   */
  lemma ClickNeverAddsRoutePoint(sqrt: real -> real, st: UiState, down: Point, up: Point, newId: string)
    requires Valid(st) && st.tool == SelectTool
    requires st.selected.None? || HandleAt(sqrt, st.elements[st.selected.value], Position(st, down)).None?
    ensures var r := MouseUp(sqrt, MouseDown(sqrt, st, down), up, 2, newId);
            r.elements == st.elements && !r.isResizing
  {
  }

  /**
   * The double-click branch itself, reached when neither drawing nor
   * resizing: it appends exactly one point to the selected route.
   */
  lemma DoubleClickAppendsPoint(sqrt: real -> real, st: UiState, offset: Point, newId: string)
    requires Valid(st) && !st.isResizing && !st.isDrawing && st.selected.Some?
    requires st.elements[st.selected.value].kind == EmergencyRoute
    requires RoutePoints(st.elements[st.selected.value].properties).Some?
    ensures var r := MouseUp(sqrt, st, offset, 2, newId);
            var i := st.selected.value;
            var pos := Position(st, offset);
            |r.elements| == |st.elements| && r.elements[i].end == pos
            && RoutePoints(r.elements[i].properties).value == RoutePoints(st.elements[i].properties).value + [PointJson(pos)]
            && forall j :: 0 <= j < |st.elements| && j != i ==> r.elements[j] == st.elements[j]
  {
  }

  /**
   * Finishing a drawing: a short drag, or a door or window not started
   * within 0.2 m of a wall, creates nothing; otherwise exactly one element
   * is appended and selected. A new route is 1 m wide and its points are
   * the two ends; any other element is 0.2 m wide.
   */
  lemma FinishDrawingEffect(sqrt: real -> real, st: UiState, endPoint: Point, newId: string)
    requires Valid(st) && st.startPoint.Some?
    ensures var r := FinishDrawing(sqrt, st, endPoint, newId);
            var start := st.startPoint.value;
            var refused := Distance(sqrt, start, endPoint) < Planner.MinDrawLength
                           || (IsOpeningTool(st.tool) && Find(st.elements, NearWall(sqrt, start)).None?);
            r.startPoint.None?
            && (refused ==> r.elements == st.elements && r.selected == st.selected)
            && (!refused ==>
                  |r.elements| == |st.elements| + 1 && r.elements[..|st.elements|] == st.elements
                  && r.selected == Some(|st.elements|) && r.isResizing
                  && var e := r.elements[|st.elements|];
                     e.id == newId && e.start == start && e.end == endPoint && e.kind == KindDrawnBy(st.tool)
                     && (e.kind == EmergencyRoute ==>
                           e.width == RouteWidth
                           && RoutePoints(e.properties) == Some([PointJson(start), PointJson(endPoint)]))
                     && (e.kind != EmergencyRoute ==> e.width == Planner.DefaultWidth))
  {
    var r := FinishDrawing(sqrt, st, endPoint, newId);
    assert r.elements[..|st.elements|] == st.elements || r.elements == st.elements;
  }

  /**
   * Choosing a drawing tool clears the selection (and, through
   * `selectElement`, sets `isResizing`); choosing select keeps it. Delete
   * removes the first element with the selected id and clears the selection.
   */
  lemma ToolAndDelete(st: UiState, tool: Tool)
    requires Valid(st)
    ensures var r := SetActiveTool(st, tool);
            r.tool == tool && r.elements == st.elements
            && r.selected == (if tool == SelectTool then st.selected else None)
    ensures var r := DeleteSelected(st);
            (st.selected.None? ==> r == st)
            && (st.selected.Some? ==>
                  var id := st.elements[st.selected.value].id;
                  exists k :: 0 <= k <= st.selected.value && st.elements[k].id == id
                              && (forall j :: 0 <= j < k ==> st.elements[j].id != id)
                              && r.elements == st.elements[..k] + st.elements[k + 1..] && r.selected.None?)
  {
    if st.selected.Some? {
      var i := st.selected.value;
      assert Planner.HasId(st.elements[i].id)(st.elements[i]);
    }
  }

  // ------------------------------------------------------------ the editor

  class Editor {
    var elements: seq<PlanElement>
    var selected: Option<nat>
    var tool: Tool
    var isDrawing: bool
    var startPoint: Option<Point>
    var scale: real
    var pan: Point
    var isResizing: bool
    var resizeHandle: Option<ResizeHandle>

    function Snapshot(): UiState
      reads this
    {
      UiState(elements, selected, tool, isDrawing, startPoint, scale, pan, isResizing, resizeHandle)
    }

    constructor (scale: real, pan: Point, elements: seq<PlanElement>)
      requires scale > 0.0
      ensures Snapshot() == UiState(elements, None, SelectTool, false, None, scale, pan, false, None)
    {
      this.elements := elements;
      selected := None;
      tool := SelectTool;
      isDrawing := false;
      startPoint := None;
      this.scale := scale;
      this.pan := pan;
      isResizing := false;
      resizeHandle := None;
    }

    method GetCanvasMousePosition(offset: Point) returns (pos: Point)
      requires Valid(Snapshot())
      ensures pos == Position(Snapshot(), offset)
    {
      var x := (offset.x - pan.x) / scale;
      var y := (offset.y - pan.y) / scale;
      if tool == DrawTool(WallType) {
        return Point(Round(x / GridSize) as real * GridSize, Round(y / GridSize) as real * GridSize);
      }
      return Point(x, y);
    }

    method Select(element: Option<nat>)
      modifies this
      ensures Snapshot() == SelectElement(old(Snapshot()), element)
    {
      selected := element;
      isResizing := true;
      isDrawing := false;
      resizeHandle := None;
    }

    method HandleMouseDown(sqrt: real -> real, offset: Point)
      requires Valid(Snapshot())
      modifies this
      ensures Snapshot() == MouseDown(sqrt, old(Snapshot()), offset)
    {
      var pos := GetCanvasMousePosition(offset);
      if tool == SelectTool {
        if selected.Some? {
          var handle := HandleAt(sqrt, elements[selected.value], pos);
          if handle.Some? {
            isResizing := true;
            resizeHandle := handle;
            return;
          }
        }
        var element := FindElementAtPosition(sqrt, elements, pos, true);
        Select(element);
      } else {
        isDrawing := true;
        startPoint := Some(pos);
      }
    }

    method HandleMouseMove(offset: Point, buttons: int)
      requires Valid(Snapshot())
      modifies this
      ensures Snapshot() == MouseMove(old(Snapshot()), offset, buttons)
    {
      var pos := GetCanvasMousePosition(offset);
      if isResizing && selected.Some? && buttons == 1 {
        ResizeSelectedElement(pos);
      } else if isDrawing && startPoint.Some? {
        // only the preview and the status line change
      } else if selected.Some? && buttons == 1 && tool == SelectTool {
        var i := selected.value;
        elements := elements[i := Planner.CentredOn(elements[i], pos)];
      }
    }

    method HandleMouseUp(sqrt: real -> real, offset: Point, detail: int, newId: string)
      requires Valid(Snapshot())
      modifies this
      ensures Snapshot() == MouseUp(sqrt, old(Snapshot()), offset, detail, newId)
    {
      var pos := GetCanvasMousePosition(offset);
      if ReleaseThrows(Snapshot(), detail) {
        // the listener stops at the exception, before its resets
        return;
      }
      if isResizing {
        ResizeSelectedElement(pos);
        isResizing := false;
        resizeHandle := None;
      } else if isDrawing && startPoint.Some? {
        FinishDrawingAt(sqrt, pos, newId);
      } else if selected.Some? && elements[selected.value].kind == EmergencyRoute && detail == 2 {
        AddPointToEmergencyRoute(pos);
      }
      isDrawing := false;
    }

    method HandleMouseLeave()
      modifies this
      ensures Snapshot() == MouseLeave(old(Snapshot()))
    {
      isDrawing := false;
      isResizing := false;
    }

    method SetTool(newTool: Tool)
      modifies this
      ensures Snapshot() == SetActiveTool(old(Snapshot()), newTool)
    {
      tool := newTool;
      if newTool != SelectTool {
        Select(None);
      }
    }

    method ResizeSelectedElement(pos: Point)
      requires Valid(Snapshot())
      modifies this
      ensures Snapshot() == ResizeSelected(old(Snapshot()), pos)
    {
      if selected.None? || resizeHandle.None? {
        return;
      }
      var i := selected.value;
      elements := elements[i := Resized(elements[i], resizeHandle.value, pos)];
    }

    method AddPointToEmergencyRoute(pos: Point)
      requires Valid(Snapshot())
      modifies this
      ensures Snapshot() == AddPointToRoute(old(Snapshot()), pos)
    {
      if selected.None? || elements[selected.value].kind != EmergencyRoute {
        return;
      }
      var i := selected.value;
      var points := RoutePoints(elements[i].properties);
      if points.None? {
        return;
      }
      var element := elements[i];
      elements := elements[i := element.(properties := element.properties["points" := JArr(points.value + [PointJson(pos)])],
                                         end := pos)];
    }

    method RemovePointFromEmergencyRoute(index: int)
      requires Valid(Snapshot())
      modifies this
      ensures Snapshot() == RemovePointFromRoute(old(Snapshot()), index)
    {
      if selected.None? || elements[selected.value].kind != EmergencyRoute {
        return;
      }
      var i := selected.value;
      var edited := WithoutPoint(elements[i], index);
      if edited.Some? {
        elements := elements[i := edited.value];
      }
    }

    method FinishDrawingAt(sqrt: real -> real, endPoint: Point, newId: string)
      requires Valid(Snapshot())
      modifies this
      ensures Snapshot() == FinishDrawing(sqrt, old(Snapshot()), endPoint, newId)
    {
      if startPoint.None? {
        return;
      }
      var start := startPoint.value;
      var distance := sqrt(SqDist(start, endPoint));
      if distance < Planner.MinDrawLength {
        startPoint := None;
        return;
      }
      if IsOpeningTool(tool) {
        var wall := FindWallAtPosition(sqrt, elements, start);
        if wall.None? {
          startPoint := None;
          return;
        }
      }
      elements := elements + [NewElement(newId, tool, start, endPoint)];
      Select(Some(|elements| - 1));
      startPoint := None;
    }

    method DeleteSelectedElement()
      requires Valid(Snapshot())
      modifies this
      ensures Snapshot() == DeleteSelected(old(Snapshot()))
    {
      if selected.None? {
        return;
      }
      var id := elements[selected.value].id;
      var index := 0;
      while index < |elements| && elements[index].id != id
        invariant 0 <= index <= |elements|
        invariant forall j :: 0 <= j < index ==> elements[j].id != id
      {
        index := index + 1;
      }
      if index < |elements| {
        elements := RemoveAt(elements, index);
        selected := None;
      }
    }
  }
}
