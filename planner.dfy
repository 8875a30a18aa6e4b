// The single-file metre editor (static/js/floorplanner.js): a tool bar, a
// canvas on which a drag with a drawing tool creates an element and a click
// with the select tool picks one, dragging of the picked element, and the
// properties form's setter and delete button. Each handler is specified by a
// function from the state before the event to the state after it.

module Planner {
  import opened Wrappers
  import opened Geometry
  import opened PlanModel

  /**
   * `currentState`. The selection, an object reference in the source, is
   * the index of that object in `elements`.
   */
  datatype PlannerState = PlannerState(
    elements: seq<PlanElement>,
    selected: Option<nat>,
    tool: Tool,
    isDrawing: bool,
    startPoint: Option<Point>,
    scale: real,
    pan: Point)

  predicate Valid(st: PlannerState)
  {
    st.scale > 0.0 && (st.selected.Some? ==> st.selected.value < |st.elements|)
  }

  // ----------------------------------------------------------------- pieces

  /** The pointer in metres; it snaps to the grid for every tool but select. */
  function Position(st: PlannerState, offset: Point): Point
    requires st.scale > 0.0
  {
    CanvasPosition(offset, st.pan, st.scale, st.tool != SelectTool)
  }

  /** The `properties` a newly drawn element of type `k` starts with. */
  function DefaultProperties(k: PlanType): map<string, Json>
  {
    if k == Machine then
      map["name" := JStr("Machine"), "description" := JStr("Equipment description"), "hazardLevel" := JNum(1.0)]
    else if k == Closet then
      map["contentType" := JStr("chemical"), "description" := JStr("Hazardous materials storage")]
    else map[]
  }

  /** Shortest drag, in metres, that creates an element. */
  const MinDrawLength: real := 0.2

  /** Width of a newly drawn element, in metres. */
  const DefaultWidth: real := 0.2

  /** `e` moved by `(dx, dy)`. */
  function Shifted(e: PlanElement, dx: real, dy: real): PlanElement
  {
    e.(start := Point(e.start.x + dx, e.start.y + dy), end := Point(e.end.x + dx, e.end.y + dy))
  }

  function Midpoint(e: PlanElement): Point
  {
    Point((e.start.x + e.end.x) / 2.0, (e.start.y + e.end.y) / 2.0)
  }

  /** `e` moved so that its midpoint is `pos`. */
  function CentredOn(e: PlanElement, pos: Point): PlanElement
  {
    Shifted(e, pos.x - (e.start.x + e.end.x) / 2.0, pos.y - (e.start.y + e.end.y) / 2.0)
  }

  /** Centring moves the midpoint onto the pointer and keeps the element's extent `end - start`. */
  lemma CentredOnPointer(e: PlanElement, pos: Point)
    ensures Midpoint(CentredOn(e, pos)) == pos
    ensures CentredOn(e, pos).end.x - CentredOn(e, pos).start.x == e.end.x - e.start.x
    ensures CentredOn(e, pos).end.y - CentredOn(e, pos).start.y == e.end.y - e.start.y
    ensures CentredOn(e, pos).(start := e.start, end := e.end) == e
  {
  }

  /**
   * `updateElementProperty` on one element: a one-part path writes that
   * field; a dotted path below `properties` walks and creates objects as
   * `SetPath` does.
   */
  function UpdatedElement(e: PlanElement, parts: seq<string>, value: Json): PlanElement
    requires |parts| >= 1
  {
    if |parts| == 1 then
      if parts[0] == "element_type" && value.JStr? then e.(kind := TypeNamed(value.s))
      else if parts[0] == "width" && value.JNum? then e.(width := value.n)
      else if parts[0] == "properties" && value.JObj? then e.(properties := value.fields)
      else e
    else if parts[0] == "properties" then e.(properties := SetPath(e.properties, parts[1..], value))
    else e
  }

  function HasId(id: string): PlanElement -> bool
  {
    (e: PlanElement) => e.id == id
  }

  // --------------------------------------------------------------- handlers

  /** `dragSelectedElement(pos)`. */
  function DragSelected(st: PlannerState, pos: Point): PlannerState
    requires Valid(st)
  {
    match st.selected
    case None => st
    case Some(i) => st.(elements := st.elements[i := CentredOn(st.elements[i], pos)])
  }

  /** `finishDrawing(endPoint)`, with `newId` the id `generateId` hands out. */
  function FinishDrawing(sqrt: real -> real, st: PlannerState, endPoint: Point, newId: string): PlannerState
    requires Valid(st)
  {
    match st.startPoint
    case None => st
    case Some(start) =>
      if Distance(sqrt, start, endPoint) < MinDrawLength then st.(startPoint := None)
      else
        var kind := KindDrawnBy(st.tool);
        var newElement := PlanElement(newId, kind, start, endPoint, DefaultWidth, DefaultProperties(kind));
        st.(elements := st.elements + [newElement], selected := Some(|st.elements|), startPoint := None)
  }

  function MouseDown(sqrt: real -> real, st: PlannerState, offset: Point): PlannerState
    requires Valid(st)
  {
    var pos := Position(st, offset);
    if st.tool == SelectTool then st.(selected := LatestHitIndex(st.elements, |st.elements|, HitBy(sqrt, pos, false)))
    else st.(isDrawing := true, startPoint := Some(pos))
  }

  /** A move with `buttons` pressed; while drawing only the preview changes. */
  function MouseMove(st: PlannerState, offset: Point, buttons: int): PlannerState
    requires Valid(st)
  {
    if st.isDrawing && st.startPoint.Some? then st
    else if st.selected.Some? && buttons == 1 && st.tool == SelectTool then DragSelected(st, Position(st, offset))
    else st
  }

  function MouseUp(sqrt: real -> real, st: PlannerState, offset: Point, newId: string): PlannerState
    requires Valid(st)
  {
    var st1 := if st.isDrawing && st.startPoint.Some? then FinishDrawing(sqrt, st, Position(st, offset), newId) else st;
    st1.(isDrawing := false)
  }

  function MouseLeave(st: PlannerState): PlannerState
  {
    st.(isDrawing := false)
  }

  function SetActiveTool(st: PlannerState, tool: Tool): PlannerState
  {
    st.(tool := tool, selected := if tool != SelectTool then None else st.selected)
  }

  function UpdateElementProperty(st: PlannerState, parts: seq<string>, value: Json): PlannerState
    requires Valid(st) && |parts| >= 1
  {
    match st.selected
    case None => st
    case Some(i) => st.(elements := st.elements[i := UpdatedElement(st.elements[i], parts, value)])
  }

  /** `deleteSelectedElement`: removes the FIRST element carrying the selected element's id. */
  function DeleteSelected(st: PlannerState): PlannerState
    requires Valid(st)
  {
    match st.selected
    case None => st
    case Some(i) =>
      match FindIndex(st.elements, HasId(st.elements[i].id))
      case None => st
      case Some(k) => st.(elements := RemoveAt(st.elements, k), selected := None)
  }

  // ----------------------------------------------------------------- lemmas

  /** Every handler keeps the selection inside the list and the scale positive. */
  lemma HandlersKeepValid(sqrt: real -> real, st: PlannerState, offset: Point, buttons: int, newId: string,
                          tool: Tool, parts: seq<string>, value: Json)
    requires Valid(st) && |parts| >= 1
    ensures Valid(MouseDown(sqrt, st, offset))
    ensures Valid(MouseMove(st, offset, buttons))
    ensures Valid(MouseUp(sqrt, st, offset, newId))
    ensures Valid(MouseLeave(st))
    ensures Valid(SetActiveTool(st, tool))
    ensures Valid(UpdateElementProperty(st, parts, value))
    ensures Valid(DeleteSelected(st))
  {
  }

  /**
   * With the select tool a press selects the latest element under the
   * pointer (routes are never hit here), or nothing; with a drawing tool it
   * starts a drawing at the snapped pointer and keeps the selection.
   */
  lemma MouseDownEffect(sqrt: real -> real, st: PlannerState, offset: Point)
    requires Valid(st)
    ensures var r := MouseDown(sqrt, st, offset);
            var pos := Position(st, offset);
            r.elements == st.elements
            && (st.tool == SelectTool ==>
                  r.selected == LatestHitIndex(st.elements, |st.elements|, HitBy(sqrt, pos, false))
                  && (r.selected.Some? ==> st.elements[r.selected.value].kind != EmergencyRoute))
            && (st.tool != SelectTool ==>
                  r.isDrawing && r.startPoint == Some(pos) && r.selected == st.selected
                  && OnGrid(pos.x, GridSize) && OnGrid(pos.y, GridSize))
  {
    FoundElementIsLatestHit(sqrt, st.elements, Position(st, offset), false);
    CanvasPositionInvertsView(offset, st.pan, st.scale, true);
  }

  /**
   * A drag with the select tool centres the selected element on the pointer,
   * keeps its extent and leaves every other element as it was.
   */
  lemma DragCentresSelected(st: PlannerState, pos: Point)
    requires Valid(st) && st.selected.Some?
    ensures var r := DragSelected(st, pos);
            var i := st.selected.value;
            |r.elements| == |st.elements| && Midpoint(r.elements[i]) == pos
            && r.elements[i].end.x - r.elements[i].start.x == st.elements[i].end.x - st.elements[i].start.x
            && r.elements[i].end.y - r.elements[i].start.y == st.elements[i].end.y - st.elements[i].start.y
            && (forall j :: 0 <= j < |st.elements| && j != i ==> r.elements[j] == st.elements[j])
  {
    CentredOnPointer(st.elements[st.selected.value], pos);
  }

  /**
   * Finishing a drawing: a drag shorter than 0.2 m creates nothing; a longer
   * one appends exactly one element, from a copy of the start point to the
   * end point, 0.2 m wide, of the tool's type with that type's default
   * properties, and selects it. Either way the start point is cleared.
   */
  lemma FinishDrawingEffect(sqrt: real -> real, st: PlannerState, endPoint: Point, newId: string)
    requires Valid(st) && st.startPoint.Some?
    ensures var r := FinishDrawing(sqrt, st, endPoint, newId);
            var start := st.startPoint.value;
            r.startPoint.None? && r.tool == st.tool
            && (Distance(sqrt, start, endPoint) < MinDrawLength ==> r.elements == st.elements && r.selected == st.selected)
            && (Distance(sqrt, start, endPoint) >= MinDrawLength ==>
                  |r.elements| == |st.elements| + 1 && r.elements[..|st.elements|] == st.elements
                  && r.selected == Some(|st.elements|)
                  && var e := r.elements[|st.elements|];
                     e.id == newId && e.start == start && e.end == endPoint && e.width == DefaultWidth
                     && e.kind == KindDrawnBy(st.tool) && e.properties == DefaultProperties(e.kind))
  {
    var r := FinishDrawing(sqrt, st, endPoint, newId);
    if Distance(sqrt, st.startPoint.value, endPoint) >= MinDrawLength {
      assert r.elements[..|st.elements|] == st.elements;
    }
  }

  /**
   * Releasing the button always ends the drawing; without a drawing in
   * progress nothing else changes.
   */
  lemma MouseUpEndsDrawing(sqrt: real -> real, st: PlannerState, offset: Point, newId: string)
    requires Valid(st)
    ensures !MouseUp(sqrt, st, offset, newId).isDrawing
    ensures !(st.isDrawing && st.startPoint.Some?) ==> MouseUp(sqrt, st, offset, newId) == st.(isDrawing := false)
  {
  }

  /**
   * Updating a property changes only the selected element; a dotted path
   * below `properties` that is reachable then reads back the value, and
   * without a selection nothing changes.
   */
  lemma UpdatePropertyEffect(st: PlannerState, parts: seq<string>, value: Json)
    requires Valid(st) && |parts| >= 2 && parts[0] == "properties"
    ensures var r := UpdateElementProperty(st, parts, value);
            |r.elements| == |st.elements| && r.selected == st.selected
            && (st.selected.None? ==> r == st)
            && (st.selected.Some? ==>
                  var i := st.selected.value;
                  (forall j :: 0 <= j < |st.elements| && j != i ==> r.elements[j] == st.elements[j])
                  && (Reachable(st.elements[i].properties, parts[1..]) ==>
                        GetPath(r.elements[i].properties, parts[1..]) == Some(value))
                  && r.elements[i].(properties := st.elements[i].properties) == st.elements[i])
  {
    if st.selected.Some? {
      SetThenGet(st.elements[st.selected.value].properties, parts[1..], value);
    }
  }

  /**
   * Deleting removes exactly one element, the first with the selected
   * element's id (which is found, at or before the selection), keeps the
   * others in order and clears the selection; without a selection nothing
   * changes.
   */
  lemma DeleteRemovesFirstWithId(st: PlannerState)
    requires Valid(st)
    ensures var r := DeleteSelected(st);
            (st.selected.None? ==> r == st)
            && (st.selected.Some? ==>
                  var id := st.elements[st.selected.value].id;
                  exists k :: 0 <= k <= st.selected.value && st.elements[k].id == id
                              && (forall j :: 0 <= j < k ==> st.elements[j].id != id)
                              && r.elements == st.elements[..k] + st.elements[k + 1..]
                              && r.selected.None?)
  {
    if st.selected.Some? {
      var i := st.selected.value;
      var f := FindIndex(st.elements, HasId(st.elements[i].id));
      assert HasId(st.elements[i].id)(st.elements[i]);
      var k := f.value;
      assert k <= i;
    }
  }

  /** Changing to a drawing tool drops the selection; choosing select keeps it. */
  lemma SetActiveToolEffect(st: PlannerState, tool: Tool)
    ensures SetActiveTool(st, tool).tool == tool
    ensures SetActiveTool(st, tool).selected == (if tool == SelectTool then st.selected else None)
    ensures SetActiveTool(st, tool).elements == st.elements
  {
  }

  // ------------------------------------------------------------ the editor

  class Editor {
    var elements: seq<PlanElement>
    var selected: Option<nat>
    var tool: Tool
    var isDrawing: bool
    var startPoint: Option<Point>
    var scale: real
    var pan: Point

    function Snapshot(): PlannerState
      reads this
    {
      PlannerState(elements, selected, tool, isDrawing, startPoint, scale, pan)
    }

    /** The initial `currentState`, with the scale and pan fitted to the canvas. */
    constructor (scale: real, pan: Point)
      requires scale > 0.0
      ensures Snapshot() == PlannerState([], None, SelectTool, false, None, scale, pan)
      ensures Valid(Snapshot())
    {
      elements := [];
      selected := None;
      tool := SelectTool;
      isDrawing := false;
      startPoint := None;
      this.scale := scale;
      this.pan := pan;
    }

    method GetCanvasMousePosition(offset: Point) returns (pos: Point)
      requires Valid(Snapshot())
      ensures pos == Position(Snapshot(), offset)
    {
      var x := (offset.x - pan.x) / scale;
      var y := (offset.y - pan.y) / scale;
      if tool != SelectTool {
        return Point(Round(x / GridSize) as real * GridSize, Round(y / GridSize) as real * GridSize);
      }
      return Point(x, y);
    }

    method HandleMouseDown(sqrt: real -> real, offset: Point)
      requires Valid(Snapshot())
      modifies this
      ensures Snapshot() == MouseDown(sqrt, old(Snapshot()), offset)
    {
      var pos := GetCanvasMousePosition(offset);
      if tool == SelectTool {
        var element := FindElementAtPosition(sqrt, elements, pos, false);
        selected := element;
      } else {
        isDrawing := true;
        startPoint := Some(pos);
      }
    }

    method HandleMouseMove(offset: Point, buttons: int)
      requires Valid(Snapshot())
      modifies this
      ensures Snapshot() == MouseMove(old(Snapshot()), offset, buttons)
    {
      var pos := GetCanvasMousePosition(offset);
      if isDrawing && startPoint.Some? {
        // only the preview is redrawn
      } else if selected.Some? && buttons == 1 && tool == SelectTool {
        DragSelectedElement(pos);
      }
    }

    method HandleMouseUp(sqrt: real -> real, offset: Point, newId: string)
      requires Valid(Snapshot())
      modifies this
      ensures Snapshot() == MouseUp(sqrt, old(Snapshot()), offset, newId)
    {
      if isDrawing && startPoint.Some? {
        var pos := GetCanvasMousePosition(offset);
        FinishDrawingAt(sqrt, pos, newId);
      }
      isDrawing := false;
    }

    method HandleMouseLeave()
      modifies this
      ensures Snapshot() == MouseLeave(old(Snapshot()))
    {
      isDrawing := false;
    }

    method SetTool(newTool: Tool)
      modifies this
      ensures Snapshot() == SetActiveTool(old(Snapshot()), newTool)
    {
      tool := newTool;
      if newTool != SelectTool {
        selected := None;
      }
    }

    method DragSelectedElement(pos: Point)
      requires Valid(Snapshot())
      modifies this
      ensures Snapshot() == DragSelected(old(Snapshot()), pos)
    {
      if selected.None? {
        return;
      }
      var i := selected.value;
      var element := elements[i];
      var deltaX := pos.x - (element.start.x + element.end.x) / 2.0;
      var deltaY := pos.y - (element.start.y + element.end.y) / 2.0;
      elements := elements[i := Shifted(element, deltaX, deltaY)];
    }

    method UpdateProperty(parts: seq<string>, value: Json)
      requires Valid(Snapshot()) && |parts| >= 1
      modifies this
      ensures Snapshot() == UpdateElementProperty(old(Snapshot()), parts, value)
    {
      if selected.None? {
        return;
      }
      var i := selected.value;
      elements := elements[i := UpdatedElement(elements[i], parts, value)];
    }

    method DeleteSelectedElement()
      requires Valid(Snapshot())
      modifies this
      ensures Snapshot() == DeleteSelected(old(Snapshot()))
    {
      if selected.None? {
        return;
      }
      var id := elements[selected.value].id;
      var index := 0;
      while index < |elements| && elements[index].id != id
        invariant 0 <= index <= |elements|
        invariant forall j :: 0 <= j < index ==> elements[j].id != id
      {
        index := index + 1;
      }
      if index < |elements| {
        elements := RemoveAt(elements, index);
        selected := None;
      }
    }

    method FinishDrawingAt(sqrt: real -> real, endPoint: Point, newId: string)
      requires Valid(Snapshot())
      modifies this
      ensures Snapshot() == FinishDrawing(sqrt, old(Snapshot()), endPoint, newId)
    {
      if startPoint.None? {
        return;
      }
      var start := startPoint.value;
      var distance := sqrt(SqDist(start, endPoint));
      if distance < MinDrawLength {
        startPoint := None;
        return;
      }
      var kind := KindDrawnBy(tool);
      var newElement := PlanElement(newId, kind, start, endPoint, DefaultWidth, DefaultProperties(kind));
      elements := elements + [newElement];
      selected := Some(|elements| - 1);
      startPoint := None;
    }
  }
}
