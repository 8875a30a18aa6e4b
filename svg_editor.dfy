// The SVG layout editor (static/drawing.js): rectangles, lines, circles
// and placed symbol images on a 20-pixel grid, moved by dragging, resized
// from the north-west handle and saved as one flat record per shape.
// Coordinates are the SVG coordinates of the pointer; converting from
// screen coordinates is the browser's.

module SvgEditor {
  import opened Wrappers
  import opened Geometry
  import PlanModel

  /** Size of a grid cell in pixels. */
  const GridSize: real := 20.0

  /** `snapToGrid(x, y)`: both coordinates to the nearest multiple of 20. */
  function Snap(p: Point): Point
  {
    Point(SnapToGrid(p.x, GridSize), SnapToGrid(p.y, GridSize))
  }

  /**
   * A snapped point lies on the grid, within half a cell of the pointer on
   * each axis, and snapping it again changes nothing.
   */
  lemma SnapProperties(p: Point)
    ensures OnGrid(Snap(p).x, GridSize) && OnGrid(Snap(p).y, GridSize)
    ensures Abs(Snap(p).x - p.x) <= GridSize / 2.0 && Abs(Snap(p).y - p.y) <= GridSize / 2.0
    ensures Snap(Snap(p)) == Snap(p)
  {
    SnapToGridNearest(p.x, GridSize);
    SnapToGridNearest(p.y, GridSize);
    SnapToGridIdempotent(p.x, GridSize);
    SnapToGridIdempotent(p.y, GridSize);
  }

  /** The geometry of an SVG shape; an `Image` is a placed symbol. */
  datatype Shape =
    | Rect(x: real, y: real, width: real, height: real)
    | Line(x1: real, y1: real, x2: real, y2: real)
    | Circle(cx: real, cy: real, r: real)
    | Image(x: real, y: real, width: real, height: real)

  /**
   * A shape with its `fill` and `stroke` attributes ("" when absent), its
   * `data-symbol-kind` and its `data-element-id` ("" until the server has
   * assigned one).
   */
  datatype SvgElement = SvgElement(shape: Shape, fill: string, stroke: string, symbolKind: string, elementId: string)

  datatype Symbol = Symbol(kind: string, width: real, height: real)

  datatype SvgTool = SelectTool | RectTool | LineTool | CircleTool | SymbolTool | OtherTool(name: string)

  predicate IsShapeTool(t: SvgTool)
  {
    t == RectTool || t == LineTool || t == CircleTool
  }

  /** `createSvgElement(type, data)` for the three drawing tools: a shape of size zero at the start point. */
  function NewShape(tool: SvgTool, start: Point): SvgElement
    requires IsShapeTool(tool)
  {
    match tool
    case RectTool => SvgElement(Rect(start.x, start.y, 0.0, 0.0), "rgba(173, 216, 230, 0.3)", "#4a90e2", "", "")
    case LineTool => SvgElement(Line(start.x, start.y, start.x, start.y), "none", "#e24a4a", "", "")
    case CircleTool => SvgElement(Circle(start.x, start.y, 0.0), "rgba(144, 238, 144, 0.3)", "#4ae24a", "", "")
  }

  /** `createSvgElement('symbol', ...)`: an image of the symbol's size centred on the point. */
  function NewSymbol(symbol: Symbol, at: Point): SvgElement
  {
    SvgElement(Image(at.x - symbol.width / 2.0, at.y - symbol.height / 2.0, symbol.width, symbol.height), "", "", symbol.kind, "")
  }

  lemma NewSymbolIsCentred(symbol: Symbol, at: Point)
    ensures var s := NewSymbol(symbol, at).shape;
            s.x + s.width / 2.0 == at.x && s.y + s.height / 2.0 == at.y
            && s.width == symbol.width && s.height == symbol.height
  {
  }

  /**
   * `updateSvgElement(el, type, data)`: a rectangle becomes the box spanned
   * by the start and the pointer, a line moves only its second end, a
   * circle's radius becomes the distance from the start to the pointer. A
   * shape that is not of the tool's kind is left alone.
   */
  function DragShape(sqrt: real -> real, s: Shape, tool: SvgTool, start: Point, current: Point): Shape
  {
    if tool == RectTool && s.Rect? then
      Rect(Min(current.x, start.x), Min(current.y, start.y), Abs(current.x - start.x), Abs(current.y - start.y))
    else if tool == LineTool && s.Line? then
      s.(x2 := current.x, y2 := current.y)
    else if tool == CircleTool && s.Circle? then
      s.(r := sqrt(SqDist(start, current)))
    else s
  }

  /**
   * A rectangle drag normalises: the corner is the smaller coordinate on
   * each axis, the size is non-negative, and the box has the start and the
   * pointer as opposite corners. A line keeps its first end. A circle's
   * radius is the distance from the start to the pointer.
   */
  lemma DragShapeMeaning(sqrt: real -> real, s: Shape, start: Point, current: Point)
    requires IsSqrt(sqrt)
    ensures s.Rect? ==>
              var r := DragShape(sqrt, s, RectTool, start, current);
              r.Rect? && r.width >= 0.0 && r.height >= 0.0
              && r.x == Min(start.x, current.x) && r.y == Min(start.y, current.y)
              && r.x + r.width == Max(start.x, current.x) && r.y + r.height == Max(start.y, current.y)
    ensures s.Line? ==>
              DragShape(sqrt, s, LineTool, start, current) == Line(s.x1, s.y1, current.x, current.y)
    ensures s.Circle? ==>
              var c := DragShape(sqrt, s, CircleTool, start, current);
              c.Circle? && c.cx == s.cx && c.cy == s.cy && c.r == Distance(sqrt, start, current) && c.r >= 0.0
  {
    DistanceFacts(sqrt, start, current);
  }

  /** `updateElementPosition(el, dx, dy)`. */
  function Translate(s: Shape, dx: real, dy: real): Shape
  {
    match s
    case Rect(x, y, w, h) => Rect(x + dx, y + dy, w, h)
    case Image(x, y, w, h) => Image(x + dx, y + dy, w, h)
    case Circle(cx, cy, r) => Circle(cx + dx, cy + dy, r)
    case Line(x1, y1, x2, y2) => Line(x1 + dx, y1 + dy, x2 + dx, y2 + dy)
  }

  /** The point the save record reports as `x`, `y`: the corner, the centre or the first end. */
  function Anchor(s: Shape): Point
  {
    match s
    case Rect(x, y, _, _) => Point(x, y)
    case Image(x, y, _, _) => Point(x, y)
    case Circle(cx, cy, _) => Point(cx, cy)
    case Line(x1, y1, _, _) => Point(x1, y1)
  }

  /**
   * Moving a shape shifts its anchor by exactly (dx, dy) and keeps its size
   * (a line keeps the vector between its ends); moving by zero is the
   * identity and two moves add up.
   */
  lemma TranslateIsRigid(s: Shape, dx: real, dy: real, ex: real, ey: real)
    ensures Anchor(Translate(s, dx, dy)) == Point(Anchor(s).x + dx, Anchor(s).y + dy)
    ensures Translate(s, dx, dy).Rect? == s.Rect? && Translate(s, dx, dy).Image? == s.Image?
    ensures Translate(s, dx, dy).Circle? == s.Circle? && Translate(s, dx, dy).Line? == s.Line?
    ensures (s.Rect? || s.Image?) ==> Translate(s, dx, dy).width == s.width && Translate(s, dx, dy).height == s.height
    ensures s.Circle? ==> Translate(s, dx, dy).r == s.r
    ensures s.Line? ==> Translate(s, dx, dy).x2 - Translate(s, dx, dy).x1 == s.x2 - s.x1
                        && Translate(s, dx, dy).y2 - Translate(s, dx, dy).y1 == s.y2 - s.y1
    ensures Translate(s, 0.0, 0.0) == s
    ensures Translate(Translate(s, dx, dy), ex, ey) == Translate(s, dx + ex, dy + ey)
  {
  }

  /**
   * `resizeElement(element, handle, newPos)`: only the north-west handle
   * does anything; it moves the corner to the pointer and keeps the
   * opposite corner. Handles exist only on rectangles and images.
   */
  function Resize(s: Shape, position: string, newPos: Point): Shape
  {
    if position == "nw" && (s.Rect? || s.Image?) then
      var w := s.width + (s.x - newPos.x);
      var h := s.height + (s.y - newPos.y);
      s.(x := newPos.x, y := newPos.y, width := w, height := h)
    else s
  }

  lemma ResizeKeepsFarCorner(s: Shape, position: string, newPos: Point)
    ensures var r := Resize(s, position, newPos);
            position == "nw" && (s.Rect? || s.Image?) ==>
              r.Rect? == s.Rect? && r.Image? == s.Image?
              && r.x == newPos.x && r.y == newPos.y
              && r.x + r.width == s.x + s.width && r.y + r.height == s.y + s.height
    ensures position != "nw" ==> Resize(s, position, newPos) == s
  {
  }

  // ------------------------------------------------------------- saving

  /** The tag name of the shape's SVG element. */
  function TagName(s: Shape): string
  {
    match s
    case Rect(_, _, _, _) => "rect"
    case Line(_, _, _, _) => "line"
    case Circle(_, _, _) => "circle"
    case Image(_, _, _, _) => "image"
  }

  /** `a || b` on attribute strings: an absent or empty attribute falls back to the default. */
  function OrDefault(s: string, default: string): string
  {
    if s == "" then default else s
  }

  /**
   * The record `saveElementToServer` posts. Images carry the element type
   * `symbol` (their `data-element-type`) and the symbol kind.
   */
  function Payload(buildingId: string, el: SvgElement): map<string, PlanModel.Json>
  {
    var s := el.shape;
    var a := Anchor(s);
    var base := map["building_id" := PlanModel.JStr(buildingId), "element_type" := PlanModel.JStr(if s.Image? then "symbol" else TagName(s)),
                    "x" := PlanModel.JNum(a.x), "y" := PlanModel.JNum(a.y)];
    var shaped := match s
      case Rect(_, _, w, h) => base["width" := PlanModel.JNum(w)]["height" := PlanModel.JNum(h)]
      case Image(_, _, w, h) => base["width" := PlanModel.JNum(w)]["height" := PlanModel.JNum(h)]["symbol_kind" := PlanModel.JStr(el.symbolKind)]
      case Line(_, _, x2, y2) => base["x2" := PlanModel.JNum(x2)]["y2" := PlanModel.JNum(y2)]
      case Circle(_, _, r) => base["radius" := PlanModel.JNum(r)];
    var styled := shaped["fill" := PlanModel.JStr(OrDefault(el.fill, "transparent"))]["stroke" := PlanModel.JStr(OrDefault(el.stroke, "black"))];
    if el.elementId == "" then styled else styled["id" := PlanModel.JStr(el.elementId)]
  }

  /** The fields the record has besides the common ones, by shape. */
  function ShapeKeys(s: Shape): set<string>
  {
    match s
    case Rect(_, _, _, _) => {"width", "height"}
    case Image(_, _, _, _) => {"width", "height", "symbol_kind"}
    case Line(_, _, _, _) => {"x2", "y2"}
    case Circle(_, _, _) => {"radius"}
  }

  /**
   * The record has exactly the common fields, the shape's own fields and an
   * `id` only once one has been assigned; rectangles and images carry their
   * size, images as type `symbol` with their kind, lines their second end
   * and circles their radius; fill and stroke default to `transparent` and
   * `black`.
   */
  lemma PayloadFields(buildingId: string, el: SvgElement)
    ensures var p := Payload(buildingId, el);
            p.Keys == {"building_id", "element_type", "x", "y", "fill", "stroke"} + ShapeKeys(el.shape)
                      + (if el.elementId == "" then {} else {"id"})
    ensures var p := Payload(buildingId, el);
            var s := el.shape;
            p["x"] == PlanModel.JNum(Anchor(s).x) && p["y"] == PlanModel.JNum(Anchor(s).y)
            && p["element_type"] == PlanModel.JStr(if s.Image? then "symbol" else TagName(s))
            && ((s.Rect? || s.Image?) ==> p["width"] == PlanModel.JNum(s.width) && p["height"] == PlanModel.JNum(s.height))
            && (s.Image? ==> p["symbol_kind"] == PlanModel.JStr(el.symbolKind))
            && (s.Line? ==> p["x2"] == PlanModel.JNum(s.x2) && p["y2"] == PlanModel.JNum(s.y2))
            && (s.Circle? ==> p["radius"] == PlanModel.JNum(s.r))
            && p["fill"] == PlanModel.JStr(if el.fill == "" then "transparent" else el.fill)
            && p["stroke"] == PlanModel.JStr(if el.stroke == "" then "black" else el.stroke)
            && (el.elementId != "" ==> p["id"] == PlanModel.JStr(el.elementId))
  {
  }

  // --------------------------------------------------------------- zoom

  const MinZoom: real := 0.1
  const MaxZoom: real := 5.0

  /** A wheel step: scrolling down zooms out by 10%, anything else zooms in by 10%, kept in [0.1, 5]. */
  function Zoomed(zoom: real, deltaY: real): (z: real)
    ensures MinZoom <= z <= MaxZoom
    ensures MinZoom <= zoom * (if deltaY > 0.0 then 0.9 else 1.1) <= MaxZoom ==>
              z == zoom * (if deltaY > 0.0 then 0.9 else 1.1)
  {
    var delta := if deltaY > 0.0 then 0.9 else 1.1;
    Max(MinZoom, Min(MaxZoom, zoom * delta))
  }

  // ------------------------------------------------------------- handlers

  /**
   * The node an event lands on: a resize handle of an element, an element,
   * the SVG canvas itself, or another node (a grid line, a selection
   * highlight). A press treats the last two alike, since it tests only the
   * handle and item classes; a click tells them apart.
   */
  datatype Target = HandleOf(element: nat, position: string) | ItemOf(element: nat) | Canvas | Other

  datatype Pan = Pan(x: real, y: real, startX: real, startY: real, isPanning: bool)

  datatype SvgState = SvgState(
    elements: seq<SvgElement>,
    tool: SvgTool,
    selectedSymbol: Option<Symbol>,
    drawing: bool,
    start: Point,
    current: Option<nat>,
    selected: Option<nat>,
    buildingId: string,
    zoom: real,
    pan: Pan,
    isResizing: bool,
    resizeHandle: Option<string>)

  predicate InRange(i: Option<nat>, n: nat)
  {
    i.Some? ==> i.value < n
  }

  predicate Valid(st: SvgState)
  {
    InRange(st.current, |st.elements|) && InRange(st.selected, |st.elements|)
  }

  predicate TargetInRange(t: Target, n: nat)
  {
    (t.HandleOf? ==> t.element < n) && (t.ItemOf? ==> t.element < n)
  }

  /**
   * The drawing listener for a press: with a building, it records the
   * snapped start; a handle starts a resize of its element, an element is
   * selected, and on the canvas a drawing tool appends a shape of size zero
   * and starts drawing while the symbol tool places the chosen symbol.
   */
  function DrawDown(st: SvgState, p: Point, target: Target): SvgState
    requires Valid(st) && TargetInRange(target, |st.elements|)
  {
    if st.buildingId == "" then st
    else
      var st1 := st.(start := Snap(p));
      match target
      case HandleOf(i, position) => st1.(isResizing := true, resizeHandle := Some(position), selected := Some(i))
      case ItemOf(i) => st1.(selected := Some(i))
      case Canvas | Other =>
        if IsShapeTool(st.tool) then
          st1.(drawing := true, elements := st.elements + [NewShape(st.tool, Snap(p))], current := Some(|st.elements|))
        else if st.tool == SymbolTool && st.selectedSymbol.Some? then
          st1.(elements := st.elements + [NewSymbol(st.selectedSymbol.value, Snap(p))], current := Some(|st.elements|))
        else st1
  }

  /** The panning listener for a press: the middle button starts a pan at the pointer. */
  function PanDown(st: SvgState, p: Point, button: int): SvgState
  {
    if button == 1 then st.(pan := st.pan.(startX := p.x, startY := p.y, isPanning := true)) else st
  }

  function MouseDown(st: SvgState, p: Point, target: Target, button: int): SvgState
    requires Valid(st) && TargetInRange(target, |st.elements|)
  {
    PanDown(DrawDown(st, p, target), p, button)
  }

  function WithShape(st: SvgState, i: nat, s: Shape): SvgState
    requires i < |st.elements|
  {
    st.(elements := st.elements[i := st.elements[i].(shape := s)])
  }

  /** The drawing listener for a move: resize, or stretch the shape being drawn. */
  function DrawMove(sqrt: real -> real, st: SvgState, p: Point): SvgState
    requires Valid(st)
  {
    var q := Snap(p);
    if st.isResizing && st.selected.Some? then
      var i := st.selected.value;
      WithShape(st, i, Resize(st.elements[i].shape, if st.resizeHandle.Some? then st.resizeHandle.value else "", q))
    else if !st.drawing || st.current.None? then st
    else
      var i := st.current.value;
      WithShape(st, i, DragShape(sqrt, st.elements[i].shape, st.tool, st.start, q))
  }

  /** The panning listener for a move: the pan follows the unsnapped pointer. */
  function PanMove(st: SvgState, p: Point): SvgState
  {
    if st.pan.isPanning then
      st.(pan := Pan(st.pan.x + (p.x - st.pan.startX), st.pan.y + (p.y - st.pan.startY), p.x, p.y, true))
    else st
  }

  function MouseMove(sqrt: real -> real, st: SvgState, p: Point): SvgState
    requires Valid(st)
  {
    PanMove(DrawMove(sqrt, st, p), p)
  }

  /**
   * The drawing listener for a release. `clientX` is the pointer's raw
   * client x, which the source compares with the snapped start.
   */
  function DrawUp(sqrt: real -> real, st: SvgState, p: Point, clientX: real): SvgState
    requires Valid(st)
  {
    var q := Snap(p);
    if st.isResizing then st.(isResizing := false, resizeHandle := None)
    else if !st.drawing then
      if st.tool == SelectTool && st.selected.Some? && st.start.x != clientX then
        var i := st.selected.value;
        WithShape(st, i, Translate(st.elements[i].shape, q.x - st.start.x, q.y - st.start.y))
      else st
    else
      var st1 := st.(drawing := false);
      if st.current.Some? && IsShapeTool(st.tool) then
        var i := st.current.value;
        WithShape(st1, i, DragShape(sqrt, st.elements[i].shape, st.tool, st.start, q)).(current := None, tool := SelectTool)
      else st1
  }

  function PanUp(st: SvgState, button: int): SvgState
  {
    if button == 1 then st.(pan := st.pan.(isPanning := false)) else st
  }

  function MouseUp(sqrt: real -> real, st: SvgState, p: Point, clientX: real, button: int): SvgState
    requires Valid(st)
  {
    PanUp(DrawUp(sqrt, st, p, clientX), button)
  }

  function Wheel(st: SvgState, deltaY: real): SvgState
  {
    st.(zoom := Zoomed(st.zoom, deltaY))
  }

  /**
   * A click: only a click on the canvas itself clears the selection; a click
   * on an element, a handle, a grid line or any other node changes nothing.
   * No element is touched.
   */
  function Click(st: SvgState, target: Target): (r: SvgState)
    ensures r == st.(selected := r.selected)
    ensures r.selected.None? <==> target.Canvas? || st.selected.None?
    ensures Valid(st) ==> Valid(r)
  {
    if target.Canvas? then st.(selected := None) else st
  }

  // ---------------------------------------------------------------- lemmas

  lemma HandlersKeepValid(sqrt: real -> real, st: SvgState, p: Point, target: Target, button: int, clientX: real, deltaY: real)
    requires Valid(st) && TargetInRange(target, |st.elements|)
    ensures Valid(MouseDown(st, p, target, button))
    ensures Valid(MouseMove(sqrt, st, p))
    ensures Valid(MouseUp(sqrt, st, p, clientX, button))
    ensures Valid(Wheel(st, deltaY))
  {
    DownKeepsValid(st, p, target, button);
    MoveKeepsValid(sqrt, st, p);
    UpKeepsValid(sqrt, st, p, clientX, button);
  }

  lemma DownKeepsValid(st: SvgState, p: Point, target: Target, button: int)
    requires Valid(st) && TargetInRange(target, |st.elements|)
    ensures Valid(MouseDown(st, p, target, button))
  {
  }

  lemma MoveKeepsValid(sqrt: real -> real, st: SvgState, p: Point)
    requires Valid(st)
    ensures Valid(MouseMove(sqrt, st, p))
  {
  }

  lemma UpKeepsValid(sqrt: real -> real, st: SvgState, p: Point, clientX: real, button: int)
    requires Valid(st)
    ensures Valid(MouseUp(sqrt, st, p, clientX, button))
  {
  }

  /**
   * A press on the canvas with a drawing tool (and a building) appends one
   * shape of size zero at the snapped pointer and starts drawing it; the
   * release then sizes it from the start to the snapped pointer, ends the
   * drawing and switches back to the select tool.
   */
  lemma DrawingGesture(sqrt: real -> real, st: SvgState, down: Point, up: Point, clientX: real, button: int)
    requires Valid(st) && IsShapeTool(st.tool) && st.buildingId != "" && !st.isResizing
    ensures var d := MouseDown(st, down, Canvas, button);
            d.drawing && d.start == Snap(down) && d.current == Some(|st.elements|)
            && d.elements == st.elements + [NewShape(st.tool, Snap(down))]
    ensures var d := MouseDown(st, down, Canvas, button);
            var u := MouseUp(sqrt, d, up, clientX, button);
            !u.drawing && u.tool == SelectTool && u.current.None?
            && |u.elements| == |st.elements| + 1 && u.elements[..|st.elements|] == st.elements
            && u.elements[|st.elements|].shape
                 == DragShape(sqrt, NewShape(st.tool, Snap(down)).shape, st.tool, Snap(down), Snap(up))
  {
    var d := MouseDown(st, down, Canvas, button);
    var u := MouseUp(sqrt, d, up, clientX, button);
    assert u.elements[..|st.elements|] == st.elements;
  }

  /**
   * With the select tool and nothing being drawn or resized, a release
   * moves the selected element by the snapped displacement since the press
   * and changes no other element.
   */
  lemma ReleaseMovesSelected(sqrt: real -> real, st: SvgState, p: Point, clientX: real, button: int)
    requires Valid(st) && st.tool == SelectTool && !st.drawing && !st.isResizing && st.selected.Some?
    requires st.start.x != clientX
    ensures var u := MouseUp(sqrt, st, p, clientX, button);
            var i := st.selected.value;
            |u.elements| == |st.elements|
            && Anchor(u.elements[i].shape) == Point(Anchor(st.elements[i].shape).x + (Snap(p).x - st.start.x),
                                                   Anchor(st.elements[i].shape).y + (Snap(p).y - st.start.y))
            && (forall j :: 0 <= j < |st.elements| && j != i ==> u.elements[j] == st.elements[j])
  {
    var i := st.selected.value;
    TranslateIsRigid(st.elements[i].shape, Snap(p).x - st.start.x, Snap(p).y - st.start.y, 0.0, 0.0);
  }

  /** Without a building nothing but panning reacts to a press. */
  lemma NoBuildingNoEdit(st: SvgState, p: Point, target: Target, button: int)
    requires Valid(st) && TargetInRange(target, |st.elements|) && st.buildingId == ""
    ensures MouseDown(st, p, target, button) == PanDown(st, p, button)
  {
  }

  // ------------------------------------------------------------ the editor

  class Editor {
    var elements: seq<SvgElement>
    var tool: SvgTool
    var selectedSymbol: Option<Symbol>
    var drawing: bool
    var start: Point
    var current: Option<nat>
    var selected: Option<nat>
    var buildingId: string
    var zoom: real
    var pan: Pan
    var isResizing: bool
    var resizeHandle: Option<string>

    function Snapshot(): SvgState
      reads this
    {
      SvgState(elements, tool, selectedSymbol, drawing, start, current, selected, buildingId, zoom, pan, isResizing, resizeHandle)
    }

    constructor (buildingId: string, elements: seq<SvgElement>)
      ensures Snapshot() == SvgState(elements, SelectTool, None, false, Point(0.0, 0.0), None, None, buildingId, 1.0,
                                     Pan(0.0, 0.0, 0.0, 0.0, false), false, None)
    {
      this.elements := elements;
      tool := SelectTool;
      selectedSymbol := None;
      drawing := false;
      start := Point(0.0, 0.0);
      current := None;
      selected := None;
      this.buildingId := buildingId;
      zoom := 1.0;
      pan := Pan(0.0, 0.0, 0.0, 0.0, false);
      isResizing := false;
      resizeHandle := None;
    }

    /** A tool button: a symbol button also chooses the symbol, any other clears it. */
    method ChooseTool(newTool: SvgTool, symbol: Option<Symbol>)
      modifies this
      ensures Snapshot() == old(Snapshot()).(tool := if symbol.Some? then SymbolTool else newTool, selectedSymbol := symbol)
    {
      if symbol.Some? {
        selectedSymbol := symbol;
        tool := SymbolTool;
      } else {
        tool := newTool;
        selectedSymbol := None;
      }
    }

    /** The drawing listener of a press. */
    method PressDrawing(p: Point, target: Target)
      requires Valid(Snapshot()) && TargetInRange(target, |elements|)
      modifies this
      ensures Snapshot() == DrawDown(old(Snapshot()), p, target)
    {
      if buildingId != "" {
        start := Snap(p);
        match target {
          case HandleOf(i, position) =>
            isResizing := true;
            resizeHandle := Some(position);
            selected := Some(i);
          case ItemOf(i) =>
            selected := Some(i);
          case Canvas | Other =>
            if IsShapeTool(tool) {
              drawing := true;
              elements := elements + [NewShape(tool, start)];
              current := Some(|elements| - 1);
            } else if tool == SymbolTool && selectedSymbol.Some? {
              elements := elements + [NewSymbol(selectedSymbol.value, start)];
              current := Some(|elements| - 1);
            }
        }
      }
    }

    method HandleMouseDown(p: Point, target: Target, button: int)
      requires Valid(Snapshot()) && TargetInRange(target, |elements|)
      modifies this
      ensures Snapshot() == MouseDown(old(Snapshot()), p, target, button)
    {
      PressDrawing(p, target);
      if button == 1 {
        pan := pan.(startX := p.x, startY := p.y, isPanning := true);
      }
    }

    method HandleMouseMove(sqrt: real -> real, p: Point)
      requires Valid(Snapshot())
      modifies this
      ensures Snapshot() == MouseMove(sqrt, old(Snapshot()), p)
    {
      var q := Snap(p);
      if isResizing && selected.Some? {
        var i := selected.value;
        var position := if resizeHandle.Some? then resizeHandle.value else "";
        elements := elements[i := elements[i].(shape := Resize(elements[i].shape, position, q))];
      } else if drawing && current.Some? {
        var i := current.value;
        elements := elements[i := elements[i].(shape := DragShape(sqrt, elements[i].shape, tool, start, q))];
      }
      if pan.isPanning {
        pan := Pan(pan.x + (p.x - pan.startX), pan.y + (p.y - pan.startY), p.x, p.y, true);
      }
    }

    method HandleMouseUp(sqrt: real -> real, p: Point, clientX: real, button: int)
      requires Valid(Snapshot())
      modifies this
      ensures Snapshot() == MouseUp(sqrt, old(Snapshot()), p, clientX, button)
    {
      var q := Snap(p);
      if isResizing {
        isResizing := false;
        resizeHandle := None;
      } else if !drawing {
        if tool == SelectTool && selected.Some? && start.x != clientX {
          var i := selected.value;
          elements := elements[i := elements[i].(shape := Translate(elements[i].shape, q.x - start.x, q.y - start.y))];
        }
      } else {
        drawing := false;
        if current.Some? && IsShapeTool(tool) {
          var i := current.value;
          elements := elements[i := elements[i].(shape := DragShape(sqrt, elements[i].shape, tool, start, q))];
          current := None;
          tool := SelectTool;
        }
      }
      if button == 1 {
        pan := pan.(isPanning := false);
      }
    }

    method HandleWheel(deltaY: real)
      modifies this
      ensures Snapshot() == Wheel(old(Snapshot()), deltaY)
    {
      var delta := if deltaY > 0.0 then 0.9 else 1.1;
      zoom := zoom * delta;
      zoom := if zoom > MaxZoom then MaxZoom else zoom;
      zoom := if zoom < MinZoom then MinZoom else zoom;
    }

    method HandleClick(target: Target)
      modifies this
      ensures Snapshot() == Click(old(Snapshot()), target)
    {
      if target == Canvas {
        selected := None;
      }
    }
  }
}
