// The read-only floor-plan viewer (static/js/floorplanner/show.js): hit
// tests for safety elements, lines and rectangles, selection by click,
// panning with the middle or right button, and zooming with the wheel.

module Viewer {
  import opened Wrappers
  import opened Geometry
  import opened PlanModel

  /**
   * `isPointInSafetyElement`: walls, doors, windows and routes are never
   * hit; any other element is hit inside the inclusive box spanned by its
   * two points.
   */
  predicate IsPointInSafetyElement(p: Point, e: PlanElement)
  {
    match e.kind
    case WallType => false
    case DoorStandard => false
    case DoorEmergency => false
    case WindowType => false
    case EmergencyRoute => false
    case _ =>
      var width := Abs(e.end.x - e.start.x);
      var height := Abs(e.end.y - e.start.y);
      var rectX := Min(e.start.x, e.end.x);
      var rectY := Min(e.start.y, e.end.y);
      p.x >= rectX && p.x <= rectX + width && p.y >= rectY && p.y <= rectY + height
  }

  /**
   * A safety element is hit exactly in the box between the smaller and the
   * larger of its coordinates, whichever corner it was drawn from, which is
   * also the box in which the editor hits a machine or closet.
   */
  lemma SafetyHitIsSpannedBox(p: Point, e: PlanElement)
    ensures IsLineKind(e.kind, true) ==> !IsPointInSafetyElement(p, e)
    ensures !IsLineKind(e.kind, true) ==>
              (IsPointInSafetyElement(p, e) <==>
                 Min(e.start.x, e.end.x) <= p.x <= Max(e.start.x, e.end.x)
                 && Min(e.start.y, e.end.y) <= p.y <= Max(e.start.y, e.end.y))
    ensures IsBoxKind(e.kind) ==> (IsPointInSafetyElement(p, e) <==> InBox(p, e.start, e.end))
  {
    if IsBoxKind(e.kind) {
      InBoxSpanned(p, e.start, e.end);
    }
  }

  /**
   * `isPointOnLine(x, y, start, end, thickness)`: false when an end is
   * missing, when the segment has length 0 or when the projection falls
   * outside the segment; otherwise whether the squared distance to the
   * projection is at most the square of half the thickness.
   */
  predicate IsPointOnLine(sqrt: real -> real, p: Point, start: Option<Point>, end: Option<Point>, thickness: real)
  {
    if start.None? || end.None? then false
    else
      var a := start.value;
      var b := end.value;
      var length := sqrt(SqDist(a, b));
      if length == 0.0 then false
      else
        var t := Dot(p, a, b) / Sq(length);
        if t < 0.0 || t > 1.0 then false
        else SqDist(p, Lerp(a, b, t)) <= Sq(thickness / 2.0)
  }

  /**
   * With a true square root, a point is on the thick line exactly when the
   * segment is proper, the point projects inside it and lies within half
   * the thickness of it; the distance measured is then the one the editor's
   * `distanceToLineSegment` reports.
   */
  lemma PointOnLineMeaning(sqrt: real -> real, p: Point, a: Point, b: Point, thickness: real)
    requires IsSqrt(sqrt)
    ensures IsPointOnLine(sqrt, p, Some(a), Some(b), thickness) <==>
              SqDist(a, b) > 0.0
              && 0.0 <= Dot(p, a, b) / SqDist(a, b) <= 1.0
              && SqDist(p, Lerp(a, b, Dot(p, a, b) / SqDist(a, b))) <= Sq(thickness / 2.0)
    ensures IsPointOnLine(sqrt, p, Some(a), Some(b), thickness) ==>
              DistanceToLineSegment(sqrt, p, a, b) == Some(sqrt(SqDist(p, Lerp(a, b, Dot(p, a, b) / SqDist(a, b)))))
    ensures !IsPointOnLine(sqrt, p, None, Some(b), thickness) && !IsPointOnLine(sqrt, p, Some(a), None, thickness)
  {
    var l2 := SqDist(a, b);
    var length := sqrt(l2);
    SquareFacts(b.x - a.x);
    SquareFacts(b.y - a.y);
    assert Sq(length) == l2;
    if l2 == 0.0 {
      SqZero(length);
    } else {
      assert length != 0.0;
    }
  }

  lemma SqZero(v: real)
    requires Sq(v) == 0.0
    ensures v == 0.0
  {
    if v != 0.0 {
      SquareFacts(v);
    }
  }

  datatype Size = Size(width: real, height: real)

  /** `isPointInRect`: inclusive on every side; false when position or size is missing. */
  predicate IsPointInRect(p: Point, position: Option<Point>, size: Option<Size>)
  {
    if position.None? || size.None? then false
    else
      p.x >= position.value.x && p.x <= position.value.x + size.value.width
      && p.y >= position.value.y && p.y <= position.value.y + size.value.height
  }

  /**
   * A rectangle of non-negative size is the safety-element box spanned by
   * its corner and the corner opposite it, so the two tests agree.
   */
  lemma RectIsSafetyBox(p: Point, position: Point, size: Size, e: PlanElement)
    requires size.width >= 0.0 && size.height >= 0.0
    requires !IsLineKind(e.kind, true)
    requires e.start == position && e.end == Point(position.x + size.width, position.y + size.height)
    ensures IsPointInRect(p, Some(position), Some(size)) <==> IsPointInSafetyElement(p, e)
    ensures !IsPointInRect(p, None, Some(size)) && !IsPointInRect(p, Some(position), None)
  {
  }

  /** The world point under a screen point: the inverse of translating by `pan` and then scaling. */
  function ScreenToWorld(screen: Point, pan: Point, scale: real): Point
    requires scale != 0.0
  {
    Point((screen.x - pan.x) / scale, (screen.y - pan.y) / scale)
  }

  function WorldToScreen(world: Point, pan: Point, scale: real): Point
  {
    Point(pan.x + scale * world.x, pan.y + scale * world.y)
  }

  lemma ScreenToWorldInvertsRender(world: Point, pan: Point, scale: real)
    requires scale != 0.0
    ensures ScreenToWorld(WorldToScreen(world, pan, scale), pan, scale) == world
  {
    assert (scale * world.x) / scale == world.x;
    assert (scale * world.y) / scale == world.y;
  }

  function SafetyHit(p: Point): PlanElement -> bool
  {
    e => IsPointInSafetyElement(p, e)
  }

  /** The element a click selects: the first in list order that contains the world point. */
  function ClickSelection(elements: seq<PlanElement>, screen: Point, pan: Point, scale: real): (r: Option<nat>)
    requires scale != 0.0
    ensures var w := ScreenToWorld(screen, pan, scale);
            (r.None? <==> forall i :: 0 <= i < |elements| ==> !IsPointInSafetyElement(w, elements[i]))
            && (r.Some? ==> r.value < |elements| && IsPointInSafetyElement(w, elements[r.value])
                            && forall j :: 0 <= j < r.value ==> !IsPointInSafetyElement(w, elements[j]))
  {
    var w := ScreenToWorld(screen, pan, scale);
    var r := FindIndex(elements, SafetyHit(w));
    assert forall i :: 0 <= i < |elements| ==> (SafetyHit(w)(elements[i]) <==> IsPointInSafetyElement(w, elements[i]));
    r
  }

  // ----------------------------------------------------------------- zoom

  const MinZoom: real := 0.1
  const MaxZoom: real := 5.0

  /** The scale after one wheel step: up 10% when scrolling up, down 10% otherwise, kept in [0.1, 5]. */
  function ZoomedScale(scale: real, deltaY: real): (s: real)
    ensures MinZoom <= s <= MaxZoom
    ensures MinZoom <= scale * (if deltaY < 0.0 then 1.1 else 0.9) <= MaxZoom ==>
              s == scale * (if deltaY < 0.0 then 1.1 else 0.9)
  {
    var factor := if deltaY < 0.0 then 1.1 else 0.9;
    Max(MinZoom, Min(MaxZoom, scale * factor))
  }

  datatype View = View(scale: real, pan: Point)

  /**
   * The wheel handler AS WRITTEN: it takes the world point under the mouse
   * to be `mouse / scale - pan` and sets the pan to `-(world - mouse /
   * scale')`, which mixes screen and world units.
   */
  function WheelAsWritten(v: View, mouse: Point, deltaY: real): View
    requires v.scale != 0.0
  {
    var world := Point(mouse.x / v.scale - v.pan.x, mouse.y / v.scale - v.pan.y);
    var s := ZoomedScale(v.scale, deltaY);
    View(s, Point(-(world.x - mouse.x / s), -(world.y - mouse.y / s)))
  }

  /**
   * Scrolling up at screen point (100, 100) with no pan at scale 1: as
   * written, the world point under the mouse moves from (100, 100) to
   * (12000/121, 12000/121), so the zoom is not towards the mouse.
   */
  lemma WheelAsWrittenDriftsFromMouse()
    ensures ScreenToWorld(Point(100.0, 100.0), Point(0.0, 0.0), 1.0) == Point(100.0, 100.0)
    ensures WheelAsWritten(View(1.0, Point(0.0, 0.0)), Point(100.0, 100.0), -1.0)
         == View(1.1, Point(-100.0 / 11.0, -100.0 / 11.0))
    ensures ScreenToWorld(Point(100.0, 100.0), Point(-100.0 / 11.0, -100.0 / 11.0), 1.1)
         == Point(12000.0 / 121.0, 12000.0 / 121.0)
  {
    DriftStart();
    DriftStep();
    DriftWorld();
  }

  /** Before the step, the mouse at (100, 100) is over the world point (100, 100). */
  lemma DriftStart()
    ensures ScreenToWorld(Point(100.0, 100.0), Point(0.0, 0.0), 1.0) == Point(100.0, 100.0)
  {
  }

  /** The step as written: scale 1.1, and the pan `-(100 - 100 / 1.1)` on both axes. */
  lemma DriftStep()
    ensures WheelAsWritten(View(1.0, Point(0.0, 0.0)), Point(100.0, 100.0), -1.0)
         == View(1.1, Point(-100.0 / 11.0, -100.0 / 11.0))
  {
    ZoomInFromOne();
    assert 100.0 / 1.1 == 1000.0 / 11.0;
  }

  /** After the step, the mouse is over `(100 + 100 / 11) / 1.1` on both axes. */
  lemma DriftWorld()
    ensures ScreenToWorld(Point(100.0, 100.0), Point(-100.0 / 11.0, -100.0 / 11.0), 1.1)
         == Point(12000.0 / 121.0, 12000.0 / 121.0)
  {
    assert 100.0 - -100.0 / 11.0 == 1200.0 / 11.0;
  }

  lemma ZoomInFromOne()
    ensures ZoomedScale(1.0, -1.0) == 1.1
  {
  }

  /** One wheel step that keeps the world point under the mouse where it is. */
  function Wheel(v: View, mouse: Point, deltaY: real): View
    requires v.scale != 0.0
  {
    var world := ScreenToWorld(mouse, v.pan, v.scale);
    var s := ZoomedScale(v.scale, deltaY);
    View(s, Point(mouse.x - s * world.x, mouse.y - s * world.y))
  }

  lemma WheelKeepsPointUnderMouse(v: View, mouse: Point, deltaY: real)
    requires v.scale != 0.0
    ensures var v' := Wheel(v, mouse, deltaY);
            MinZoom <= v'.scale <= MaxZoom
            && ScreenToWorld(mouse, v'.pan, v'.scale) == ScreenToWorld(mouse, v.pan, v.scale)
  {
    var w := ScreenToWorld(mouse, v.pan, v.scale);
    var v' := Wheel(v, mouse, deltaY);
    var s := v'.scale;
    assert mouse.x - v'.pan.x == s * w.x;
    assert mouse.y - v'.pan.y == s * w.y;
    assert (s * w.x) / s == w.x;
    assert (s * w.y) / s == w.y;
  }

  // -------------------------------------------------------------- panning

  /** Panning state of `setupEventListeners`: whether a pan is under way and the last pointer position. */
  datatype ViewerState = ViewerState(
    elements: seq<PlanElement>,
    selected: Option<nat>,
    view: View,
    isPanning: bool,
    lastPanPosition: Point)

  predicate Valid(st: ViewerState)
  {
    st.view.scale > 0.0 && (st.selected.Some? ==> st.selected.value < |st.elements|)
  }

  function Click(st: ViewerState, screen: Point): ViewerState
    requires Valid(st)
  {
    st.(selected := ClickSelection(st.elements, screen, st.view.pan, st.view.scale))
  }

  /** A press of the middle (1) or right (2) button starts a pan; other buttons do nothing. */
  function MouseDown(st: ViewerState, button: int, client: Point): ViewerState
  {
    if button == 1 || button == 2 then st.(isPanning := true, lastPanPosition := client) else st
  }

  function MouseUp(st: ViewerState): ViewerState
  {
    st.(isPanning := false)
  }

  /** While panning, the pan moves by the pointer's movement divided by the scale. */
  function MouseMove(st: ViewerState, client: Point): ViewerState
    requires Valid(st)
  {
    if st.isPanning then
      var dx := client.x - st.lastPanPosition.x;
      var dy := client.y - st.lastPanPosition.y;
      var pan := Point(st.view.pan.x + dx / st.view.scale, st.view.pan.y + dy / st.view.scale);
      st.(view := st.view.(pan := pan), lastPanPosition := client)
    else st
  }

  function WheelStep(st: ViewerState, mouse: Point, deltaY: real): ViewerState
    requires Valid(st)
  {
    st.(view := Wheel(st.view, mouse, deltaY))
  }

  /**
   * Every handler keeps the scale positive and the selection in range; only
   * a click changes the selection, only panning and zooming change the view,
   * and nothing changes the elements. While panning, a pointer movement of
   * (dx, dy) moves every element on screen by (dx, dy) divided by the scale.
   */
  lemma HandlersKeepValid(st: ViewerState, screen: Point, button: int, client: Point, deltaY: real, world: Point)
    requires Valid(st)
    ensures Valid(Click(st, screen)) && Click(st, screen).view == st.view && Click(st, screen).elements == st.elements
    ensures Valid(MouseDown(st, button, client)) && MouseDown(st, button, client).view == st.view
    ensures MouseDown(st, button, client).isPanning <==> (st.isPanning || button == 1 || button == 2)
    ensures Valid(MouseUp(st)) && !MouseUp(st).isPanning
    ensures var r := MouseMove(st, client);
            Valid(r) && r.selected == st.selected && r.elements == st.elements
            && (st.isPanning ==>
                  WorldToScreen(world, r.view.pan, r.view.scale).x
                    == WorldToScreen(world, st.view.pan, st.view.scale).x + (client.x - st.lastPanPosition.x) / st.view.scale)
            && (!st.isPanning ==> r == st)
    ensures var r := WheelStep(st, screen, deltaY);
            Valid(r) && r.selected == st.selected && r.elements == st.elements
  {
  }

  class ShowViewer {
    var elements: seq<PlanElement>
    var selected: Option<nat>
    var view: View
    var isPanning: bool
    var lastPanPosition: Point

    function Snapshot(): ViewerState
      reads this
    {
      ViewerState(elements, selected, view, isPanning, lastPanPosition)
    }

    /**
     * Fits a `width` by `height` metre plan into the canvas at 90% of the
     * smaller of the two scales and centres it.
     */
    constructor (canvasWidth: real, canvasHeight: real, width: real, height: real, elements: seq<PlanElement>)
      requires canvasWidth > 0.0 && canvasHeight > 0.0 && width > 0.0 && height > 0.0
      ensures Valid(Snapshot()) && selected.None? && !isPanning && this.elements == elements
      ensures view.scale == Min(canvasWidth / width, canvasHeight / height) * 0.9
      ensures view.pan == Point((canvasWidth - width * view.scale) / 2.0, (canvasHeight - height * view.scale) / 2.0)
    {
      this.elements := elements;
      selected := None;
      var scale := Min(canvasWidth / width, canvasHeight / height) * 0.9;
      view := View(scale, Point((canvasWidth - width * scale) / 2.0, (canvasHeight - height * scale) / 2.0));
      isPanning := false;
      lastPanPosition := Point(0.0, 0.0);
    }

    method HandleClick(screen: Point)
      requires Valid(Snapshot())
      modifies this
      ensures Snapshot() == Click(old(Snapshot()), screen)
    {
      var world := Point((screen.x - view.pan.x) / view.scale, (screen.y - view.pan.y) / view.scale);
      var i := 0;
      while i < |elements| && !IsPointInSafetyElement(world, elements[i])
        invariant 0 <= i <= |elements|
        invariant forall j :: 0 <= j < i ==> !IsPointInSafetyElement(world, elements[j])
      {
        i := i + 1;
      }
      selected := if i < |elements| then Some(i) else None;
    }

    method HandleMouseDown(button: int, client: Point)
      modifies this
      ensures Snapshot() == MouseDown(old(Snapshot()), button, client)
    {
      if button == 1 || button == 2 {
        isPanning := true;
        lastPanPosition := client;
      }
    }

    method HandleMouseUp()
      modifies this
      ensures Snapshot() == MouseUp(old(Snapshot()))
    {
      isPanning := false;
    }

    method HandleMouseMove(client: Point)
      requires Valid(Snapshot())
      modifies this
      ensures Snapshot() == MouseMove(old(Snapshot()), client)
    {
      if isPanning {
        var dx := client.x - lastPanPosition.x;
        var dy := client.y - lastPanPosition.y;
        view := view.(pan := Point(view.pan.x + dx / view.scale, view.pan.y + dy / view.scale));
        lastPanPosition := client;
      }
    }

    method HandleWheel(mouse: Point, deltaY: real)
      requires Valid(Snapshot())
      modifies this
      ensures Snapshot() == WheelStep(old(Snapshot()), mouse, deltaY)
    {
      var world := Point((mouse.x - view.pan.x) / view.scale, (mouse.y - view.pan.y) / view.scale);
      var factor := if deltaY < 0.0 then 1.1 else 0.9;
      var scale := view.scale * factor;
      scale := if scale > MaxZoom then MaxZoom else scale;
      scale := if scale < MinZoom then MinZoom else scale;
      view := View(scale, Point(mouse.x - scale * world.x, mouse.y - scale * world.y));
    }
  }
}
