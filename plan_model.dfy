// The element model shared by the metre-based editors (static/js/floorplanner.js
// and static/js/floorplanner/*.js): each element is a line or a box given by a
// start and an end point in metres, with a type, a width and free-form
// properties. This module holds their pure parts: hit tests, distances, the
// handles of the selected element and the dotted-path property setter.

module PlanModel {
  import opened Wrappers
  import opened Geometry

  // ------------------------------------------------------------------ values

  /** `element_type`; the editors compare it against these names. */
  datatype PlanType =
    | WallType | DoorStandard | DoorEmergency | WindowType | EmergencyRoute | Machine | Closet
    | OtherType(name: string)

  function TypeName(k: PlanType): string
  {
    match k
    case WallType => "wall"
    case DoorStandard => "door-standard"
    case DoorEmergency => "door-emergency"
    case WindowType => "window"
    case EmergencyRoute => "emergency-route"
    case Machine => "machine"
    case Closet => "closet"
    case OtherType(name) => name
  }

  /** The type an `element_type` string denotes. */
  function TypeNamed(name: string): PlanType
  {
    if name == "wall" then WallType
    else if name == "door-standard" then DoorStandard
    else if name == "door-emergency" then DoorEmergency
    else if name == "window" then WindowType
    else if name == "emergency-route" then EmergencyRoute
    else if name == "machine" then Machine
    else if name == "closet" then Closet
    else OtherType(name)
  }

  /** An `OtherType` never carries one of the names the editors know. */
  predicate WellNamed(k: PlanType)
  {
    k.OtherType? ==> TypeNamed(k.name) == k
  }

  /** Reading a type name back gives the same string, and every well-named type has its own name. */
  lemma TypeNameRoundTrip(name: string, k: PlanType)
    ensures TypeName(TypeNamed(name)) == name
    ensures WellNamed(TypeNamed(name))
    ensures WellNamed(k) ==> TypeNamed(TypeName(k)) == k
  {
  }

  /** The active tool: `'select'` or the type of the element it draws. */
  datatype Tool = SelectTool | DrawTool(kind: PlanType)

  function ToolNamed(name: string): Tool
  {
    if name == "select" then SelectTool else DrawTool(TypeNamed(name))
  }

  /** `element_type: currentState.currentTool` when a drawing is finished. */
  function KindDrawnBy(t: Tool): PlanType
  {
    match t
    case SelectTool => TypeNamed("select")
    case DrawTool(k) => k
  }

  /** A JSON value, as the free-form `properties` object holds them. */
  datatype Json =
    | JNull | JBool(b: bool) | JNum(n: real) | JStr(s: string) | JArr(items: seq<Json>)
    | JObj(fields: map<string, Json>)

  /** JavaScript truthiness of a value (an absent key reads as `undefined`, which is falsy). */
  predicate Truthy(v: Json)
  {
    match v
    case JNull => false
    case JBool(b) => b
    case JNum(n) => n != 0.0
    case JStr(s) => s != []
    case _ => true
  }

  /** A point stored in `properties`, as `{ x, y }`. */
  function PointJson(p: Point): Json
  {
    JObj(map["x" := JNum(p.x), "y" := JNum(p.y)])
  }

  datatype PlanElement = PlanElement(id: string, kind: PlanType, start: Point, end: Point, width: real,
                                     properties: map<string, Json>)

  // --------------------------------------------------------------- distances

  // `squaredDistance(p1, p2)` is `SqDist(p1, p2)`, and the projections below
  // are `Lerp` of the segment's ends at the parameter.

  /**
   * `distanceToLine`: the distance to the clamped projection onto the segment
   * `v`-`w`; for a zero-length segment the SQUARED distance to `v`, as written.
   */
  function DistanceToLine(sqrt: real -> real, p: Point, v: Point, w: Point): real
  {
    var lengthSquared := SqDist(v, w);
    if lengthSquared == 0.0 then SqDist(p, v)
    else
      var t := Clamp01(Dot(p, v, w) / lengthSquared);
      sqrt(SqDist(p, Lerp(v, w, t)))
  }

  /**
   * On a proper segment the hit distance of the metre editors is the distance
   * to the projection the canvas editor computes; on a zero-length segment it
   * is the square of the distance to the point.
   */
  lemma DistanceToLineIsProjectionDistance(sqrt: real -> real, p: Point, v: Point, w: Point)
    requires IsSqrt(sqrt)
    ensures v != w ==>
              DistanceToLine(sqrt, p, v, w) == Distance(sqrt, p, Lerp(v, w, ProjectionParameter(sqrt, p, v, w)))
    ensures v == w ==> DistanceToLine(sqrt, p, v, w) == Sq(Distance(sqrt, p, v))
    ensures DistanceToLine(sqrt, p, v, w) >= 0.0
  {
    SqDistZero(v, w);
    if v == w {
      SqDistZero(p, v);
      DistanceFacts(sqrt, p, v);
    } else {
      DistanceFacts(sqrt, v, w);
      var q := Lerp(v, w, ProjectionParameter(sqrt, p, v, w));
      DistanceFacts(sqrt, p, q);
    }
  }

  /**
   * `distanceToLineSegment`; `None` for a zero-length segment, where the
   * source divides zero by zero and every comparison with the result fails.
   */
  function DistanceToLineSegment(sqrt: real -> real, point: Point, lineStart: Point, lineEnd: Point): Option<real>
  {
    var lengthSquared := SqDist(lineStart, lineEnd);
    if lengthSquared == 0.0 then None
    else
      var t := Dot(point, lineStart, lineEnd) / lengthSquared;
      if t < 0.0 then Some(sqrt(SqDist(point, lineStart)))
      else if t > 1.0 then Some(sqrt(SqDist(point, lineEnd)))
      else Some(sqrt(SqDist(point, Lerp(lineStart, lineEnd, t))))
  }

  /**
   * The two distance functions agree on proper segments; before the start
   * (parameter below 0) the distance is to the start, past the end (above 1)
   * to the end.
   */
  lemma DistanceToLineSegmentAgrees(sqrt: real -> real, p: Point, a: Point, b: Point)
    requires a != b
    ensures SqDist(a, b) > 0.0
    ensures DistanceToLineSegment(sqrt, p, a, b) == Some(DistanceToLine(sqrt, p, a, b))
    ensures Dot(p, a, b) / SqDist(a, b) < 0.0 ==> DistanceToLineSegment(sqrt, p, a, b) == Some(Distance(sqrt, p, a))
    ensures Dot(p, a, b) / SqDist(a, b) > 1.0 ==> DistanceToLineSegment(sqrt, p, a, b) == Some(Distance(sqrt, p, b))
  {
    SqDistZero(a, b);
    var t := Dot(p, a, b) / SqDist(a, b);
    if t < 0.0 {
      assert Lerp(a, b, Clamp01(t)) == Lerp(a, b, 0.0) == a;
    } else if t > 1.0 {
      assert Lerp(a, b, Clamp01(t)) == Lerp(a, b, 1.0) == b;
    } else {
      assert Clamp01(t) == t;
    }
  }

  // --------------------------------------------------------------- hit tests

  /**
   * The box test of machines and closets: within half the size of the centre
   * in each direction, edges included.
   */
  predicate InBox(pos: Point, start: Point, end: Point)
  {
    var cx := (start.x + end.x) / 2.0;
    var cy := (start.y + end.y) / 2.0;
    var width := Abs(end.x - start.x);
    var height := Abs(end.y - start.y);
    pos.x >= cx - width / 2.0 && pos.x <= cx + width / 2.0
    && pos.y >= cy - height / 2.0 && pos.y <= cy + height / 2.0
  }

  /** The box around the centre is the box spanned by the two corners, whichever way it was drawn. */
  lemma InBoxSpanned(pos: Point, start: Point, end: Point)
    ensures InBox(pos, start, end) <==>
              Min(start.x, end.x) <= pos.x <= Max(start.x, end.x) && Min(start.y, end.y) <= pos.y <= Max(start.y, end.y)
  {
  }

  /** Types hit-tested as lines; emergency routes only in the split editor. */
  predicate IsLineKind(k: PlanType, routesAreLines: bool)
  {
    k == WallType || k == DoorStandard || k == DoorEmergency || k == WindowType
    || (routesAreLines && k == EmergencyRoute)
  }

  predicate IsBoxKind(k: PlanType)
  {
    k == Machine || k == Closet
  }

  /** The hit distance for line elements, in metres. */
  const HitDistance: real := 0.25

  /** One iteration's verdict in `findElementAtPosition`. */
  function HitBy(sqrt: real -> real, pos: Point, routesAreLines: bool): PlanElement -> bool
  {
    (e: PlanElement) =>
      if IsLineKind(e.kind, routesAreLines) then DistanceToLine(sqrt, pos, e.start, e.end) < HitDistance
      else if IsBoxKind(e.kind) then InBox(pos, e.start, e.end)
      else false
  }

  /**
   * `findElementAtPosition`, scanning from the last element to the first;
   * `routesAreLines` is false in floorplanner.js, which leaves routes out,
   * and true in floorplanner/elements.js.
   */
  method FindElementAtPosition(sqrt: real -> real, es: seq<PlanElement>, pos: Point, routesAreLines: bool)
    returns (r: Option<nat>)
    ensures r == LatestHitIndex(es, |es|, HitBy(sqrt, pos, routesAreLines))
  {
    var i := |es|;
    while i > 0
      invariant 0 <= i <= |es|
      invariant LatestHitIndex(es, |es|, HitBy(sqrt, pos, routesAreLines))
                == LatestHitIndex(es, i, HitBy(sqrt, pos, routesAreLines))
    {
      i := i - 1;
      var element := es[i];
      if IsLineKind(element.kind, routesAreLines) {
        var distToLine := DistanceToLine(sqrt, pos, element.start, element.end);
        if distToLine < HitDistance {
          return Some(i);
        }
      } else if IsBoxKind(element.kind) {
        if InBox(pos, element.start, element.end) {
          return Some(i);
        }
      }
    }
    return None;
  }

  /**
   * The element found is the latest one hit: a line element closer than the
   * hit distance or a box containing the point; no later element is hit,
   * elements of any other type are never found, and with routes left out a
   * route is never found either.
   */
  lemma FoundElementIsLatestHit(sqrt: real -> real, es: seq<PlanElement>, pos: Point, routesAreLines: bool)
    ensures var r := LatestHitIndex(es, |es|, HitBy(sqrt, pos, routesAreLines));
            r.Some? ==> r.value < |es|
                        && (IsLineKind(es[r.value].kind, routesAreLines) || IsBoxKind(es[r.value].kind))
                        && (IsLineKind(es[r.value].kind, routesAreLines) ==>
                              DistanceToLine(sqrt, pos, es[r.value].start, es[r.value].end) < HitDistance)
                        && (IsBoxKind(es[r.value].kind) ==> InBox(pos, es[r.value].start, es[r.value].end))
                        && (!routesAreLines ==> es[r.value].kind != EmergencyRoute)
                        && forall j :: r.value < j < |es| ==> !HitBy(sqrt, pos, routesAreLines)(es[j])
  {
  }

  /** The wall-detection distance of `findWallAtPosition`, in metres. */
  const WallHitDistance: real := 0.2

  function NearWall(sqrt: real -> real, pos: Point): PlanElement -> bool
  {
    (e: PlanElement) =>
      e.kind == WallType
      && var d := DistanceToLineSegment(sqrt, pos, e.start, e.end);
         d.Some? && d.value < WallHitDistance
  }

  /** `findWallAtPosition`: the FIRST wall in list order within the distance, not the nearest. */
  method FindWallAtPosition(sqrt: real -> real, es: seq<PlanElement>, pos: Point) returns (r: Option<PlanElement>)
    ensures r == Find(es, NearWall(sqrt, pos))
  {
    var i := 0;
    while i < |es|
      invariant 0 <= i <= |es|
      invariant Find(es, NearWall(sqrt, pos)) == Find(es[i..], NearWall(sqrt, pos))
    {
      assert es[i..] == [es[i]] + es[i + 1..];
      var element := es[i];
      if element.kind == WallType {
        var distance := DistanceToLineSegment(sqrt, pos, element.start, element.end);
        if distance.Some? && distance.value < WallHitDistance {
          return Some(element);
        }
      }
      i := i + 1;
    }
    return None;
  }

  /**
   * The wall found is a wall of positive length lying within the distance,
   * and the first such in list order, so a nearer wall later in the list
   * loses to it.
   */
  lemma FoundWallIsFirst(sqrt: real -> real, es: seq<PlanElement>, pos: Point)
    ensures var r := Find(es, NearWall(sqrt, pos));
            r.Some? ==> r.value.kind == WallType && r.value.start != r.value.end
                        && DistanceToLineSegment(sqrt, pos, r.value.start, r.value.end).Some?
                        && DistanceToLineSegment(sqrt, pos, r.value.start, r.value.end).value < WallHitDistance
    ensures var r := Find(es, NearWall(sqrt, pos));
            r.Some? ==> exists i :: 0 <= i < |es| && es[i] == r.value
                                    && forall j :: 0 <= j < i ==> !NearWall(sqrt, pos)(es[j])
  {
    var r := Find(es, NearWall(sqrt, pos));
    if r.Some? {
      var e := r.value;
      assert NearWall(sqrt, pos)(e);
      DegenerateSegmentHasNoDistance(sqrt, pos, e.start);
    }
  }

  lemma DegenerateSegmentHasNoDistance(sqrt: real -> real, p: Point, a: Point)
    ensures DistanceToLineSegment(sqrt, p, a, a).None?
  {
  }

  // ---------------------------------------------------------- mouse position

  /** Grid cell of the metre editors, in metres. */
  const GridSize: real := 0.5

  /**
   * `getCanvasMousePosition`: the pointer's offset in the canvas, less the
   * pan, divided by the scale, then snapped to the grid when `snap` holds.
   */
  function CanvasPosition(offset: Point, pan: Point, scale: real, snap: bool): Point
    requires scale > 0.0
  {
    var x := (offset.x - pan.x) / scale;
    var y := (offset.y - pan.y) / scale;
    if snap then Point(SnapToGrid(x, GridSize), SnapToGrid(y, GridSize)) else Point(x, y)
  }

  /**
   * Unsnapped, the position is the world point the renderer's `translate(pan)`
   * then `scale(scale)` draws under the pointer; snapped, it lies on the grid
   * within half a cell of that point in each coordinate.
   */
  lemma CanvasPositionInvertsView(offset: Point, pan: Point, scale: real, snap: bool)
    requires scale > 0.0
    ensures var w := CanvasPosition(offset, pan, scale, false);
            offset == Point(pan.x + scale * w.x, pan.y + scale * w.y)
    ensures var w := CanvasPosition(offset, pan, scale, false);
            var s := CanvasPosition(offset, pan, scale, true);
            OnGrid(s.x, GridSize) && OnGrid(s.y, GridSize)
            && Abs(s.x - w.x) <= GridSize / 2.0 && Abs(s.y - w.y) <= GridSize / 2.0
  {
    var w := CanvasPosition(offset, pan, scale, false);
    SnapToGridNearest(w.x, GridSize);
    SnapToGridNearest(w.y, GridSize);
  }

  // ------------------------------------------------------------ the handles

  datatype ResizeHandle = StartHandle | EndHandle | TopLeft | TopRight | BottomLeft | BottomRight

  /** Hit distance of the resize handles, in metres. */
  const HandleHitDistance: real := 0.3

  /** Where handle `h` of `e` sits. */
  function HandlePoint(e: PlanElement, h: ResizeHandle): Point
  {
    match h
    case StartHandle => e.start
    case EndHandle => e.end
    case TopLeft => Point(Min(e.start.x, e.end.x), Min(e.start.y, e.end.y))
    case TopRight => Point(Max(e.start.x, e.end.x), Min(e.start.y, e.end.y))
    case BottomLeft => Point(Min(e.start.x, e.end.x), Max(e.start.y, e.end.y))
    case BottomRight => Point(Max(e.start.x, e.end.x), Max(e.start.y, e.end.y))
  }

  function Near(sqrt: real -> real, pos: Point, q: Point): bool
  {
    sqrt(SqDist(pos, q)) < HandleHitDistance
  }

  /**
   * `getResizeHandleAtPosition` for the selected element: the end points of
   * line types and routes, the corners of boxes, tried in this order.
   */
  function HandleAt(sqrt: real -> real, e: PlanElement, pos: Point): Option<ResizeHandle>
  {
    if IsLineKind(e.kind, true) then
      if Near(sqrt, pos, e.start) then Some(StartHandle)
      else if Near(sqrt, pos, e.end) then Some(EndHandle)
      else None
    else if IsBoxKind(e.kind) then
      var minX, maxX := Min(e.start.x, e.end.x), Max(e.start.x, e.end.x);
      var minY, maxY := Min(e.start.y, e.end.y), Max(e.start.y, e.end.y);
      if Near(sqrt, pos, Point(minX, minY)) then Some(TopLeft)
      else if Near(sqrt, pos, Point(maxX, minY)) then Some(TopRight)
      else if Near(sqrt, pos, Point(minX, maxY)) then Some(BottomLeft)
      else if Near(sqrt, pos, Point(maxX, maxY)) then Some(BottomRight)
      else None
    else None
  }

  /** The order in which the handles of an element are tried. */
  function HandleOrder(e: PlanElement): seq<ResizeHandle>
  {
    if IsLineKind(e.kind, true) then [StartHandle, EndHandle]
    else if IsBoxKind(e.kind) then [TopLeft, TopRight, BottomLeft, BottomRight]
    else []
  }

  /**
   * The handle found is one of the element's own, within the hit distance of
   * the pointer, and no handle tried before it is; `None` exactly when no
   * handle of the element is that close.
   */
  lemma HandleAtIsFirstNear(sqrt: real -> real, e: PlanElement, pos: Point)
    ensures var r := HandleAt(sqrt, e, pos);
            var hs := HandleOrder(e);
            (r.None? <==> forall i :: 0 <= i < |hs| ==> !Near(sqrt, pos, HandlePoint(e, hs[i])))
            && (r.Some? ==> exists i :: 0 <= i < |hs| && hs[i] == r.value && Near(sqrt, pos, HandlePoint(e, hs[i]))
                                        && forall j :: 0 <= j < i ==> !Near(sqrt, pos, HandlePoint(e, hs[j])))
  {
    var r := HandleAt(sqrt, e, pos);
    var hs := HandleOrder(e);
    if r.Some? {
      var i := if r.value == StartHandle || r.value == TopLeft then 0
               else if r.value == EndHandle || r.value == TopRight then 1
               else if r.value == BottomLeft then 2 else 3;
      assert hs[i] == r.value;
    }
  }

  // ----------------------------------------------------- the property setter

  /**
   * `obj[parts[0]]...[parts[n-1]] = value` as `updateElementProperty` walks
   * it: a falsy or missing intermediate is replaced by a fresh object; a
   * truthy intermediate that is not an object absorbs the write and nothing
   * changes.
   */
  function SetPath(obj: map<string, Json>, parts: seq<string>, value: Json): map<string, Json>
    requires |parts| >= 1
    decreases |parts|
  {
    var key := parts[0];
    if |parts| == 1 then obj[key := value]
    else if key !in obj || !Truthy(obj[key]) then obj[key := JObj(SetPath(map[], parts[1..], value))]
    else if obj[key].JObj? then obj[key := JObj(SetPath(obj[key].fields, parts[1..], value))]
    else obj
  }

  /** Reading a dotted path; `None` where a step is missing or not an object. */
  function GetPath(obj: map<string, Json>, parts: seq<string>): Option<Json>
    requires |parts| >= 1
    decreases |parts|
  {
    var key := parts[0];
    if key !in obj then None
    else if |parts| == 1 then Some(obj[key])
    else if obj[key].JObj? then GetPath(obj[key].fields, parts[1..])
    else None
  }

  /** Every intermediate along the path is missing, falsy or an object, so the write lands. */
  predicate Reachable(obj: map<string, Json>, parts: seq<string>)
    requires |parts| >= 1
    decreases |parts|
  {
    |parts| == 1 || parts[0] !in obj || !Truthy(obj[parts[0]])
    || (obj[parts[0]].JObj? && Reachable(obj[parts[0]].fields, parts[1..]))
  }

  /**
   * After a write along a reachable path, reading the path gives the value
   * written; a path blocked by a truthy non-object changes nothing.
   */
  lemma {:induction false} SetThenGet(obj: map<string, Json>, parts: seq<string>, value: Json)
    requires |parts| >= 1
    ensures Reachable(obj, parts) ==> GetPath(SetPath(obj, parts, value), parts) == Some(value)
    ensures !Reachable(obj, parts) ==> SetPath(obj, parts, value) == obj
    decreases |parts|
  {
    if |parts| > 1 {
      var key := parts[0];
      if key !in obj || !Truthy(obj[key]) {
        SetThenGet(map[], parts[1..], value);
      } else if obj[key].JObj? {
        SetThenGet(obj[key].fields, parts[1..], value);
      }
    }
  }

  /**
   * A write touches only the first key of its path: every other key keeps its
   * value, and no key disappears.
   */
  lemma SetPathLocal(obj: map<string, Json>, parts: seq<string>, value: Json, k: string)
    requires |parts| >= 1
    ensures obj.Keys <= SetPath(obj, parts, value).Keys
    ensures k != parts[0] && k in obj ==> SetPath(obj, parts, value)[k] == obj[k]
  {
  }

  /**
   * Writing to a nested path under a missing key creates the intermediate
   * objects: the key then holds an object in which the rest of the path reads
   * back the value.
   */
  lemma SetPathCreates(obj: map<string, Json>, parts: seq<string>, value: Json)
    requires |parts| >= 2 && parts[0] !in obj
    ensures var r := SetPath(obj, parts, value);
            parts[0] in r && r[parts[0]].JObj? && GetPath(r[parts[0]].fields, parts[1..]) == Some(value)
  {
    SetThenGet(map[], parts[1..], value);
    assert Reachable(map[], parts[1..]);
  }
}
