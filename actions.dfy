// Element operations of the pixel editor: creation, cascading delete, the
// hit-test and search queries, resize handles, and the move and resize edits
// with the along-wall interval arithmetic of doors and windows.
//
// Creation and deletion change the store; the queries only read the element
// list and are methods with loops proved against specification functions;
// the edits are functions from the old element to the new one, which the
// event handlers write back into the list.

module Actions {
  import opened Wrappers
  import opened Geometry
  import opened Config
  import opened State

  // ------------------------------------------------------------------ creation

  /** The state after appending `e` and advancing the id counter. */
  function Appended(st: EditorState, e: Element): EditorState
  {
    st.(elements := st.elements + [e], nextElementId := st.nextElementId + 1)
  }

  function NewWall(id: int, start: Point, end: Point): (e: Element)
    ensures e.Wall? && e.id == id && WallStart(e) == start && WallEnd(e) == end
    ensures e.thickness == WALL_THICKNESS
  {
    Wall(id, start.x, start.y, end.x, end.y, WALL_THICKNESS)
  }

  /** Gear: the rectangle spanned by a drag in any direction. */
  function NewRect(id: int, start: Point, end: Point): (e: Element)
    ensures e.Rect? && e.id == id
    ensures e.x == Min(start.x, end.x) && e.x + e.width == Max(start.x, end.x)
    ensures e.y == Min(start.y, end.y) && e.y + e.height == Max(start.y, end.y)
    ensures e.width >= 0.0 && e.height >= 0.0
  {
    Rect(id, Min(start.x, end.x), Min(start.y, end.y), Abs(end.x - start.x), Abs(end.y - start.y))
  }

  /** Machines and closets: the dragged rectangle as a four-corner polygon. */
  function NewPolygon(id: int, kind: PolyKind, start: Point, end: Point): (e: Element)
    ensures e.Polygon? && e.id == id && e.polyKind == kind
    ensures |e.points| == 4
    ensures e.points[0] == Point(Min(start.x, end.x), Min(start.y, end.y))
    ensures e.points[1] == Point(Max(start.x, end.x), Min(start.y, end.y))
    ensures e.points[2] == Point(Max(start.x, end.x), Max(start.y, end.y))
    ensures e.points[3] == Point(Min(start.x, end.x), Max(start.y, end.y))
  {
    var x := Min(start.x, end.x);
    var y := Min(start.y, end.y);
    var w := Abs(end.x - start.x);
    var h := Abs(end.y - start.y);
    Polygon(id, kind, RectCorners(x, y, w, h))
  }

  /** A door or window on `wall`; it swings forwards when it was drawn forwards. */
  function NewWallChild(id: int, kind: ChildKind, wall: Element, startDist: real, length: real,
                        drawnForward: bool): (e: Element)
    ensures e.WallChild? && e.id == id && e.kind == kind && e.wallId == wall.id
    ensures e.distanceAlongWall == startDist && e.length == length
    ensures e.swingDirection == 1 || e.swingDirection == -1
    ensures e.swingDirection == 1 <==> drawnForward
  {
    WallChild(id, kind, wall.id, startDist, length, if drawnForward then 1 else -1)
  }

  function NewRoute(id: int, points: seq<Point>): (e: Element)
    ensures e.Route? && e.id == id && e.points == points
  {
    Route(id, points)
  }

  /**
   * Appending a new element under the current counter keeps the state valid,
   * as long as a new door or window names a wall of the list.
   */
  lemma AppendedValid(st: EditorState, e: Element)
    requires Valid(st)
    requires e.id == st.nextElementId
    requires e.WallChild? ==> HasWall(st.elements, e.wallId)
    requires e.WallChild? ==> !Overlaps(st.elements, e.wallId, None, e.distanceAlongWall, e.length)
    ensures Valid(Appended(st, e))
    ensures Appended(st, e).elements[..|st.elements|] == st.elements
    ensures Appended(st, e).elements[|st.elements|] == e
  {
    var es' := Appended(st, e).elements;
    forall i | 0 <= i < |es'| && es'[i].WallChild? ensures HasWall(es', es'[i].wallId) {
      if i < |st.elements| {
        assert es'[i] == st.elements[i];
        var w :| w in st.elements && w.Wall? && w.id == es'[i].wallId;
        assert w in es';
      } else {
        var w :| w in st.elements && w.Wall? && w.id == e.wallId;
        assert w in es';
      }
    }
    forall i | 0 <= i < |es'| ensures 1 <= es'[i].id < st.nextElementId + 1 {
      if i < |st.elements| {
        assert es'[i] == st.elements[i];
      }
    }
    forall i, j | 0 <= i < j < |es'| ensures es'[i].id != es'[j].id {
      assert es'[i] == st.elements[i];
      if j < |st.elements| {
        assert es'[j] == st.elements[j];
      }
    }
    if st.drawingOnWallTarget.Some? {
      assert st.drawingOnWallTarget.value.wall in es';
    }
    AppendKeepsApart(st.elements, e);
  }

  /** The clash-freedom part of `AppendedValid`. */
  lemma AppendKeepsApart(es: seq<Element>, e: Element)
    requires OpeningsApart(es) && forall i :: 0 <= i < |es| ==> es[i].id != e.id
    requires e.WallChild? ==> !Overlaps(es, e.wallId, None, e.distanceAlongWall, e.length)
    ensures OpeningsApart(es + [e])
  {
    var es' := es + [e];
    forall i, j | 0 <= i < |es'| && 0 <= j < |es'| && i != j ensures Apart()(es'[i], es'[j]) {
      var n := |es|;
      if i < n && j < n {
        assert es'[i] == es[i] && es'[j] == es[j];
      } else if i == n {
        assert es'[j] == es[j];
        if e.WallChild? {
          assert !Conflicts(es'[j], e.wallId, None, e.distanceAlongWall, e.length);
        }
      } else {
        assert es'[i] == es[i];
        if e.WallChild? && es'[i].WallChild? {
          ConflictsSymmetric(es'[i], e);
          assert !Conflicts(es'[i], e.wallId, None, e.distanceAlongWall, e.length);
        }
      }
    }
  }

  method CreateWall(s: Store, start: Point, end: Point)
    modifies s
    ensures s.Snapshot() == Appended(old(s.Snapshot()), NewWall(old(s.nextElementId), start, end))
  {
    var e := NewWall(s.nextElementId, start, end);
    s.AddElement(e);
    s.nextElementId := s.nextElementId + 1;
  }

  method CreateRectElement(s: Store, start: Point, end: Point)
    modifies s
    ensures s.Snapshot() == Appended(old(s.Snapshot()), NewRect(old(s.nextElementId), start, end))
  {
    var e := NewRect(s.nextElementId, start, end);
    s.AddElement(e);
    s.nextElementId := s.nextElementId + 1;
  }

  method CreatePolygonElementFromRect(s: Store, kind: PolyKind, start: Point, end: Point)
    modifies s
    ensures s.Snapshot() == Appended(old(s.Snapshot()), NewPolygon(old(s.nextElementId), kind, start, end))
  {
    var e := NewPolygon(s.nextElementId, kind, start, end);
    s.AddElement(e);
    s.nextElementId := s.nextElementId + 1;
  }

  method CreateWallChild(s: Store, kind: ChildKind, wall: Element, startDist: real, length: real,
                         drawnForward: bool)
    modifies s
    ensures s.Snapshot() == Appended(old(s.Snapshot()),
              NewWallChild(old(s.nextElementId), kind, wall, startDist, length, drawnForward))
  {
    var e := NewWallChild(s.nextElementId, kind, wall, startDist, length, drawnForward);
    s.AddElement(e);
    s.nextElementId := s.nextElementId + 1;
  }

  method CreateRoute(s: Store, points: seq<Point>)
    modifies s
    ensures s.Snapshot() == Appended(old(s.Snapshot()), NewRoute(old(s.nextElementId), points))
  {
    var e := NewRoute(s.nextElementId, points);
    s.AddElement(e);
    s.nextElementId := s.nextElementId + 1;
  }

  // ------------------------------------------------------------------ deletion

  /**
   * `deleteElement`: a wall's doors and windows go first, then the element
   * itself; the selection is cleared when it was the deleted element.
   */
  function Deleted(st: EditorState, e: Element): EditorState
  {
    var es1 := if e.Wall? then WithoutChildrenOf(st.elements, e.id) else st.elements;
    var (es2, deleted) := RemovedById(es1, e.id);
    st.(elements := es2,
        selectedId := if deleted && st.selectedId == Some(e.id) then None else st.selectedId)
  }

  /** What `Deleted` keeps: everything but the id and, for a wall, its children. */
  predicate SurvivesDelete(target: Element, x: Element)
  {
    x.id != target.id && (target.Wall? ==> WallIdOf(x) != Some(target.id))
  }

  function Survivors(target: Element): Element -> bool
  {
    (x: Element) => SurvivesDelete(target, x)
  }

  /** No door or window names itself as its wall (true of every valid state). */
  predicate NoSelfParent(es: seq<Element>)
  {
    forall i :: 0 <= i < |es| && es[i].WallChild? ==> es[i].wallId != es[i].id
  }

  /**
   * Deleting keeps, in order, exactly the elements that are neither the
   * target nor (for a wall) its doors and windows.
   */
  lemma DeletedElements(st: EditorState, e: Element)
    ensures Deleted(st, e).elements == Filter(st.elements, Survivors(e))
  {
    var es := st.elements;
    if e.Wall? {
      RemovedByIdNoCascade(WithoutChildrenOf(es, e.id), e.id);
      FilterFilter(es, NotChildOf(e.id), NotId(e.id), Survivors(e));
    } else {
      RemovedByIdNoCascade(es, e.id);
      FilterSameVerdict(es, NotId(e.id), Survivors(e));
    }
  }

  /**
   * The selection is cleared exactly when it named the target and the target
   * was in the list; nothing but the list and the selection changes.
   */
  lemma DeletedSelection(st: EditorState, e: Element)
    requires NoSelfParent(st.elements)
    ensures Deleted(st, e).selectedId ==
              if st.selectedId == Some(e.id) && HasId(st.elements, e.id) then None else st.selectedId
    ensures Deleted(st, e).(elements := st.elements, selectedId := st.selectedId) == st
  {
    var es := st.elements;
    if e.Wall? {
      RemovedByIdNoCascade(WithoutChildrenOf(es, e.id), e.id);
      ChildrenFilteredHasId(es, e.id);
    } else {
      RemovedByIdNoCascade(es, e.id);
    }
  }

  /** Dropping a wall's doors and windows keeps every other holder of the wall's id. */
  lemma ChildrenFilteredHasId(es: seq<Element>, id: int)
    requires NoSelfParent(es)
    ensures HasId(WithoutChildrenOf(es, id), id) == HasId(es, id)
  {
    var r := WithoutChildrenOf(es, id);
    if HasId(es, id) {
      var i :| 0 <= i < |es| && es[i].id == id;
      assert es[i] in r;
      var k :| 0 <= k < |r| && r[k] == es[i];
    }
    if HasId(r, id) {
      var i :| 0 <= i < |r| && r[i].id == id;
      assert r[i] in es;
      var k :| 0 <= k < |es| && es[k] == r[i];
    }
  }

  /**
   * Removing elements keeps the state valid when no door or window is being
   * drawn and no door or window loses its wall.
   */
  lemma FilteredValid(st: EditorState, keep: Element -> bool)
    requires Valid(st) && st.drawingOnWallTarget.None?
    requires forall c, w :: (c in st.elements && w in st.elements && keep(c) && c.WallChild?
                             && w.Wall? && w.id == c.wallId) ==> keep(w)
    ensures Valid(st.(elements := Filter(st.elements, keep)))
  {
    var es := st.elements;
    var r := Filter(es, keep);
    SubsequenceIds(es, keep);
    FilterPairwise(es, keep, Apart());
    forall i | 0 <= i < |r| ensures 1 <= r[i].id < st.nextElementId {
      assert r[i] in es;
      var k :| 0 <= k < |es| && es[k] == r[i];
    }
    forall i | 0 <= i < |r| && r[i].WallChild? ensures HasWall(r, r[i].wallId) {
      assert r[i] in es;
      var k :| 0 <= k < |es| && es[k] == r[i];
      var w :| w in es && w.Wall? && w.id == r[i].wallId;
      assert w in r;
    }
  }

  lemma ValidNoSelfParent(st: EditorState)
    requires Valid(st)
    ensures NoSelfParent(st.elements)
  {
    var es := st.elements;
    forall i | 0 <= i < |es| && es[i].WallChild? ensures es[i].wallId != es[i].id {
      var w :| w in es && w.Wall? && w.id == es[i].wallId;
      var k :| 0 <= k < |es| && es[k] == w;
      assert k != i;
    }
  }

  /** Deleting an element of the list in the delete tool keeps the state valid. */
  lemma DeletedValid(st: EditorState, e: Element)
    requires Valid(st) && st.drawingOnWallTarget.None?
    requires e in st.elements
    ensures Valid(Deleted(st, e))
  {
    var es := st.elements;
    ValidNoSelfParent(st);
    DeletedElements(st, e);
    DeletedSelection(st, e);
    forall c, w | c in es && w in es && Survivors(e)(c) && c.WallChild? && w.Wall? && w.id == c.wallId
      ensures Survivors(e)(w)
    {
    }
    FilteredValid(st, Survivors(e));
    var st' := st.(elements := Filter(es, Survivors(e)));
    assert Deleted(st, e) == st'.(selectedId := Deleted(st, e).selectedId);
  }

  /** Filtering keeps distinct ids distinct. */
  lemma {:induction false} SubsequenceIds(es: seq<Element>, keep: Element -> bool)
    requires UniqueIds(es)
    ensures UniqueIds(Filter(es, keep))
  {
    if es != [] {
      SubsequenceIds(es[1..], keep);
      var tail := Filter(es[1..], keep);
      var r := Filter(es, keep);
      forall i | 0 <= i < |tail| ensures tail[i].id != es[0].id {
        assert tail[i] in tail;
        var k :| 0 <= k < |es[1..]| && es[1..][k] == tail[i];
        assert es[k + 1] == tail[i];
      }
      if keep(es[0]) {
        assert r == [es[0]] + tail;
        forall i, j | 0 <= i < j < |r| ensures r[i].id != r[j].id {
          assert r[j] == tail[j - 1];
          if i > 0 {
            assert r[i] == tail[i - 1];
          }
        }
      } else {
        assert r == tail;
      }
    }
  }

  method DeleteElement(s: Store, target: Option<Element>)
    modifies s
    ensures target.None? ==> s.Snapshot() == old(s.Snapshot())
    ensures target.Some? ==> s.Snapshot() == Deleted(old(s.Snapshot()), target.value)
  {
    if target.None? {
      return;
    }
    var e := target.value;
    if e.Wall? {
      s.RemoveElementsByWallId(e.id);
    }
    var deleted := s.RemoveElementById(e.id);
    if deleted {
      if s.selectedId.Some? && s.selectedId.value == e.id {
        s.selectedId := None;
      }
    }
  }

  // ---------------------------------------------------------- along-wall overlap

  predicate Overlaps(es: seq<Element>, wallId: int, selfId: Option<int>, start: real, length: real)
  {
    exists i :: 0 <= i < |es| && Conflicts(es[i], wallId, selfId, start, length)
  }

  function ChildOfExcept(wallId: int, selfId: Option<int>): Element -> bool
  {
    (e: Element) => WallIdOf(e) == Some(wallId) && selfId != Some(e.id)
  }

  method CheckWallChildOverlap(es: seq<Element>, wall: Element, selfId: Option<int>,
                               proposedStart: real, proposedLength: real) returns (overlap: bool)
    ensures overlap <==> Overlaps(es, wall.id, selfId, proposedStart, proposedLength)
  {
    var children := Filter(es, ChildOfExcept(wall.id, selfId));
    var proposedEnd := proposedStart + proposedLength;
    var k := 0;
    while k < |children|
      invariant 0 <= k <= |children|
      invariant forall m :: 0 <= m < k ==> !Conflicts(children[m], wall.id, selfId, proposedStart, proposedLength)
    {
      var child := children[k];
      assert child in children;
      var childEnd := child.distanceAlongWall + child.length;
      if !(proposedEnd <= child.distanceAlongWall + 0.1 || proposedStart >= childEnd - 0.1) {
        var i :| 0 <= i < |es| && es[i] == child;
        return true;
      }
      k := k + 1;
    }
    forall i | 0 <= i < |es| ensures !Conflicts(es[i], wall.id, selfId, proposedStart, proposedLength) {
      assert es[i] in es;
    }
    return false;
  }

  // ---------------------------------------------------------- nearest wall

  datatype WallHit = WallHit(wall: Element, distance: real)

  /** Perpendicular distance from `p` to the line through wall `w`. */
  function LineDistance(sqrt: real -> real, w: Element, p: Point): real
    requires w.Wall? && Distance(sqrt, WallStart(w), WallEnd(w)) != 0.0
  {
    Abs(Cross(p, WallStart(w), WallEnd(w))) / Distance(sqrt, WallStart(w), WallEnd(w))
  }

  /** A wall the nearest-wall search considers: of non-zero length, with `p` projecting onto it. */
  predicate WallCandidate(sqrt: real -> real, e: Element, p: Point)
  {
    e.Wall? && Distance(sqrt, WallStart(e), WallEnd(e)) != 0.0
    && ProjectPointOntoLineSegment(sqrt, p, WallStart(e), WallEnd(e)).onSegment
  }

  /**
   * Index of the wall the search over `es[..n]` keeps: each candidate
   * strictly closer than the best so far (initially the tolerance) replaces it.
   */
  function NearestWallIndex(sqrt: real -> real, es: seq<Element>, n: nat, p: Point, tolerance: real): (k: Option<nat>)
    requires n <= |es|
    ensures k.Some? ==> k.value < n && WallCandidate(sqrt, es[k.value], p)
  {
    if n == 0 then None
    else
      var best := NearestWallIndex(sqrt, es, n - 1, p, tolerance);
      var bound := if best.Some? then LineDistance(sqrt, es[best.value], p) else tolerance;
      var e := es[n - 1];
      if WallCandidate(sqrt, e, p) && LineDistance(sqrt, e, p) < bound then Some(n - 1) else best
  }

  /**
   * The search finds nothing exactly when no candidate is closer than the
   * tolerance; otherwise it keeps a closest candidate, closer than the
   * tolerance, and of several equally close ones the earliest.
   */
  lemma {:induction false} NearestWallSpec(sqrt: real -> real, es: seq<Element>, n: nat, p: Point, tolerance: real)
    requires n <= |es|
    ensures var r := NearestWallIndex(sqrt, es, n, p, tolerance);
            r.None? <==> forall i :: 0 <= i < n && WallCandidate(sqrt, es[i], p) ==> LineDistance(sqrt, es[i], p) >= tolerance
    ensures var r := NearestWallIndex(sqrt, es, n, p, tolerance);
            r.Some? ==>
              var d := LineDistance(sqrt, es[r.value], p);
              d < tolerance
              && (forall i :: 0 <= i < r.value && WallCandidate(sqrt, es[i], p) ==> LineDistance(sqrt, es[i], p) > d)
              && (forall i :: r.value <= i < n && WallCandidate(sqrt, es[i], p) ==> LineDistance(sqrt, es[i], p) >= d)
  {
    if n > 0 {
      NearestWallSpec(sqrt, es, n - 1, p, tolerance);
    }
  }

  function FindWallNearPointSpec(sqrt: real -> real, es: seq<Element>, p: Point, tolerance: real): (r: Option<WallHit>)
    ensures r.Some? ==> r.value.wall in es && WallCandidate(sqrt, r.value.wall, p)
  {
    match NearestWallIndex(sqrt, es, |es|, p, tolerance)
    case None => None
    case Some(k) => Some(WallHit(es[k], LineDistance(sqrt, es[k], p)))
  }

  method FindWallNearPoint(sqrt: real -> real, es: seq<Element>, p: Point, tolerance: real) returns (r: Option<WallHit>)
    ensures r == FindWallNearPointSpec(sqrt, es, p, tolerance)
  {
    var closestWall: Option<Element> := None;
    var minDistance := tolerance;
    var i := 0;
    while i < |es|
      invariant 0 <= i <= |es|
      invariant match NearestWallIndex(sqrt, es, i, p, tolerance)
                case None => closestWall.None? && minDistance == tolerance
                case Some(k) => closestWall == Some(es[k]) && minDistance == LineDistance(sqrt, es[k], p)
    {
      var el := es[i];
      if el.Wall? {
        var len := Distance(sqrt, WallStart(el), WallEnd(el));
        if len != 0.0 {
          var distToLine := Abs(Cross(p, WallStart(el), WallEnd(el))) / len;
          var projection := ProjectPointOntoLineSegment(sqrt, p, WallStart(el), WallEnd(el));
          if distToLine < minDistance && projection.onSegment {
            minDistance := distToLine;
            closestWall := Some(el);
          }
        }
      }
      i := i + 1;
    }
    r := if closestWall.Some? then Some(WallHit(closestWall.value, minDistance)) else None;
  }

  // ---------------------------------------------------------- near a door

  function WithId(id: int): Element -> bool { (e: Element) => e.id == id }

  /**
   * `p` lies within `tolerance` of door `d`'s opening on its wall. The wall is
   * the first element with the door's `wallId`; in a valid state it is a wall.
   */
  predicate NearDoor(sqrt: real -> real, es: seq<Element>, d: Element, p: Point, tolerance: real)
    requires d.WallChild?
  {
    match Find(es, WithId(d.wallId))
    case None => false
    case Some(w) =>
      w.Wall?
      && IsPointOnLineSegment(sqrt, p,
           GetPointAlongLine(sqrt, WallStart(w), WallEnd(w), d.distanceAlongWall),
           GetPointAlongLine(sqrt, WallStart(w), WallEnd(w), d.distanceAlongWall + d.length),
           tolerance)
  }

  function IsDoor(): Element -> bool { (e: Element) => e.WallChild? && e.kind == Door }

  method IsPointNearDoor(sqrt: real -> real, es: seq<Element>, p: Point, tolerance: real) returns (near: bool)
    ensures near <==> exists i :: 0 <= i < |es| && es[i].WallChild? && es[i].kind == Door
                                  && NearDoor(sqrt, es, es[i], p, tolerance)
  {
    var doors := Filter(es, IsDoor());
    var k := 0;
    while k < |doors|
      invariant 0 <= k <= |doors|
      invariant forall m :: 0 <= m < k ==> doors[m].WallChild? && !NearDoor(sqrt, es, doors[m], p, tolerance)
    {
      var door := doors[k];
      assert door in doors;
      var wall := Find(es, WithId(door.wallId));
      if wall.Some? && wall.value.Wall? {
        var w := wall.value;
        var gap1 := GetPointAlongLine(sqrt, WallStart(w), WallEnd(w), door.distanceAlongWall);
        var gap2 := GetPointAlongLine(sqrt, WallStart(w), WallEnd(w), door.distanceAlongWall + door.length);
        if IsPointOnLineSegment(sqrt, p, gap1, gap2, tolerance) {
          var i :| 0 <= i < |es| && es[i] == door;
          return true;
        }
      }
      k := k + 1;
    }
    forall i | 0 <= i < |es| && es[i].WallChild? && es[i].kind == Door
      ensures !NearDoor(sqrt, es, es[i], p, tolerance)
    {
      assert es[i] in doors;
      var m :| 0 <= m < |doors| && doors[m] == es[i];
    }
    return false;
  }

  // ---------------------------------------------------------- hit testing

  /** Gear: inside the rectangle, edges included. */
  function RectContains(p: Point): Element -> bool
  {
    (e: Element) => e.Rect? && p.x >= e.x && p.x <= e.x + e.width && p.y >= e.y && p.y <= e.y + e.height
  }

  /** Machines and closets: inside the polygon by the even-odd rule. */
  function PolygonContains(p: Point): Element -> bool
  {
    (e: Element) => e.Polygon? && InPolygon(p.x, p.y, e.points)
  }

  /** `p` is within `tolerance` of some segment of the polyline `pts`. */
  predicate RouteNear(sqrt: real -> real, pts: seq<Point>, p: Point, tolerance: real)
  {
    exists j :: 0 <= j < |pts| - 1 && IsPointOnLineSegment(sqrt, p, pts[j], pts[j + 1], tolerance)
  }

  function OnRoute(sqrt: real -> real, p: Point): Element -> bool
  {
    (e: Element) => e.Route? && RouteNear(sqrt, e.points, p, SnapTolerance)
  }

  /** Half the wall's thickness (the default thickness for none) plus two pixels. */
  function WallHitTolerance(w: Element): real
    requires w.Wall?
  {
    (if w.thickness != 0.0 then w.thickness else WALL_THICKNESS) / 2.0 + 2.0
  }

  /** A wall is hit when the nearest-wall search, with the wall's own tolerance, returns it. */
  function NearestIs(sqrt: real -> real, es: seq<Element>, p: Point): Element -> bool
  {
    (e: Element) => e.Wall?
      && match FindWallNearPointSpec(sqrt, es, p, WallHitTolerance(e))
         case None => false
         case Some(h) => h.wall.id == e.id
  }

  function ChildOf(wallId: int): Element -> bool
  {
    (e: Element) => WallIdOf(e) == Some(wallId)
  }

  /** A door or window whose interval along its wall contains `d`. */
  function Covers(d: real): Element -> bool
  {
    (c: Element) => c.WallChild? && d >= c.distanceAlongWall && d <= c.distanceAlongWall + c.length
  }

  /**
   * For a hit wall: the first of its doors and windows (in list order) whose
   * interval contains the projected distance of `p`, or else the wall.
   */
  function WallOrChildAt(sqrt: real -> real, es: seq<Element>, w: Element, p: Point): Element
    requires w.Wall?
  {
    var proj := ProjectPointOntoLineSegment(sqrt, p, WallStart(w), WallEnd(w));
    if proj.onSegment then
      var distOnWall := Distance(sqrt, WallStart(w), Point(proj.x, proj.y));
      match Find(Filter(es, ChildOf(w.id)), Covers(distOnWall))
      case Some(c) => c
      case None => w
    else w
  }

  /**
   * `findElementAt`: gear first, then machines and closets, then escape
   * routes, then walls with their doors and windows; each group scanned from
   * the latest element.
   */
  function FindElementAtSpec(sqrt: real -> real, es: seq<Element>, p: Point): Option<Element>
  {
    match LatestHitIndex(es, |es|, RectContains(p))
    case Some(k) => Some(es[k])
    case None =>
      match LatestHitIndex(es, |es|, PolygonContains(p))
      case Some(k) => Some(es[k])
      case None =>
        match LatestHitIndex(es, |es|, OnRoute(sqrt, p))
        case Some(k) => Some(es[k])
        case None =>
          match LatestHitIndex(es, |es|, NearestIs(sqrt, es, p))
          case Some(k) => Some(WallOrChildAt(sqrt, es, es[k], p))
          case None => None
  }

  /** Some element of `es` satisfies `hit`. */
  predicate AnyHit(es: seq<Element>, hit: Element -> bool)
  {
    exists i :: 0 <= i < |es| && hit(es[i])
  }

  /**
   * The priority of the hit test: a gear under the point always wins; a
   * machine or closet only when no gear is hit; a route only when neither is;
   * a wall, door or window only when none of the three is. What is found is
   * an element of the list: the latest hit of its group, or a door or window
   * of the latest hit wall.
   */
  lemma FindElementAtPriority(sqrt: real -> real, es: seq<Element>, p: Point)
    ensures var r := FindElementAtSpec(sqrt, es, p);
            r.Some? ==> r.value in es
    ensures var r := FindElementAtSpec(sqrt, es, p);
            AnyHit(es, RectContains(p)) ==> r.Some? && RectContains(p)(r.value)
    ensures var r := FindElementAtSpec(sqrt, es, p);
            r.Some? && r.value.Polygon? ==> !AnyHit(es, RectContains(p)) && PolygonContains(p)(r.value)
    ensures var r := FindElementAtSpec(sqrt, es, p);
            r.Some? && r.value.Route? ==>
              !AnyHit(es, RectContains(p)) && !AnyHit(es, PolygonContains(p)) && OnRoute(sqrt, p)(r.value)
    ensures var r := FindElementAtSpec(sqrt, es, p);
            r.Some? && (r.value.Wall? || r.value.WallChild?) ==>
              !AnyHit(es, RectContains(p)) && !AnyHit(es, PolygonContains(p)) && !AnyHit(es, OnRoute(sqrt, p))
              && exists w :: w in es && NearestIs(sqrt, es, p)(w)
                             && (r.value == w || (r.value.WallChild? && r.value.wallId == w.id))
    ensures FindElementAtSpec(sqrt, es, p).None? <==>
              !AnyHit(es, RectContains(p)) && !AnyHit(es, PolygonContains(p))
              && !AnyHit(es, OnRoute(sqrt, p)) && !AnyHit(es, NearestIs(sqrt, es, p))
  {
    var r := FindElementAtSpec(sqrt, es, p);
    var k4 := LatestHitIndex(es, |es|, NearestIs(sqrt, es, p));
    if AnyHit(es, RectContains(p)) || AnyHit(es, PolygonContains(p)) || AnyHit(es, OnRoute(sqrt, p)) {
    } else if k4.Some? {
      var w := es[k4.value];
      var children := Filter(es, ChildOf(w.id));
      var proj := ProjectPointOntoLineSegment(sqrt, p, WallStart(w), WallEnd(w));
      if proj.onSegment {
        var distOnWall := Distance(sqrt, WallStart(w), Point(proj.x, proj.y));
        var c := Find(children, Covers(distOnWall));
        if c.Some? {
          assert c.value in children;
        }
      }
    }
  }

  method IsPointOnRoute(sqrt: real -> real, pts: seq<Point>, p: Point, tolerance: real) returns (near: bool)
    ensures near <==> RouteNear(sqrt, pts, p, tolerance)
  {
    var j := 0;
    while j < |pts| - 1
      invariant 0 <= j <= |pts| || |pts| == 0
      invariant forall m :: 0 <= m < j && m < |pts| - 1 ==> !IsPointOnLineSegment(sqrt, p, pts[m], pts[m + 1], tolerance)
    {
      if IsPointOnLineSegment(sqrt, p, pts[j], pts[j + 1], tolerance) {
        return true;
      }
      j := j + 1;
    }
    return false;
  }

  method FindElementAt(sqrt: real -> real, es: seq<Element>, p: Point) returns (r: Option<Element>)
    ensures r == FindElementAtSpec(sqrt, es, p)
  {
    var k := LatestGearAt(es, p);
    if k.Some? { return Some(es[k.value]); }
    k := LatestPolygonAt(es, p);
    if k.Some? { return Some(es[k.value]); }
    k := LatestRouteAt(sqrt, es, p);
    if k.Some? { return Some(es[k.value]); }
    k := LatestWallAt(sqrt, es, p);
    if k.Some? {
      var hit := HitOnWall(sqrt, es, es[k.value], p);
      return Some(hit);
    }
    return None;
  }

  /** Step 1 of `findElementAt`: the latest gear rectangle under `p`. */
  method LatestGearAt(es: seq<Element>, p: Point) returns (k: Option<nat>)
    ensures k == LatestHitIndex(es, |es|, RectContains(p))
  {
    var i := |es|;
    while i > 0
      invariant 0 <= i <= |es|
      invariant LatestHitIndex(es, |es|, RectContains(p)) == LatestHitIndex(es, i, RectContains(p))
    {
      i := i - 1;
      var el := es[i];
      if el.Rect? && p.x >= el.x && p.x <= el.x + el.width && p.y >= el.y && p.y <= el.y + el.height {
        return Some(i);
      }
    }
    return None;
  }

  /** Step 2: the latest machine or closet containing `p`. */
  method LatestPolygonAt(es: seq<Element>, p: Point) returns (k: Option<nat>)
    ensures k == LatestHitIndex(es, |es|, PolygonContains(p))
  {
    var i := |es|;
    while i > 0
      invariant 0 <= i <= |es|
      invariant LatestHitIndex(es, |es|, PolygonContains(p)) == LatestHitIndex(es, i, PolygonContains(p))
    {
      i := i - 1;
      var el := es[i];
      if el.Polygon? {
        var inside := IsPointInPolygon(p.x, p.y, el.points);
        if inside {
          return Some(i);
        }
      }
    }
    return None;
  }

  /** Step 3: the latest escape route passing within the snap tolerance of `p`. */
  method LatestRouteAt(sqrt: real -> real, es: seq<Element>, p: Point) returns (k: Option<nat>)
    ensures k == LatestHitIndex(es, |es|, OnRoute(sqrt, p))
  {
    var i := |es|;
    while i > 0
      invariant 0 <= i <= |es|
      invariant LatestHitIndex(es, |es|, OnRoute(sqrt, p)) == LatestHitIndex(es, i, OnRoute(sqrt, p))
    {
      i := i - 1;
      var el := es[i];
      if el.Route? {
        var near := IsPointOnRoute(sqrt, el.points, p, SnapTolerance);
        if near {
          return Some(i);
        }
      }
    }
    return None;
  }

  /** Step 4: the latest wall that the nearest-wall search returns for `p`. */
  method LatestWallAt(sqrt: real -> real, es: seq<Element>, p: Point) returns (k: Option<nat>)
    ensures k == LatestHitIndex(es, |es|, NearestIs(sqrt, es, p))
  {
    ghost var nearest := NearestIs(sqrt, es, p);
    var i := |es|;
    while i > 0
      invariant 0 <= i <= |es|
      invariant LatestHitIndex(es, |es|, nearest) == LatestHitIndex(es, i, nearest)
    {
      LatestHitStep(es, i, nearest);
      i := i - 1;
      var el := es[i];
      var hit := IsNearestWall(sqrt, es, p, el);
      if hit {
        return Some(i);
      }
    }
    return None;
  }

  /** Whether `el` is a wall and the nearest-wall search with its own tolerance returns it. */
  method IsNearestWall(sqrt: real -> real, es: seq<Element>, p: Point, el: Element) returns (hit: bool)
    ensures hit == NearestIs(sqrt, es, p)(el)
  {
    if el.Wall? {
      var wallInfo := FindWallNearPoint(sqrt, es, p, WallHitTolerance(el));
      return wallInfo.Some? && wallInfo.value.wall.id == el.id;
    }
    return false;
  }

  /** The door or window of hit wall `w` under `p`, or the wall itself. */
  method HitOnWall(sqrt: real -> real, es: seq<Element>, w: Element, p: Point) returns (hit: Element)
    requires w.Wall?
    ensures hit == WallOrChildAt(sqrt, es, w, p)
  {
    var children := Filter(es, ChildOf(w.id));
    var projection := ProjectPointOntoLineSegment(sqrt, p, WallStart(w), WallEnd(w));
    if projection.onSegment {
      var distOnWall := Distance(sqrt, WallStart(w), Point(projection.x, projection.y));
      var k := 0;
      while k < |children|
        invariant 0 <= k <= |children|
        invariant forall m :: 0 <= m < k ==> !Covers(distOnWall)(children[m])
      {
        var child := children[k];
        assert child in children;
        if distOnWall >= child.distanceAlongWall && distOnWall <= child.distanceAlongWall + child.length {
          return child;
        }
        k := k + 1;
      }
    }
    return w;
  }

  // ------------------------------------------------------------------ handles

  /**
   * The wall a door or window sits on: the first element carrying its
   * `wallId`, when that element is a wall.
   */
  function WallOf(es: seq<Element>, c: Element): (r: Option<Element>)
    requires c.WallChild?
    ensures r.Some? ==> r.value in es && r.value.Wall? && r.value.id == c.wallId
    ensures r.None? <==> !HasWall(es, c.wallId) || !Find(es, WithId(c.wallId)).value.Wall?
  {
    match Find(es, WithId(c.wallId))
    case None => None
    case Some(w) => if w.Wall? then Some(w) else None
  }

  function WallLength(sqrt: real -> real, w: Element): real
    requires w.Wall?
  {
    Distance(sqrt, WallStart(w), WallEnd(w))
  }

  /** Distance from the wall's start to where `p` projects onto the wall. */
  function ProjectedDistance(sqrt: real -> real, w: Element, p: Point): real
    requires w.Wall?
  {
    var proj := ProjectPointOntoLineSegment(sqrt, p, WallStart(w), WallEnd(w));
    Distance(sqrt, WallStart(w), Point(proj.x, proj.y))
  }

  /** The handles a kind of element offers, and the range of a corner index. */
  predicate HandleFits(id: HandleId, e: Element)
  {
    match id
    case Corner(i) => e.Polygon? && 0 <= i < |e.points|
    case GapStart => e.WallChild?
    case GapEnd => e.WallChild?
    case P1 => e.Wall?
    case P2 => e.Wall?
    case _ => e.Rect?
  }

  /**
   * `getResizeHandles`: a corner per polygon vertex, the two ends of a door's
   * or window's opening, the four corners and four edge midpoints of a gear
   * rectangle, the two ends of a wall; no handles (`None`) for a route, an
   * empty polygon or a door or window whose wall is missing.
   */
  function GetResizeHandles(sqrt: real -> real, es: seq<Element>, e: Element): (r: Option<seq<Handle>>)
    ensures r.Some? ==> |r.value| > 0 && forall h :: h in r.value ==> HandleFits(h.id, e)
    ensures r.None? <==> e.Route? || (e.Polygon? && |e.points| == 0) || (e.WallChild? && WallOf(es, e).None?)
    ensures e.Polygon? && r.Some? ==>
              |r.value| == |e.points|
              && forall i :: 0 <= i < |e.points| ==> r.value[i].x == e.points[i].x && r.value[i].y == e.points[i].y
    ensures e.Rect? ==> r.Some? && |r.value| == 8
    ensures e.Wall? ==> r.Some? && |r.value| == 2
                        && r.value[0] == Handle(P1, e.x1, e.y1) && r.value[1] == Handle(P2, e.x2, e.y2)
  {
    var hs: seq<Handle> :=
      match e
      case Polygon(_, _, pts) =>
        seq(|pts|, i requires 0 <= i < |pts| => Handle(Corner(i), pts[i].x, pts[i].y))
      case WallChild(_, _, _, dist, len, _) =>
        (match WallOf(es, e)
         case None => []
         case Some(w) =>
           var g1 := GetPointAlongLine(sqrt, WallStart(w), WallEnd(w), dist);
           var g2 := GetPointAlongLine(sqrt, WallStart(w), WallEnd(w), dist + len);
           [Handle(GapStart, g1.x, g1.y), Handle(GapEnd, g2.x, g2.y)])
      case Rect(_, x, y, w, h) =>
        [Handle(TL, x, y), Handle(TR, x + w, y), Handle(BL, x, y + h), Handle(BR, x + w, y + h),
         Handle(TM, x + w / 2.0, y), Handle(BM, x + w / 2.0, y + h), Handle(ML, x, y + h / 2.0),
         Handle(MR, x + w, y + h / 2.0)]
      case Wall(_, x1, y1, x2, y2, _) => [Handle(P1, x1, y1), Handle(P2, x2, y2)]
      case Route(_, _) => [];
    if |hs| > 0 then Some(hs) else None
  }

  /** Within the handle tolerance of `p` on both axes. */
  function NearHandle(p: Point): Handle -> bool
  {
    (h: Handle) => Abs(p.x - h.x) < HandleTolerance && Abs(p.y - h.y) < HandleTolerance
  }

  function FindHandleAtSpec(sqrt: real -> real, es: seq<Element>, p: Point, e: Option<Element>): Option<Handle>
  {
    if e.None? then None
    else match GetResizeHandles(sqrt, es, e.value)
         case None => None
         case Some(hs) => Find(hs, NearHandle(p))
  }

  /**
   * `findHandleAt`: the first handle of the element, in the order they are
   * listed, within the tolerance of `p`; it is always one the element's kind
   * offers.
   */
  method FindHandleAt(sqrt: real -> real, es: seq<Element>, p: Point, e: Option<Element>) returns (r: Option<Handle>)
    ensures r == FindHandleAtSpec(sqrt, es, p, e)
    ensures r.Some? ==> e.Some? && HandleFits(r.value.id, e.value) && NearHandle(p)(r.value)
  {
    if e.None? {
      return None;
    }
    var handles := GetResizeHandles(sqrt, es, e.value);
    if handles.None? {
      return None;
    }
    r := FirstNearHandle(handles.value, p);
  }

  method FirstNearHandle(hs: seq<Handle>, p: Point) returns (r: Option<Handle>)
    ensures r == Find(hs, NearHandle(p))
  {
    var k := 0;
    while k < |hs|
      invariant 0 <= k <= |hs|
      invariant forall m :: 0 <= m < k ==> !NearHandle(p)(hs[m])
    {
      var h := hs[k];
      if Abs(p.x - h.x) < HandleTolerance && Abs(p.y - h.y) < HandleTolerance {
        return Some(h);
      }
      k := k + 1;
    }
    return None;
  }

  // -------------------------------------------------------- move and resize

  /** Doors and windows keep their kind, id and wall; every element keeps its id and kind. */
  predicate SameIdentity(e: Element, r: Element)
  {
    r.id == e.id && WallIdOf(r) == WallIdOf(e)
    && (r.Wall? <==> e.Wall?) && (r.WallChild? <==> e.WallChild?) && (r.Rect? <==> e.Rect?)
    && (r.Polygon? <==> e.Polygon?) && (r.Route? <==> e.Route?)
    && (r.WallChild? ==> r.kind == e.kind && r.swingDirection == e.swingDirection)
    && (r.Polygon? ==> r.polyKind == e.polyKind)
  }

  /** An interval along a wall, from `start` to `end`. */
  datatype Span = Span(start: real, end: real)

  /**
   * The interval a gap-handle drag proposes for door or window `c`: the
   * dragged end follows the pointer's projection (clamped to the wall), the
   * ends are put in order, a too-short opening is widened to the minimum
   * length away from the dragged end, and both ends are clamped to the wall.
   */
  function GapResize(sqrt: real -> real, w: Element, c: Element, p: Point, isStart: bool): Span
    requires w.Wall? && c.WallChild?
  {
    var wallLen := WallLength(sqrt, w);
    var targetDist := Max(0.0, Min(wallLen, ProjectedDistance(sqrt, w, p)));
    var newStart := if isStart then targetDist else c.distanceAlongWall;
    var newEnd := if isStart then c.distanceAlongWall + c.length else targetDist;
    var finalStart := Min(newStart, newEnd);
    var finalEnd := Max(newStart, newEnd);
    var widened :=
      if finalEnd - finalStart < MinDoorWindowLength then
        (if isStart then Span(finalEnd - MinDoorWindowLength, finalEnd)
         else Span(finalStart, finalStart + MinDoorWindowLength))
      else Span(finalStart, finalEnd);
    Span(Max(0.0, widened.start), Min(wallLen, widened.end))
  }

  /**
   * For an opening that lay on its wall, the resized one does too, is never
   * reversed, and is at least the minimum length unless it reaches an end of
   * the wall.
   */
  lemma GapResizeBounds(sqrt: real -> real, w: Element, c: Element, p: Point, isStart: bool)
    requires IsSqrt(sqrt) && w.Wall? && c.WallChild?
    requires 0.0 <= c.distanceAlongWall && 0.0 <= c.length
    requires c.distanceAlongWall + c.length <= WallLength(sqrt, w)
    ensures var g := GapResize(sqrt, w, c, p, isStart);
            0.0 <= g.start <= g.end <= WallLength(sqrt, w)
            && (g.end - g.start >= MinDoorWindowLength || g.start == 0.0 || g.end == WallLength(sqrt, w))
  {
    DistanceFacts(sqrt, WallStart(w), WallEnd(w));
  }

  /**
   * `resizeElement`, as a function from the element before the drag step to
   * the element after it. A corner handle moves that vertex; a gap handle
   * resizes the opening unless the new interval would clash with another
   * door or window of the wall; a gear handle changes nothing (the source's
   * per-handle cases are empty); a wall end handle moves that end to the
   * grid point nearest the pointer.
   */
  function ResizedElement(sqrt: real -> real, es: seq<Element>, e: Element, id: HandleId, mouse: Point): (r: Element)
    ensures SameIdentity(e, r)
    ensures e.WallChild? ==> r == e || !Overlaps(es, e.wallId, Some(e.id), r.distanceAlongWall, r.length)
    ensures id.Corner? && e.Polygon? && 0 <= id.index < |e.points| ==>
              |r.points| == |e.points| && r.points[id.index] == mouse
              && forall j :: 0 <= j < |e.points| && j != id.index ==> r.points[j] == e.points[j]
    ensures e.Rect? ==> r == e
    ensures e.Wall? && id.P1? ==>
              OnGrid(r.x1, GRID_SIZE_PIXELS) && OnGrid(r.y1, GRID_SIZE_PIXELS)
              && Abs(r.x1 - mouse.x) <= GRID_SIZE_PIXELS / 2.0 && Abs(r.y1 - mouse.y) <= GRID_SIZE_PIXELS / 2.0
              && r.x2 == e.x2 && r.y2 == e.y2 && r.thickness == e.thickness
    ensures e.Wall? && id.P2? ==>
              OnGrid(r.x2, GRID_SIZE_PIXELS) && OnGrid(r.y2, GRID_SIZE_PIXELS)
              && Abs(r.x2 - mouse.x) <= GRID_SIZE_PIXELS / 2.0 && Abs(r.y2 - mouse.y) <= GRID_SIZE_PIXELS / 2.0
              && r.x1 == e.x1 && r.y1 == e.y1 && r.thickness == e.thickness
  {
    SnapToGridNearest(mouse.x, GRID_SIZE_PIXELS);
    SnapToGridNearest(mouse.y, GRID_SIZE_PIXELS);
    match id
    case Corner(i) =>
      if (e.Polygon? || e.Route?) && 0 <= i < |e.points| then e.(points := e.points[i := mouse]) else e
    case GapStart => GapResized(sqrt, es, e, mouse, true)
    case GapEnd => GapResized(sqrt, es, e, mouse, false)
    case P1 =>
      if e.Wall? then e.(x1 := SnapToGrid(mouse.x, GRID_SIZE_PIXELS), y1 := SnapToGrid(mouse.y, GRID_SIZE_PIXELS))
      else e
    case P2 =>
      if e.Wall? then e.(x2 := SnapToGrid(mouse.x, GRID_SIZE_PIXELS), y2 := SnapToGrid(mouse.y, GRID_SIZE_PIXELS))
      else e
    case _ => e
  }

  /** The gap-handle branch of `resizeElement`. */
  function GapResized(sqrt: real -> real, es: seq<Element>, e: Element, mouse: Point, isStart: bool): (r: Element)
    ensures r == e || (e.WallChild? && r.WallChild? && r == e.(distanceAlongWall := r.distanceAlongWall, length := r.length)
                       && !Overlaps(es, e.wallId, Some(e.id), r.distanceAlongWall, r.length))
  {
    if !e.WallChild? then e
    else match WallOf(es, e)
      case None => e
      case Some(w) =>
        var g := GapResize(sqrt, w, e, mouse, isStart);
        if !Overlaps(es, w.id, Some(e.id), g.start, g.end - g.start)
        then e.(distanceAlongWall := g.start, length := g.end - g.start)
        else e
  }

  /**
   * A gap drag on an opening that lay on its wall leaves it on the wall with
   * a non-negative length; only its interval changes, and it changes only to
   * an interval that clashes with no other door or window of the wall.
   */
  lemma ResizedGapStaysOnWall(sqrt: real -> real, es: seq<Element>, e: Element, id: HandleId, mouse: Point)
    requires IsSqrt(sqrt) && e.WallChild? && WallOf(es, e).Some? && (id.GapStart? || id.GapEnd?)
    requires 0.0 <= e.distanceAlongWall && 0.0 <= e.length
    requires e.distanceAlongWall + e.length <= WallLength(sqrt, WallOf(es, e).value)
    ensures var r := ResizedElement(sqrt, es, e, id, mouse);
            r == e.(distanceAlongWall := r.distanceAlongWall, length := r.length)
            && 0.0 <= r.distanceAlongWall && 0.0 <= r.length
            && r.distanceAlongWall + r.length <= WallLength(sqrt, WallOf(es, e).value)
            && (r != e ==> !Overlaps(es, e.wallId, Some(e.id), r.distanceAlongWall, r.length))
  {
    GapResizeBounds(sqrt, WallOf(es, e).value, e, mouse, id.GapStart?);
  }

  /** The points of a polyline shifted by (dx, dy). */
  function Translated(pts: seq<Point>, dx: real, dy: real): (r: seq<Point>)
    ensures |r| == |pts|
  {
    seq(|pts|, i requires 0 <= i < |pts| => Point(pts[i].x + dx, pts[i].y + dy))
  }

  /**
   * `moveElement`: a door or window slides along its wall to where the
   * pointer projects (kept on the wall) unless it would clash with another
   * opening; any other element is translated rigidly so that its anchor (a
   * polygon's or route's first point, a rectangle's corner, a wall's start)
   * lands at the pointer minus the grab offset.
   */
  function MovedElement(sqrt: real -> real, es: seq<Element>, e: Element, cur: Point, offset: Point): (r: Element)
    ensures SameIdentity(e, r)
    ensures e.WallChild? ==> r == e || !Overlaps(es, e.wallId, Some(e.id), r.distanceAlongWall, r.length)
    ensures e.WallChild? ==> r == e.(distanceAlongWall := r.distanceAlongWall)
    ensures (e.Polygon? || e.Route?) && |e.points| > 0 ==>
              |r.points| == |e.points| && r.points[0] == Point(cur.x - offset.x, cur.y - offset.y)
              && forall i :: 0 <= i < |e.points| ==>
                   r.points[i].x - r.points[0].x == e.points[i].x - e.points[0].x
                   && r.points[i].y - r.points[0].y == e.points[i].y - e.points[0].y
    ensures e.Rect? ==> r.x == cur.x - offset.x && r.y == cur.y - offset.y
                        && r.width == e.width && r.height == e.height
    ensures e.Wall? ==> r.x1 == cur.x - offset.x && r.y1 == cur.y - offset.y
                        && r.x2 - r.x1 == e.x2 - e.x1 && r.y2 - r.y1 == e.y2 - e.y1
                        && r.thickness == e.thickness
  {
    if e.WallChild? then
      match WallOf(es, e)
      case None => e
      case Some(w) =>
        var targetDist := SlideTarget(sqrt, w, e, cur);
        if !Overlaps(es, w.id, Some(e.id), targetDist, e.length)
        then e.(distanceAlongWall := targetDist)
        else e
    else
      var newX := cur.x - offset.x;
      var newY := cur.y - offset.y;
      match e
      case Polygon(id, kind, pts) =>
        if |pts| == 0 then e else Polygon(id, kind, Translated(pts, newX - pts[0].x, newY - pts[0].y))
      case Route(id, pts) =>
        if |pts| == 0 then e else Route(id, Translated(pts, newX - pts[0].x, newY - pts[0].y))
      case Rect(_, _, _, _, _) => e.(x := newX, y := newY)
      case Wall(_, x1, y1, x2, y2, _) =>
        e.(x1 := newX, y1 := newY, x2 := x2 + (newX - x1), y2 := y2 + (newY - y1))
  }

  /** Where a sliding door or window would start: the projection, kept so the opening fits on the wall. */
  function SlideTarget(sqrt: real -> real, w: Element, c: Element, p: Point): real
    requires w.Wall? && c.WallChild?
  {
    Max(0.0, Min(WallLength(sqrt, w) - c.length, ProjectedDistance(sqrt, w, p)))
  }

  /**
   * Sliding an opening that fits on its wall keeps it on the wall, and it
   * moves only to a position that clashes with no other opening of the wall.
   */
  lemma MovedChildStaysOnWall(sqrt: real -> real, es: seq<Element>, e: Element, cur: Point, offset: Point)
    requires e.WallChild? && WallOf(es, e).Some?
    requires 0.0 <= e.distanceAlongWall && 0.0 <= e.length
    requires e.distanceAlongWall + e.length <= WallLength(sqrt, WallOf(es, e).value)
    ensures var r := MovedElement(sqrt, es, e, cur, offset);
            0.0 <= r.distanceAlongWall
            && r.distanceAlongWall + r.length <= WallLength(sqrt, WallOf(es, e).value)
            && (r != e ==> !Overlaps(es, e.wallId, Some(e.id), r.distanceAlongWall, r.length))
  {
  }

  // ------------------------------------------------------------ write-back

  /**
   * The list after an in-place edit of the element with id `id`: the source
   * mutates the selected object, which (ids being unique) is the one list
   * entry with that id.
   */
  function ReplaceById(es: seq<Element>, id: int, r: Element): (out: seq<Element>)
    ensures |out| == |es|
    ensures forall i :: 0 <= i < |es| ==> out[i] == if es[i].id == id then r else es[i]
  {
    seq(|es|, i requires 0 <= i < |es| => if es[i].id == id then r else es[i])
  }

  /**
   * Writing back an edit that keeps the element's identity, and moves an
   * opening only to a place where it clashes with no other opening of its
   * wall, keeps the state valid.
   */
  lemma ReplaceValid(st: EditorState, e: Element, r: Element)
    requires Valid(st) && e in st.elements && SameIdentity(e, r)
    requires st.drawingOnWallTarget.None?
    requires e.WallChild? ==> r == e || !Overlaps(st.elements, e.wallId, Some(e.id), r.distanceAlongWall, r.length)
    ensures Valid(st.(elements := ReplaceById(st.elements, e.id, r)))
  {
    var es := st.elements;
    var out := ReplaceById(es, e.id, r);
    var k :| 0 <= k < |es| && es[k] == e;
    assert forall i :: 0 <= i < |es| && i != k ==> es[i].id != e.id;
    assert forall i :: 0 <= i < |es| && i != k ==> out[i] == es[i];
    assert out[k] == r;
    forall i | 0 <= i < |out| && out[i].WallChild? ensures HasWall(out, out[i].wallId) {
      var w :| w in es && w.Wall? && w.id == es[i].wallId;
      var m :| 0 <= m < |es| && es[m] == w;
      assert out[m].Wall? && out[m].id == w.id;
      assert out[m] in out;
    }
    forall i, j | 0 <= i < j < |out| ensures out[i].id != out[j].id {
    }
    ReplaceKeepsApart(es, e, r, k, out);
  }

  /** The clash-freedom part of `ReplaceValid`, for the edit written at index `k`. */
  lemma ReplaceKeepsApart(es: seq<Element>, e: Element, r: Element, k: nat, out: seq<Element>)
    requires OpeningsApart(es) && UniqueIds(es) && k < |es| && es[k] == e && SameIdentity(e, r)
    requires e.WallChild? ==> r == e || !Overlaps(es, e.wallId, Some(e.id), r.distanceAlongWall, r.length)
    requires |out| == |es| && out[k] == r && forall i :: 0 <= i < |es| && i != k ==> out[i] == es[i]
    ensures OpeningsApart(out)
  {
    assert forall i :: 0 <= i < |es| && i != k ==> es[i].id != e.id;
    forall i, j | 0 <= i < |out| && 0 <= j < |out| && i != j ensures Apart()(out[i], out[j]) {
      assert Apart()(es[i], es[j]);
      if i == k && r.WallChild? && r != e {
        assert !Conflicts(es[j], e.wallId, Some(e.id), r.distanceAlongWall, r.length);
      } else if j == k && r.WallChild? && r != e && out[i].WallChild? {
        assert !Conflicts(es[i], e.wallId, Some(e.id), r.distanceAlongWall, r.length);
        ConflictsSymmetric(es[i], r);
      }
    }
  }
}
