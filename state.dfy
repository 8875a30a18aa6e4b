// The pixel editor's shared state: a flat list of elements, the next element
// id, the current tool and the flags of an interaction in progress.
//
// The source keeps these as module-level variables that setter functions
// reassign or push to; here they are the fields of a `Store` object, and
// `EditorState` is the value of all of them at one moment, which the event
// handlers are specified against.

module State {
  import opened Wrappers
  import opened Geometry

  datatype ChildKind = Door | Window
  datatype PolyKind = Machine | Closet

  /**
   * The element kinds, told apart in the source by which properties an object
   * carries: walls have end points, doors and windows a `wallId`, machines and
   * closets a polygon, gear a rectangle, escape routes a polyline.
   */
  datatype Element =
    | Wall(id: int, x1: real, y1: real, x2: real, y2: real, thickness: real)
    | WallChild(id: int, kind: ChildKind, wallId: int, distanceAlongWall: real, length: real, swingDirection: int)
    | Polygon(id: int, polyKind: PolyKind, points: seq<Point>)
    | Rect(id: int, x: real, y: real, width: real, height: real)
    | Route(id: int, points: seq<Point>)

  /** The `wallId` property, which only doors and windows carry. */
  function WallIdOf(e: Element): Option<int>
  {
    if e.WallChild? then Some(e.wallId) else None
  }

  function WallStart(w: Element): Point requires w.Wall? { Point(w.x1, w.y1) }
  function WallEnd(w: Element): Point requires w.Wall? { Point(w.x2, w.y2) }

  /** The tool selected in edit mode; `NoMode` is the `null` tool of view mode. */
  datatype Mode =
    | SelectMode | WallMode | DoorMode | WindowMode | MachineMode | ClosetMode
    | GearMode | RouteMode | DeleteMode | NoMode

  predicate IsShapeMode(m: Mode)
  {
    m.WallMode? || m.MachineMode? || m.ClosetMode? || m.GearMode?
  }

  datatype HandleId =
    | Corner(index: int) | GapStart | GapEnd
    | TL | TR | BL | BR | TM | BM | ML | MR
    | P1 | P2

  datatype Handle = Handle(id: HandleId, x: real, y: real)

  /** A door or window being drawn: the wall it sits on and where the drag started. */
  datatype WallTarget = WallTarget(wall: Element, startDist: real)

  /** The preview of a door or window being drawn. */
  datatype WallDrawPos = WallDrawPos(wall: Element, startDist: real, endDist: real, length: real)

  /**
   * The editor state at one moment. The selection is held by id: the source
   * holds a reference to the selected object, and ids are unique.
   */
  datatype EditorState = EditorState(
    currentMode: Mode,
    elements: seq<Element>,
    nextElementId: int,
    isDrawing: bool,
    start: Point,
    mouse: Option<Point>,
    isEditMode: bool,
    selectedId: Option<int>,
    draggingHandle: Option<Handle>,
    isMoving: bool,
    moveOffset: Point,
    drawingOnWallTarget: Option<WallTarget>,
    currentWallDrawPos: Option<WallDrawPos>,
    routeBuildPoints: seq<Point>)

  function Initial(): EditorState
  {
    EditorState(SelectMode, [], 1, false, Point(0.0, 0.0), None, true, None, None, false,
                Point(0.0, 0.0), None, None, [])
  }

  /**
   * What every reachable state satisfies: ids are positive, below
   * `nextElementId` and unique; every door and window sits on a wall of the
   * list; a door or window being drawn targets a wall of the list, and only
   * the door and window tools draw on a wall; only the select tool moves or
   * resizes; and no two openings of a wall clash.
   */
  ghost predicate Valid(st: EditorState)
  {
    var es := st.elements;
    1 <= st.nextElementId
    && (forall i :: 0 <= i < |es| ==> 1 <= es[i].id < st.nextElementId)
    && UniqueIds(es)
    && (forall i :: 0 <= i < |es| && es[i].WallChild? ==> HasWall(es, es[i].wallId))
    && (st.drawingOnWallTarget.Some? ==>
          st.drawingOnWallTarget.value.wall in es && st.drawingOnWallTarget.value.wall.Wall?
          && (st.currentMode.DoorMode? || st.currentMode.WindowMode?))
    && ((st.isMoving || st.draggingHandle.Some?) ==> st.currentMode.SelectMode?)
    && OpeningsApart(es)
  }

  /**
   * Door or window `c` of wall `wallId`, other than `selfId`, clashes with
   * the proposed interval [start, start + length]: the intervals must overlap
   * by more than 0.1 on both sides, so touching intervals do not clash.
   */
  predicate Conflicts(c: Element, wallId: int, selfId: Option<int>, start: real, length: real)
  {
    c.WallChild? && c.wallId == wallId && selfId != Some(c.id)
    && !(start + length <= c.distanceAlongWall + 0.1
         || start >= c.distanceAlongWall + c.length - 0.1)
  }

  /** Opening `a` does not clash with element `b`. */
  function Apart(): (Element, Element) -> bool
  {
    (a: Element, b: Element) =>
      a.WallChild? ==> !Conflicts(b, a.wallId, Some(a.id), a.distanceAlongWall, a.length)
  }

  /** The doors and windows of each wall occupy pairwise non-clashing intervals. */
  ghost predicate OpeningsApart(es: seq<Element>)
  {
    Pairwise(es, Apart())
  }

  /**
   * Clashing is symmetric between two distinct openings of one wall: the
   * 0.1 tolerance is applied on both sides.
   */
  lemma ConflictsSymmetric(a: Element, b: Element)
    requires a.WallChild? && b.WallChild? && a.id != b.id
    ensures Conflicts(b, a.wallId, Some(a.id), a.distanceAlongWall, a.length)
            == Conflicts(a, b.wallId, Some(b.id), b.distanceAlongWall, b.length)
  {
  }

  predicate UniqueIds(es: seq<Element>)
  {
    forall i, j :: 0 <= i < j < |es| ==> es[i].id != es[j].id
  }

  /** Some element of the list has this id. */
  predicate HasId(es: seq<Element>, id: int)
  {
    exists i :: 0 <= i < |es| && es[i].id == id
  }

  ghost predicate HasWall(es: seq<Element>, id: int)
  {
    exists w :: w in es && w.Wall? && w.id == id
  }

  lemma InitialValid()
    ensures Valid(Initial())
  {
  }

  // ------------------------------------------------------------- list updates

  function NotId(id: int): Element -> bool { (e: Element) => e.id != id }
  function NotChildOf(wallId: int): Element -> bool { (e: Element) => WallIdOf(e) != Some(wallId) }
  function IsWallWithId(id: int): Element -> bool { (e: Element) => e.id == id && e.Wall? }

  function WithoutId(es: seq<Element>, id: int): (r: seq<Element>)
    ensures forall e :: e in r <==> e in es && e.id != id
  {
    Filter(es, NotId(id))
  }

  /** The elements that are not doors or windows of wall `wallId`, in order. */
  function WithoutChildrenOf(es: seq<Element>, wallId: int): (r: seq<Element>)
    ensures forall e :: e in r <==> e in es && WallIdOf(e) != Some(wallId)
  {
    Filter(es, NotChildOf(wallId))
  }

  /**
   * `removeElementById` as written: after filtering out the id it looks for a
   * wall with that id among what is left, to drop the wall's children too.
   */
  function RemovedById(es: seq<Element>, id: int): (seq<Element>, bool)
  {
    var kept := WithoutId(es, id);
    var kept' := if Find(kept, IsWallWithId(id)).Some?
                 then WithoutChildrenOf(kept, id) else kept;
    (kept', |kept'| < |es|)
  }

  /**
   * The cascade in `removeElementById` never fires: the list it searches no
   * longer holds the id. So exactly the elements with that id go, the rest
   * (including any children of a removed wall) stay in order, and the result
   * reports whether anything had that id.
   */
  lemma RemovedByIdNoCascade(es: seq<Element>, id: int)
    ensures RemovedById(es, id).0 == WithoutId(es, id)
    ensures RemovedById(es, id).1 <==> HasId(es, id)
  {
    var kept := WithoutId(es, id);
    assert Find(kept, IsWallWithId(id)).None? by {
      forall i | 0 <= i < |kept| ensures !IsWallWithId(id)(kept[i]) {
        assert kept[i] in kept;
      }
    }
    var keep := NotId(id);
    FilterKeepsAll(es, keep);
    if HasId(es, id) {
      var i :| 0 <= i < |es| && es[i].id == id;
      assert es[i] in es && !keep(es[i]);
    } else {
      forall e | e in es ensures keep(e) {
        var i :| 0 <= i < |es| && es[i] == e;
      }
    }
  }

  function ResetInteraction(st: EditorState): EditorState
  {
    st.(isDrawing := false, isMoving := false, draggingHandle := None,
        drawingOnWallTarget := None, currentWallDrawPos := None,
        start := Point(0.0, 0.0), mouse := None)
  }

  // ------------------------------------------------------------------- store

  class Store {
    var currentMode: Mode
    var elements: seq<Element>
    var nextElementId: int
    var isDrawing: bool
    var start: Point
    var mouse: Option<Point>
    var isEditMode: bool
    var selectedId: Option<int>
    var draggingHandle: Option<Handle>
    var isMoving: bool
    var moveOffset: Point
    var drawingOnWallTarget: Option<WallTarget>
    var currentWallDrawPos: Option<WallDrawPos>
    var routeBuildPoints: seq<Point>

    function Snapshot(): EditorState
      reads this
    {
      EditorState(currentMode, elements, nextElementId, isDrawing, start, mouse, isEditMode,
                  selectedId, draggingHandle, isMoving, moveOffset, drawingOnWallTarget,
                  currentWallDrawPos, routeBuildPoints)
    }

    constructor ()
      ensures Snapshot() == Initial()
    {
      currentMode := SelectMode;
      elements := [];
      nextElementId := 1;
      isDrawing := false;
      start := Point(0.0, 0.0);
      mouse := None;
      isEditMode := true;
      selectedId := None;
      draggingHandle := None;
      isMoving := false;
      moveOffset := Point(0.0, 0.0);
      drawingOnWallTarget := None;
      currentWallDrawPos := None;
      routeBuildPoints := [];
    }

    /** Appends at the end and changes nothing else. */
    method AddElement(e: Element)
      modifies this
      ensures Snapshot() == old(Snapshot()).(elements := old(elements) + [e])
    {
      elements := elements + [e];
    }

    method RemoveElementById(id: int) returns (removed: bool)
      modifies this
      ensures Snapshot() == old(Snapshot()).(elements := RemovedById(old(elements), id).0)
      ensures removed == RemovedById(old(elements), id).1
    {
      var initialLength := |elements|;
      elements := WithoutId(elements, id);
      if Find(elements, IsWallWithId(id)).Some? {
        elements := WithoutChildrenOf(elements, id);
      }
      removed := |elements| < initialLength;
    }

    method RemoveElementsByWallId(wallId: int)
      modifies this
      ensures Snapshot() == old(Snapshot()).(elements := WithoutChildrenOf(old(elements), wallId))
    {
      elements := WithoutChildrenOf(elements, wallId);
    }

    method AddRouteBuildPoint(p: Point)
      modifies this
      ensures Snapshot() == old(Snapshot()).(routeBuildPoints := old(routeBuildPoints) + [p])
    {
      routeBuildPoints := routeBuildPoints + [p];
    }

    method ResetRouteBuild()
      modifies this
      ensures Snapshot() == old(Snapshot()).(routeBuildPoints := [])
    {
      routeBuildPoints := [];
    }

    /**
     * Clears the flags of an interaction in progress; the elements, the
     * selection, the route being built, the tool and the id counter stay.
     */
    method ResetInteractionState()
      modifies this
      ensures Snapshot() == ResetInteraction(old(Snapshot()))
      ensures !isDrawing && !isMoving && draggingHandle.None? && mouse.None?
      ensures drawingOnWallTarget.None? && currentWallDrawPos.None? && start == Point(0.0, 0.0)
      ensures elements == old(elements) && selectedId == old(selectedId)
      ensures routeBuildPoints == old(routeBuildPoints) && currentMode == old(currentMode)
      ensures nextElementId == old(nextElementId) && isEditMode == old(isEditMode)
    {
      isDrawing := false;
      isMoving := false;
      draggingHandle := None;
      drawingOnWallTarget := None;
      currentWallDrawPos := None;
      start := Point(0.0, 0.0);
      mouse := None;
    }
  }
}
