# Floor-plan editor kernel in Dafny

This project models the editing kernel of a browser floor-plan editor for
workplace safety plans. The model covers four groups of code.

**The canvas editor under `static/js/`.** It works in pixels. Elements are
walls, doors and windows that sit on a wall at a distance along it, gear
rectangles, machine and closet polygons, and escape routes:

- `geometry.js`: distance, grid snapping, point-on-segment, projection,
  point-along-line and the even-odd point-in-polygon test (module `Geometry`);
- `state.js`: the element store and the interaction flags (module `State`,
  class `Store`);
- `actions.js`: creation, cascading delete, hit testing, nearest-wall search,
  resize handles, move and resize, and the overlap check for openings on a
  wall (module `Actions`);
- `event-handlers.js`: the mouse and tool state machine (module
  `EventHandlers`);
- `drawing.js`: the interval arithmetic behind drawing a wall with its
  openings left out, the clamping of openings, and the paint order (module
  `Drawing`).

**The metre-based editors.** Their elements have a start and an end point in
metres:

- the hit tests, distances, handles and dotted-path property setter they share
  (module `PlanModel`);
- the single-file editor `floorplanner.js` (module `Planner`, class `Editor`);
- the split editor `floorplanner/elements.js` with `floorplanner/ui.js`
  (module `PlannerUi`, class `Editor`);
- the read-only viewer `floorplanner/show.js` (module `Viewer`, class
  `ShowViewer`).

**The SVG layout editor `static/drawing.js`** (module `SvgEditor`, class
`Editor`): shape drawing, moving, the north-west resize, the record posted to
the server, and zoom and pan.

**`src/element_routes.py`** (module `ElementRoutes`): the risk score and the
measure lists of a risk assessment, the pairing of symbols with texts in
operating instructions, and the create and update routes over the tables.
The tables are the `fastlite` tables of `src/db.py:5`. Their `fetchone` is
modelled as `ElementRoutes.FetchOne`: the one matching row, and otherwise
(no row, or several) the exception that the route's `except` turns into the
save error.

`Wrappers` holds `Option`, `Result` and the list helpers (`Filter`, `Find`,
`FindIndex`, `LatestHitIndex`) that stand for JavaScript's `filter`, `find`,
`findIndex` and the scans from the last element backwards.

## Conventions of the model

- Coordinates are mathematical reals.
- The square root is a parameter `sqrt` of the members that need it.
  Lemmas that rely on it require `IsSqrt(sqrt)`: the result is non-negative
  and squares back to its argument.
- `Math.round(v)` is `(v + 0.5).Floor`.
- An object reference to the selected element is modelled as its id (the
  canvas editor) or its index in the element list (the metre editors and the
  SVG editor).
- An in-place edit of an element object is a write-back of the edited
  element into the list (`Actions.ReplaceById`, `WithShape`).
- Where "## Findings" records a bug, the handlers run the corrected
  definition. The as-written definition is a separate member, and the lemma
  beside it exhibits the bug. "## Left out" lists each handler this affects.
- Each event handler is a function from the state before the event to the
  state after it. Each class method is proved to change its fields exactly
  as that function says (`Snapshot() == F(old(Snapshot()), ...)`).
- Ids that the source draws from the clock and `Math.random`, and the row ids
  and timestamps the database assigns, are parameters (`newId`, `now`).

## Model

| member | source | states |
|---|---|---|
| Geometry.DistanceFacts | static/js/geometry.js:4-6 | the distance is non-negative, squares to the squared Euclidean distance, and is zero exactly for equal points |
| Geometry.Round | static/js/geometry.js:10 | `Math.round` gives the integer k with v - 1/2 < k <= v + 1/2 |
| Geometry.SnapToGridNearest | static/js/geometry.js:9-11 | a snapped coordinate is an integer multiple of the grid size and lies at most half a cell from the input |
| Geometry.SnapToGridFixpoints | static/js/geometry.js:9-11 | snapping leaves a coordinate unchanged exactly when it is already on the grid |
| Geometry.SnapToGridIdempotent | static/js/geometry.js:9-11 | snapping twice is snapping once |
| Geometry.OnSegmentDegenerate | static/js/geometry.js:14-16 | for a zero-length segment the test accepts exactly the points strictly closer than the tolerance to the end point |
| Geometry.OnSegmentCharacterisation | static/js/geometry.js:14-24 | for a proper segment a point is accepted iff its distance to the line is at most the tolerance and its dot product lies in [0, squared length]; a point at exactly the tolerance is accepted |
| Geometry.ProjectionParameter | static/js/geometry.js:27-31 | the projection parameter always lies in [0, 1] |
| Geometry.ProjectionIsClampedPoint | static/js/geometry.js:27-35 | the projection is always flagged as on the segment, and it is the point of the segment at the clamped parameter |
| Geometry.ProjectionDegenerate | static/js/geometry.js:28-29 | a zero-length segment projects every point onto its start, flagged as on the segment |
| Geometry.PointAlongLineEnds | static/js/geometry.js:38-45 | a zero-length line yields p1; otherwise distance 0 yields p1 and the line's own length yields p2 |
| Geometry.IsPointInPolygon | static/js/geometry.js:48-59 | the loop's parity flag is the even-odd crossing count of the ray over all edges, closing edge included |
| Geometry.ParityOutsideBand | static/js/geometry.js:51-57 | a horizontal ray whose y is at least every vertex's y, or below every vertex's y, crosses no edge |
| Geometry.OutsideVerticalExtent | static/js/geometry.js:48-59 | a point whose y is at least every vertex's y, or below every vertex's y, is outside; so is every point for an empty polygon |
| Geometry.RectCorners | static/js/actions.js:29-38 | the rectangle polygon has four vertices: top-left (x, y), top-right (x + w, y), bottom-right (x + w, y + h), bottom-left (x, y + h), in that order |
| Geometry.VerticalEdgeCrosses | static/js/geometry.js:54-55 | a vertical edge is crossed iff it spans the ray's y (half-open) and lies to the right of the point |
| Geometry.RectPolygonContains | static/js/geometry.js:48-59 | for the rectangle polygon that machine and closet creation builds, the test accepts exactly the half-open box [x, x+w) x [y, y+h) |
| State.ConflictsSymmetric | static/js/actions.js:239 | the 0.1-tolerance clash test between two distinct openings of a wall is symmetric |
| State.InitialValid | static/js/state.js:4-22 | the initial store is valid: no elements and the id counter at 1 |
| State.WithoutId | static/js/state.js:30 | the filtered list holds exactly the elements whose id differs |
| State.WithoutChildrenOf | static/js/state.js:38 | the filtered list holds exactly the elements that are not doors or windows of that wall |
| State.RemovedByIdNoCascade | static/js/state.js:28-36 | `removeElementById` removes exactly the elements with that id and keeps the rest in order; its cascade never fires, so a wall's children stay; it returns true iff some element had that id |
| State.Store.constructor | static/js/state.js:4-22 | the store starts in select mode, in edit mode, with no elements, the id counter at 1 and all flags cleared |
| State.Store.AddElement | static/js/state.js:27 | appends the element at the end and changes nothing else |
| State.Store.RemoveElementById | static/js/state.js:28-36 | the new list and the result are those of `RemovedById`; nothing else changes |
| State.Store.RemoveElementsByWallId | static/js/state.js:37-39 | removes exactly the doors and windows of the wall, keeps the rest (the wall included) in order, and changes nothing else |
| State.Store.AddRouteBuildPoint | static/js/state.js:57 | appends one point to the route being built and changes nothing else |
| State.Store.ResetRouteBuild | static/js/state.js:58 | empties the route being built and changes nothing else |
| State.Store.ResetInteractionState | static/js/state.js:61-75 | clears drawing, moving, the handle, the wall target and preview, the start point and the mouse position; keeps the elements, selection, route points, tool, mode and id counter |
| Actions.NewWall | static/js/actions.js:9-16 | a wall with the given id and ends, of the configured thickness |
| Actions.NewRect | static/js/actions.js:18-27 | a gear rectangle whose corner is the smaller coordinate on each axis, with non-negative size reaching the larger one |
| Actions.NewPolygon | static/js/actions.js:29-38 | a four-point polygon running top-left, top-right, bottom-right, bottom-left over the dragged box |
| Actions.NewWallChild | static/js/actions.js:40-48 | an opening on the wall's id with the given interval; it swings 1 iff drawn forwards, else -1 |
| Actions.NewRoute | static/js/actions.js:50-57 | a route holding a copy of the given points |
| Actions.AppendedValid | static/js/actions.js:9-57 | appending a fresh element with the counter's id keeps the store valid, keeps the earlier elements and puts the new one last |
| Actions.CreateWall | static/js/actions.js:9-16 | appends exactly one wall with the old counter as id and increments the counter by 1; nothing else changes |
| Actions.CreateRectElement | static/js/actions.js:18-27 | appends exactly one normalised gear rectangle with the old counter as id and increments the counter |
| Actions.CreatePolygonElementFromRect | static/js/actions.js:29-38 | appends exactly one four-corner polygon with the old counter as id and increments the counter |
| Actions.CreateWallChild | static/js/actions.js:40-48 | appends exactly one opening with the old counter as id and increments the counter |
| Actions.CreateRoute | static/js/actions.js:50-57 | appends exactly one route with the given points and the old counter as id, and increments the counter |
| Actions.DeletedElements | static/js/actions.js:61-79 | deleting removes the target's id and, for a wall, every door and window of that wall, and nothing else, in order |
| Actions.DeletedSelection | static/js/actions.js:73-78 | the selection is cleared exactly when it named the target and the target was in the list; nothing but the list and the selection changes |
| Actions.DeletedValid | static/js/actions.js:61-79 | deleting keeps the store valid |
| Actions.DeleteElement | static/js/actions.js:61-79 | no target changes nothing; otherwise the store becomes `Deleted` of the target |
| Actions.CheckWallChildOverlap | static/js/actions.js:234-243 | true iff some other opening of the same wall satisfies not (pEnd <= cStart + 0.1 or pStart >= cEnd - 0.1), so abutting intervals do not clash |
| Actions.NearestWallIndex | static/js/actions.js:97-107 | a found index is a wall of positive length whose projection lies on it |
| Actions.NearestWallSpec | static/js/actions.js:97-107 | nothing is found iff no candidate is strictly closer than the tolerance; otherwise the found wall is closer than the tolerance, strictly closer than every earlier candidate, and no farther than every later one, so ties keep the earlier wall |
| Actions.FindWallNearPointSpec | static/js/actions.js:97-107 | a found wall is in the list, has positive length and is reported with its line distance |
| Actions.FindWallNearPoint | static/js/actions.js:97-107 | the loop with its running minimum computes `FindWallNearPointSpec` |
| Actions.IsPointNearDoor | static/js/actions.js:109-117 | true iff some door in the list has the point within tolerance of its opening, placed along the first element carrying its wall id, when that element is a wall |
| Actions.FindElementAtPriority | static/js/actions.js:84-95 | a gear under the point always wins; a polygon only if no gear is hit; a route only if neither is; a wall or its opening only if none of the three is; what is found is in the list; nothing is found iff no group is hit |
| Actions.IsPointOnRoute | static/js/actions.js:91 | true iff the point is within tolerance of some segment between consecutive route points |
| Actions.FindElementAt | static/js/actions.js:84-95 | the four backward scans compute `FindElementAtSpec` |
| Actions.LatestGearAt | static/js/actions.js:87 | the backward scan finds the latest element with `x` and no points that contains the point |
| Actions.LatestPolygonAt | static/js/actions.js:89 | the backward scan finds the latest non-route polygon containing the point |
| Actions.LatestRouteAt | static/js/actions.js:91 | the backward scan finds the latest route near the point |
| Actions.LatestWallAt | static/js/actions.js:93 | the backward scan finds the latest wall that the nearest-wall search reports for the point |
| Actions.IsNearestWall | static/js/actions.js:93 | true iff the nearest-wall search within half the wall's thickness plus 2 returns a wall with this id |
| Actions.HitOnWall | static/js/actions.js:93 | a hit wall yields its first door or window whose interval covers the projected distance, else the wall itself |
| Actions.WallOf | static/js/actions.js:127 | the first element with the opening's wall id, when it is a wall; none when there is no such element or it is not a wall |
| Actions.GetResizeHandles | static/js/actions.js:121-141 | routes, empty polygons and openings whose wall is missing get none, everything else some; every handle fits its element's kind; a polygon gets one handle at each point, a gear eight, a wall its two ends |
| Actions.FindHandleAt | static/js/actions.js:143-149 | the loop computes the handle search of the selected element; a handle found belongs to that element and lies less than half the handle size plus 2 from the point on both axes |
| Actions.FirstNearHandle | static/js/actions.js:147 | the loop returns the first handle near the point |
| Actions.GapResizeBounds | static/js/actions.js:158-180 | a gap drag on an opening that lay on its wall gives 0 <= start <= end <= wall length, and at least the minimum length unless an end of the wall is reached |
| Actions.ResizedElement | static/js/actions.js:153-196 | a resize keeps the element's id and kind; a corner drag moves that vertex; a gear is unchanged (its switch is empty); a wall end moves to the snapped pointer; an opening changes only to an interval with no clash |
| Actions.GapResized | static/js/actions.js:158-184 | a gap drag changes at most the opening's distance and length |
| Actions.ResizedGapStaysOnWall | static/js/actions.js:158-184 | a gap drag on an opening that lay on its wall keeps it on the wall with non-negative length; only its interval changes, and only to one with no clash |
| Actions.Translated | static/js/actions.js:215 | shifting a polyline keeps its number of points |
| Actions.MovedElement | static/js/actions.js:198-225 | a move keeps id and kind; an opening changes only its distance, and only to a clash-free position; a polygon or route is shifted rigidly so its first point sits at pointer minus offset; a gear's corner and a wall's first end go to pointer minus offset with size and direction kept |
| Actions.MovedChildStaysOnWall | static/js/actions.js:200-210 | sliding an opening that fits on its wall keeps 0 <= dist and dist + length <= wall length, and moves only to a clash-free position |
| Actions.ReplaceById | static/js/actions.js:198-225 | the in-place edit of the selected element: the entry with its id is replaced and every other entry stays |
| Actions.ReplaceValid | static/js/actions.js:198-225 | writing back an edited element that keeps its id keeps the store valid |
| EventHandlers.Selected | static/js/state.js:15 | the selected element, when present, is in the list and carries the selected id |
| EventHandlers.ViewModeInert | static/js/event-handlers.js:98-107 | in view mode, pressing, moving and releasing the mouse change nothing |
| EventHandlers.ModeChangeResets | static/js/event-handlers.js:63-74 | a mode change drops the route being built, the selection and the interaction flags, sets the edit flag and tool, and keeps the elements |
| EventHandlers.ToolButtonClickEffect | static/js/event-handlers.js:76-93 | a tool button does nothing in view mode; in edit mode it sets the tool, clears the selection and flags, and drops the route being built unless the new tool is the route tool |
| EventHandlers.RouteClickEffect | static/js/event-handlers.js:120-141 | the first route click starts a build with one point; a later click near a door appends the point, commits the route and ends the build; any other later click only appends |
| EventHandlers.RoutesHaveTwoPoints | static/js/event-handlers.js:127-133 | every route the route tool creates has at least two points |
| EventHandlers.WallChildDownNoWall | static/js/event-handlers.js:194-213 | a door or window press with no wall within the placement tolerance starts nothing and creates nothing |
| EventHandlers.WallChildCommit | static/js/event-handlers.js:311-335 | an opening is created iff the ordered interval has at least the minimum length and no clash; it spans [min, max] of the drag and swings forwards iff drawn forwards |
| EventHandlers.ShapeCommit | static/js/event-handlers.js:336-365 | nothing is created for a drag shorter than 3 (the default, as `minElementSize` is not configured), nor for a wall whose snapped ends coincide; otherwise exactly one element of the tool's kind is appended |
| EventHandlers.CommittedWallOnGrid | static/js/event-handlers.js:348-357 | a wall drawn from a grid point ends on the grid |
| EventHandlers.MouseUpResets | static/js/event-handlers.js:289-372 | outside the route and delete tools, every release in edit mode ends with the interaction flags reset |
| EventHandlers.MouseOutEffect | static/js/event-handlers.js:16-38 | leaving while building a route discards its points and resets; leaving while drawing anything else in edit mode is a release |
| EventHandlers.DrawPosOnWall | static/js/event-handlers.js:257-270 | while an opening is dragged, the preview's end lies on the wall and its length is the distance from the start |
| EventHandlers.GrabThenMoveInPlace | static/js/event-handlers.js:173-182 | the grab offset is such that moving without moving the pointer leaves the element where it was |
| EventHandlers.ModeChangeValid | static/js/event-handlers.js:63-74 | a mode change keeps the store valid |
| EventHandlers.ToolButtonClickValid | static/js/event-handlers.js:76-93 | a tool button keeps the store valid |
| EventHandlers.MouseDownValid | static/js/event-handlers.js:95-229 | every press keeps ids unique and below the counter, and keeps openings on walls of the list without clashes |
| EventHandlers.MouseMoveValid | static/js/event-handlers.js:231-286 | every move keeps the store valid |
| EventHandlers.MouseUpValid | static/js/event-handlers.js:289-372 | every release keeps the store valid |
| EventHandlers.MouseOutValid | static/js/event-handlers.js:16-38 | leaving the canvas keeps the store valid |
| EventHandlers.WallToolNeverCreatesAsWritten | static/js/event-handlers.js:219-223 | as written, with the three-argument `snapToGrid` call, the wall tool never reaches `createWall` |
| EventHandlers.JsOnSegmentOnNumbers | static/js/geometry.js:14-24 | the point-on-segment test over JavaScript values agrees with `isPointOnLineSegment` whenever both coordinates are numbers |
| EventHandlers.RouteClickAsWritten | static/js/event-handlers.js:121-133 | as written, a route click stores a number whose `.x` and `.y` are `undefined`; from the second click on, the door test on them accepts a door iff its wall exists and its opening has non-zero length, wherever the click lands |
| EventHandlers.WallToolExample | static/js/event-handlers.js:345-353 | a drag from (0, 0) to (50, 0) is long enough and has distinct snapped ends, so per-coordinate snapping creates a wall |
| EventHandlers.WallToolDrawsWall | static/js/event-handlers.js:336-357 | with per-coordinate snapping, press and release create a wall from the snapped press to the snapped release iff the drag is long enough and the snapped ends differ |
| EventHandlers.HandleModeChange | static/js/event-handlers.js:63-74 | the store becomes `ModeChange` of the old store |
| EventHandlers.HandleToolButtonClick | static/js/event-handlers.js:76-93 | the store becomes `ToolButtonClick` of the old store |
| EventHandlers.HandleMouseDown | static/js/event-handlers.js:95-229 | the store becomes `MouseDown` of the old store; in view mode the element whose information is shown is returned |
| EventHandlers.RouteMouseDown | static/js/event-handlers.js:120-141 | the store becomes `RouteClick` of the old store |
| EventHandlers.FinishRoute | static/js/event-handlers.js:128-133 | appends the route of the built points plus the last one, with the counter's id, and clears the build |
| EventHandlers.SelectMouseDown | static/js/event-handlers.js:143-192 | the store becomes `SelectDown` of the old store |
| EventHandlers.SelectAt | static/js/event-handlers.js:152-192 | a handle starts a resize; otherwise a hit element is selected for moving, or the selection is cleared |
| EventHandlers.SetMoveOffset | static/js/event-handlers.js:173-182 | only the grab offset changes, chosen by the element's kind |
| EventHandlers.WallChildMouseDown | static/js/event-handlers.js:194-213 | the store becomes `WallChildDown` of the old store |
| EventHandlers.HandleMouseMove | static/js/event-handlers.js:231-286 | the store becomes `MouseMove` of the old store |
| EventHandlers.DragTo | static/js/event-handlers.js:251-256 | the store becomes `Dragged` of the old store |
| EventHandlers.HandleMouseUp | static/js/event-handlers.js:289-372 | the store becomes `MouseUp` of the old store |
| EventHandlers.CommitOpening | static/js/event-handlers.js:311-335 | the store becomes `OpeningCommitted` of the old store |
| EventHandlers.CommitShape | static/js/event-handlers.js:336-366 | the store becomes `ShapeCommitted` of the old store |
| EventHandlers.HandleMouseOut | static/js/event-handlers.js:16-38 | the store becomes `MouseOut` of the old store |
| Drawing.Intervals | static/js/drawing.js:81 | one interval per opening, from its distance along the wall to that plus its length |
| Drawing.InsertByStart | static/js/drawing.js:82 | insertion keeps the list sorted by start and is a permutation of the list plus the new interval |
| Drawing.SortByStart | static/js/drawing.js:82 | the sorted list is ordered by start and is a permutation of the input |
| Drawing.WallChildrenAreTheWallsOpenings | static/js/drawing.js:81-82 | the openings walked are exactly the doors and windows of the wall, each once, in increasing order of distance |
| Drawing.SolidSegments | static/js/drawing.js:80-100 | the wall's solid pieces are the `Gaps` of its sorted openings, each of positive length |
| Drawing.SolidPieces | static/js/drawing.js:86-98 | the loop that advances `currentDist` emits exactly `Gaps` of the openings from distance 0 |
| Drawing.GapsWithin | static/js/drawing.js:86-98 | for laid-out openings the pieces lie between the current distance and the wall's end, in increasing order |
| Drawing.GapsComplement | static/js/drawing.js:86-98 | for laid-out openings a point strictly inside the wall lies in a piece iff no opening covers it |
| Drawing.WallSegmentsAreTheWallMinusOpenings | static/js/drawing.js:80-100 | for sorted, non-overlapping openings inside the wall the pieces are the wall minus the openings, in increasing order |
| Drawing.ChildExtent | static/js/drawing.js:102-106 | a drawn extent has positive length inside [0, wall length] and starts at the opening's distance clamped to the wall |
| Drawing.ChildExtentOnWall | static/js/drawing.js:102-106 | an opening of positive length on the wall is drawn where it is; one wholly past either end is not drawn |
| Drawing.PreviewExtent | static/js/drawing.js:155-166 | a preview lies inside the wall with positive length and swings 1 or -1 |
| Drawing.PreviewMatchesCommit | static/js/drawing.js:155-166 | while drawing on a wall, the preview shows the interval the release commits, with the swing of the opening created |
| Drawing.PaintOrderLayers | static/js/drawing.js:18-23 | every element is painted exactly as often as it occurs, and no wall is painted after an opening or other element, no opening after another kind of element |
| PlanModel.TypeNameRoundTrip | static/js/floorplanner/elements.js:29 | reading a type name back gives the same type, and every known type has its own name |
| PlanModel.DistanceToLineIsProjectionDistance | static/js/floorplanner/elements.js:62-79 | on a proper segment the distance is the one to the clamped projection; on a zero-length one it is the SQUARED distance to the point |
| PlanModel.DistanceToLineSegmentAgrees | static/js/floorplanner/elements.js:197-228 | on a proper segment it equals `distanceToLine`; below parameter 0 it is the distance to the start, above 1 to the end |
| PlanModel.DegenerateSegmentHasNoDistance | static/js/floorplanner/elements.js:197-203 | a zero-length segment has no distance (the source divides zero by zero) |
| PlanModel.InBoxSpanned | static/js/floorplanner/elements.js:41-54 | the box around the centre is the inclusive box spanned by the two points, whichever way it was drawn |
| PlanModel.FindElementAtPosition | static/js/floorplanner/elements.js:19-59 | the backward scan returns the latest element hit: a line type closer than 0.25 or a machine or closet containing the point |
| PlanModel.FoundElementIsLatestHit | static/js/floorplanner.js:228-268 | the found element is hit and no later one is; other types are never found, and with routes left out no route is found |
| PlanModel.FindWallAtPosition | static/js/floorplanner/elements.js:175-194 | the forward scan returns the first wall within 0.2 |
| PlanModel.FoundWallIsFirst | static/js/floorplanner/elements.js:175-194 | the wall found has positive length, lies within 0.2, and is the first such in list order, not the nearest |
| PlanModel.CanvasPositionInvertsView | static/js/floorplanner.js:211-225 | unsnapped, the position is the world point drawn under the pointer; snapped, it is on the 0.5 m grid within half a cell on each axis |
| PlanModel.HandleAtIsFirstNear | static/js/floorplanner/elements.js:231-276 | the handle found is the element's own, within 0.3 of the pointer, and no handle tried before it is; none iff no handle is that close |
| PlanModel.SetThenGet | static/js/floorplanner.js:395-413 | after a write along a reachable path, reading the path gives the value; a write along an unreachable path changes nothing |
| PlanModel.SetPathLocal | static/js/floorplanner.js:395-413 | a write changes only the first key of its path; no key disappears |
| PlanModel.SetPathCreates | static/js/floorplanner.js:405-411 | a nested write under a missing key creates the intermediate objects, in which the rest of the path reads back the value |
| Planner.CentredOnPointer | static/js/floorplanner.js:302-319 | the element's midpoint moves onto the pointer and its extent end - start is kept |
| Planner.HandlersKeepValid | static/js/floorplanner.js:88-136 | every handler keeps the selection inside the list and the scale positive |
| Planner.MouseDownEffect | static/js/floorplanner.js:90-104 | a press never changes the elements; with select it selects the latest element hit (never a route) or nothing; with a drawing tool it starts a drawing at the grid-snapped pointer and keeps the selection |
| Planner.DragCentresSelected | static/js/floorplanner.js:107-117 | a select drag centres the selected element on the pointer, keeps its extent, and changes no other element |
| Planner.FinishDrawingEffect | static/js/floorplanner.js:445-494 | a drag shorter than 0.2 m creates nothing; a longer one appends one element from a copy of the start to the end, 0.2 m wide, with the tool's type and default properties, and selects it; the start point is cleared either way |
| Planner.MouseUpEndsDrawing | static/js/floorplanner.js:121-135 | a release always ends the drawing; without a drawing nothing else changes |
| Planner.UpdatePropertyEffect | static/js/floorplanner.js:395-421 | only the selected element changes; a reachable dotted path under `properties` reads back the value; without a selection nothing changes |
| Planner.DeleteRemovesFirstWithId | static/js/floorplanner.js:424-442 | removes exactly the first element with the selected id, keeps the others in order and clears the selection; without a selection nothing changes |
| Planner.SetActiveToolEffect | static/js/floorplanner.js:180-197 | a drawing tool drops the selection; select keeps it |
| Planner.Editor.constructor | static/js/floorplanner.js:17-27 | the initial state: no elements, no selection, the select tool, not drawing, with the given scale and pan |
| Planner.Editor.GetCanvasMousePosition | static/js/floorplanner.js:211-225 | returns the world position, snapped for every tool but select |
| Planner.Editor.HandleMouseDown | static/js/floorplanner.js:90-104 | the state becomes `MouseDown` of the old state |
| Planner.Editor.HandleMouseMove | static/js/floorplanner.js:107-118 | the state becomes `MouseMove` of the old state |
| Planner.Editor.HandleMouseUp | static/js/floorplanner.js:121-129 | the state becomes `MouseUp` of the old state |
| Planner.Editor.HandleMouseLeave | static/js/floorplanner.js:132-135 | the drawing ends; nothing else changes |
| Planner.Editor.SetTool | static/js/floorplanner.js:180-197 | the state becomes `SetActiveTool` of the old state |
| Planner.Editor.DragSelectedElement | static/js/floorplanner.js:302-319 | the state becomes `DragSelected` of the old state |
| Planner.Editor.UpdateProperty | static/js/floorplanner.js:395-421 | the state becomes `UpdateElementProperty` of the old state |
| Planner.Editor.DeleteSelectedElement | static/js/floorplanner.js:424-442 | the state becomes `DeleteSelected` of the old state |
| Planner.Editor.FinishDrawingAt | static/js/floorplanner.js:445-494 | the state becomes `FinishDrawing` of the old state |
| PlannerUi.PointJsonRoundTrip | static/js/floorplanner/elements.js:353-358 | a point stored as `{ x, y }` reads back as the same point |
| PlannerUi.RoutePointEditing | static/js/floorplanner/elements.js:353-382 | adding appends the point and makes it the end; removing the first or last of two or more points drops exactly it and moves start or end onto the new first or last; removing one in between keeps start and end |
| PlannerUi.BoxResizeAsWrittenMovesFarCorner | static/js/floorplanner/elements.js:307-326 | for a box drawn from (4, 4) to (2, 2), dragging its top-left handle to (1, 1) as written leaves the box (1, 1)-(2, 2) |
| PlannerUi.BoxResizeKeepsOppositeCorner | static/js/floorplanner/elements.js:307-326 | the corrected corner drag makes the box the one spanned by the pointer and the opposite corner, however it was drawn; nothing else changes; for a box drawn top-left to bottom-right it equals the source's writes |
| PlannerUi.ResizeMovesHandle | static/js/floorplanner/elements.js:279-305 | a line element's dragged end goes to the pointer and the other end stays; a route's first or last point follows its start or end |
| PlannerUi.HandlersKeepValid | static/js/floorplanner/ui.js:4-109 | every handler, tool change and delete keeps the selection inside the list and the scale positive |
| PlannerUi.SelectPress | static/js/floorplanner/ui.js:7-20 | a select press on a handle of the selection starts a resize with it and keeps the selection; any other press selects the latest element hit and sets `isResizing` |
| PlannerUi.ReleaseEndsGestures | static/js/floorplanner/ui.js:83-109 | a release that does not throw applies one last resize when resizing, then clears `isResizing` and the handle, and always ends the drawing; a release whose route resize finds no `points` (elements.js:299, 302), or whose double-click `push` fails, changes nothing, so `isResizing` and the handle stay set; leaving ends drawing and resizing |
| PlannerUi.DrawingAfterSelectDropped | static/js/floorplanner/ui.js:83-88 | a change to a drawing tool leaves `isResizing` set with no handle or selection; from such a state a press and release with a drawing tool draws nothing, clears `isResizing` and leaves the start point; with `isResizing` clear the release finishes the drawing |
| PlannerUi.ClickNeverAddsRoutePoint | static/js/floorplanner/ui.js:83-98 | a select press that grabs no handle followed by a double-click release leaves the elements as they were and ends resizing, so no route point is added |
| PlannerUi.DoubleClickAppendsPoint | static/js/floorplanner/ui.js:92-97 | when neither drawing nor resizing, a double click on a selected route appends exactly one point |
| PlannerUi.FinishDrawingEffect | static/js/floorplanner/elements.js:107-172 | a short drag, or a door or window not started within 0.2 m of a wall, creates nothing; otherwise one element is appended and selected; a route is 1 m wide with its two ends as points, anything else 0.2 m |
| PlannerUi.ToolAndDelete | static/js/floorplanner/ui.js:169-214 | a tool change keeps the elements and drops the selection unless the tool is select; delete removes exactly the first element with the selected id, keeps the others in order and clears the selection; without a selection nothing changes |
| PlannerUi.Editor.constructor | static/js/floorplanner/core.js:2-15 | the initial state, with the given elements, scale and pan |
| PlannerUi.Editor.GetCanvasMousePosition | static/js/floorplanner/elements.js:2-16 | returns the world position, snapped only for the wall tool |
| PlannerUi.Editor.Select | static/js/floorplanner/ui.js:217-224 | sets the selection, clears drawing and the handle, and sets `isResizing` |
| PlannerUi.Editor.HandleMouseDown | static/js/floorplanner/ui.js:4-28 | the state becomes `MouseDown` of the old state |
| PlannerUi.Editor.HandleMouseMove | static/js/floorplanner/ui.js:31-80 | the state becomes `MouseMove` of the old state |
| PlannerUi.Editor.HandleMouseUp | static/js/floorplanner/ui.js:83-102 | the state becomes `MouseUp` of the old state, which is the old state itself when the listener throws |
| PlannerUi.Editor.HandleMouseLeave | static/js/floorplanner/ui.js:105-109 | drawing and resizing end; nothing else changes |
| PlannerUi.Editor.SetTool | static/js/floorplanner/ui.js:169-197 | the state becomes `SetActiveTool` of the old state |
| PlannerUi.Editor.ResizeSelectedElement | static/js/floorplanner/elements.js:279-332 | the state becomes `ResizeSelected` of the old state |
| PlannerUi.Editor.AddPointToEmergencyRoute | static/js/floorplanner/elements.js:353-363 | the state becomes `AddPointToRoute` of the old state |
| PlannerUi.Editor.RemovePointFromEmergencyRoute | static/js/floorplanner/elements.js:366-382 | the state becomes `RemovePointFromRoute` of the old state |
| PlannerUi.Editor.FinishDrawingAt | static/js/floorplanner/elements.js:107-172 | the state becomes `FinishDrawing` of the old state, the wall check using the wall search |
| PlannerUi.Editor.DeleteSelectedElement | static/js/floorplanner/ui.js:201-214 | the state becomes `DeleteSelected` of the old state |
| Viewer.SafetyHitIsSpannedBox | static/js/floorplanner/show.js:224-243 | walls, doors, windows and routes are never hit; anything else is hit iff the point is in the inclusive box spanned by its points, in either order; for machines and closets this is the editor's box test |
| Viewer.PointOnLineMeaning | static/js/floorplanner/show.js:246-266 | true iff the segment is proper, the projection parameter is in [0, 1] and the squared distance is at most (thickness/2)^2; the distance is then `distanceToLineSegment`'s; a missing end gives false |
| Viewer.RectIsSafetyBox | static/js/floorplanner/show.js:269-274 | a rectangle of non-negative size is hit iff its safety box is (inclusive bounds); a missing position or size gives false |
| Viewer.ScreenToWorldInvertsRender | static/js/floorplanner/show.js:121-128 | the click's world point is the inverse of the renderer's translate-then-scale |
| Viewer.ClickSelection | static/js/floorplanner/show.js:133-137 | a click selects the first element in list order containing the world point, or nothing when none does |
| Viewer.ZoomedScale | static/js/floorplanner/show.js:182-186 | the new scale is in [0.1, 5], and it is the old times 1.1 (scrolling up) or 0.9 when that is in range |
| Viewer.WheelAsWrittenDriftsFromMouse | static/js/floorplanner/show.js:177-190 | as written, scrolling up at (100, 100) with no pan at scale 1 moves the world point under the mouse from (100, 100) to (12000/121, 12000/121) |
| Viewer.WheelKeepsPointUnderMouse | static/js/floorplanner/show.js:188-190 | the corrected step keeps the world point under the mouse where it was, with the scale as clamped |
| Viewer.HandlersKeepValid | static/js/floorplanner/show.js:120-193 | every handler keeps the scale positive and the selection in range; a click keeps the view; a press starts panning for the middle or right button; a release stops it; a move changes nothing unless panning, and then shifts the screen x of every world point by the pointer's x movement divided by the scale; the wheel keeps the selection |
| Viewer.ShowViewer.constructor | static/js/floorplanner/show.js:31-38 | the scale is 90% of the smaller of the two fit scales and the plan is centred |
| Viewer.ShowViewer.HandleClick | static/js/floorplanner/show.js:120-138 | the state becomes `Click` of the old state |
| Viewer.ShowViewer.HandleMouseDown | static/js/floorplanner/show.js:140-146 | the state becomes `MouseDown` of the old state |
| Viewer.ShowViewer.HandleMouseUp | static/js/floorplanner/show.js:152-154 | the state becomes `MouseUp` of the old state |
| Viewer.ShowViewer.HandleMouseMove | static/js/floorplanner/show.js:156-167 | the state becomes `MouseMove` of the old state |
| Viewer.ShowViewer.HandleWheel | static/js/floorplanner/show.js:170-193 | the state becomes `WheelStep` of the old state |
| SvgEditor.SnapProperties | static/drawing.js:95-100 | a snapped point lies on the 20-pixel grid within half a cell on each axis, and snapping again changes nothing |
| SvgEditor.NewSymbolIsCentred | static/drawing.js:330-339 | a placed symbol is an image of the symbol's size whose centre is the point |
| SvgEditor.DragShapeMeaning | static/drawing.js:349-369 | a rect drag gives x = min, y = min and size abs(delta); a line keeps its first end and moves its second; a circle's radius is the distance from the start |
| SvgEditor.TranslateIsRigid | static/drawing.js:371-388 | moving shifts the anchor by exactly (dx, dy) and keeps the size (a line keeps its end-to-end vector); zero is the identity and moves add up |
| SvgEditor.ResizeKeepsFarCorner | static/drawing.js:518-538 | the `nw` handle moves the corner to the pointer and keeps x + width and y + height; any other handle changes nothing |
| SvgEditor.PayloadFields | static/drawing.js:395-423 | the record has exactly the common fields, the shape's own fields, and an `id` only once assigned; images are type `symbol` with their kind; fill defaults to `transparent` and stroke to `black` |
| SvgEditor.Zoomed | static/drawing.js:241-247 | the zoom stays in [0.1, 5] and is the old one times 0.9 (scrolling down) or 1.1 when that is in range |
| SvgEditor.HandlersKeepValid | static/drawing.js:128-274 | every listener keeps the selection and the shape being drawn inside the list |
| SvgEditor.DrawingGesture | static/drawing.js:128-237 | a press with a drawing tool appends one size-zero shape at the snapped pointer; the release sizes it to the snapped pointer, ends the drawing and switches back to select |
| SvgEditor.ReleaseMovesSelected | static/drawing.js:211-219 | with select and nothing drawn or resized, a release moves the selected element by the snapped displacement and no other element |
| SvgEditor.NoBuildingNoEdit | static/drawing.js:128-132 | without a building only panning reacts to a press |
| SvgEditor.Editor.constructor | static/drawing.js:25-36 | the initial state: select tool, no symbol, nothing drawn or selected, zoom 1, no pan |
| SvgEditor.Editor.ChooseTool | static/drawing.js:103-125 | a symbol choice sets the symbol tool and that symbol; any other choice sets the tool and clears the symbol; nothing else changes |
| SvgEditor.Editor.PressDrawing | static/drawing.js:128-186 | the state becomes `DrawDown` of the old state: the drawing listener's part of a press |
| SvgEditor.Editor.HandleMouseDown | static/drawing.js:128-186 | the state becomes `MouseDown` of the old state (drawing and panning listeners) |
| SvgEditor.Editor.HandleMouseMove | static/drawing.js:188-201 | the state becomes `MouseMove` of the old state |
| SvgEditor.Editor.HandleMouseUp | static/drawing.js:203-238 | the state becomes `MouseUp` of the old state |
| SvgEditor.Editor.HandleWheel | static/drawing.js:241-247 | the state becomes `Wheel` of the old state |
| SvgEditor.Click | static/drawing.js:566-573 | a click clears the selection exactly when its target is the SVG canvas itself (or nothing was selected); a click on a grid line or any other node, like one on an element or handle, changes nothing; nothing else changes and validity is kept |
| SvgEditor.Editor.HandleClick | static/drawing.js:566-573 | the state becomes `Click` of the old state |
| ElementRoutes.RiskScoreZero | src/element_routes.py:207 | the score does not depend on the order of the ratings and is zero iff one rating is |
| ElementRoutes.RiskScoreGrows | src/element_routes.py:252 | for ratings of at least 1 the score is at least each rating and grows strictly with the frequency |
| ElementRoutes.OrEmpty | src/element_routes.py:210-212 | a missing measure list becomes the empty list; a given one is kept |
| ElementRoutes.RiskRoutesEffect | src/element_routes.py:199-274 | create appends one row with the product score and empty lists for missing ones; update answers the save error of the `except` when no row or more than one row has this id and element, and otherwise rewrites exactly that row and no other |
| ElementRoutes.FetchOne | src/element_routes.py:243-246 | the lookup yields a row only when it is the one row that matches; it yields nothing exactly when no row is the only match (none or several match) |
| ElementRoutes.FetchOneCases | src/element_routes.py:243-246 | no matching row, or two matching rows, make the lookup fail; the only matching row is the one it yields |
| ElementRoutes.PairedUpToIsKeptPairs | src/element_routes.py:487-489 | the items are the pairs at the positions where both symbol and text are non-empty, one per such position, in increasing order |
| ElementRoutes.PairItems | src/element_routes.py:485-489 | the loop's items are `Pair` of the two lists |
| ElementRoutes.PairBounds | src/element_routes.py:486-507 | a missing or empty list yields no items; otherwise there are at most as many items as the shorter list, each a non-empty pair from one position of both lists |
| ElementRoutes.UpdateInstructionsEffect | src/element_routes.py:475-587 | create appends one row holding the form; update answers the save error when the element has no instruction or more than one (the `create_instructions` fallback is never reached), and otherwise that instruction takes the form's contents, keeps its id and creation time, and no other row changes |

## Left out

- Rendering is left out: every canvas and SVG drawing call, the grid, arcs, arrowheads, labels, highlights and cursor changes. Only the interval arithmetic of `drawing.js` and the paint order are modelled.
- Status text, `console` output, `alert` in `loadInformation` and the properties panel: none of these change the state.
- Network and persistence: `api.js`, `saveChanges`, the `fetch` in `saveElementToServer` (only the record it posts is modelled), `fetchElementProperties`, loading elements, and the database calls of the Python routes. Rows are modelled as lists, and the JSON encoding of the measure and item lists is left out.
- The other routes of `src/element_routes.py` (`delete_risk`, the form builders, training records and uploads) are HTML and database glue.
- Python exception paths: the `try`/`except` that turns a failing `int(...)` or database call into an error message. The one exception path that is modelled is a `fetchone` that finds no row or several (`ElementRoutes.FetchOne`).
- ElementRoutes.UpdateRisk, ElementRoutes.UpdateInstructions: rely on `fetchone` raising when no row or several rows match. That is how the `fastlite` library behaves; its source is not part of this model. So the `if not risk` and `if not instruction` branches never run. The save error is the fixed prefix `Fehler beim Speichern`, without the exception text.
- Pointer coordinates: `getMousePos`, `getBoundingClientRect` and `getSvgCoords` are inputs. Each handler takes the pointer already converted to canvas, SVG or client coordinates.
- Ids are parameters: `generateId`, the database row ids and the clock are parameters (`newId`, `now`).
- The symbol tool of the SVG editor saves asynchronously and only then selects the new image and returns to the select tool. The model places the image and leaves the tool as it is.
- SVG resize handles: the source appends the handle group inside the shape, so a handle's `parentElement` is that group. The model takes the handle's element to be the shape it belongs to.
- A change of tool in the middle of a drag is not modelled.
- Route points in the metre editors: non-point entries of `properties.points` read as absent, and a `points` value that is neither an array nor missing counts as not an array. Removing the last remaining point is not modelled beyond the list operation: the source then reads `points[0]` of an empty array.
- IEEE-754 behaviour (NaN, rounding, division by zero) is not modelled. The exception is the wall-tool finding, which models the NaN and `undefined` of the three-argument `snapToGrid` call explicitly.
- Geometry.SnapToGrid: requires a positive grid size. Every caller passes a positive constant.
- Planner.Editor.UpdateProperty: the walk down the dotted path is the recursive `SetPath` over nested maps rather than a loop over object references. The source's `element[parts[0]] = value` writes any key. The model writes only `element_type` (a string, read as a type), `width` (a number) and the whole `properties` object (an object). A one-part path naming `id`, `start`, `end` or any other key, or giving a value of another JSON type, leaves the element unchanged. A dotted path is written only below `properties`.
- PlanModel.DistanceToLineSegment: returns `None` for a zero-length segment instead of NaN. Every comparison with NaN is false, so no wall is found there either way.
- Viewer.HandlersKeepValid: keeps the source's pan step (the pointer movement divided by the scale), although the pan is applied in screen pixels.
- `static/js/main.js` (the Fabric.js editor), `render.js`, `core.js` apart from its initial state, `dom-references.js`, `config.js` (its values are constants of the model) and the server modules outside `element_routes.py` are not part of this model.
- `static/js/floorplanner/elements.js:335-350` lacks the closing brace of `deleteSelectedElement`. The delete of `ui.js:201-214`, which is well formed and identical in effect, is modelled.
- EventHandlers.HandleMouseDown: runs the corrected per-coordinate `SnapPoint` for the wall start and the route click, not the three-argument `snapToGrid` call of `static/js/event-handlers.js:121,220`. As written, the stored point is a number (first row of "## Findings").
- EventHandlers.HandleMouseUp: commits walls through the corrected `SnapPoint` of the end. As written (`static/js/event-handlers.js:349`), no wall is ever committed.
- EventHandlers.CommitShape: its wall branch uses the corrected `SnapPoint`, not the NaN-producing call of `static/js/event-handlers.js:349`.
- EventHandlers.HandleMouseOut: ends a drawing through the same corrected commit as `HandleMouseUp`.
- EventHandlers.ShapeCommit: states the wall commit with the corrected snapped end. As written, a wall drag never commits (`EventHandlers.WallToolNeverCreatesAsWritten`).
- EventHandlers.CommittedWallOnGrid: is about the wall the corrected snapping creates. The source as written creates none.
- EventHandlers.RouteClickEffect: states the route click on a corrected snapped point. As written, the stored points are numbers, and the door test accepts any door with a proper opening (`EventHandlers.RouteClickAsWritten`).
- EventHandlers.RouteMouseDown: applies `RouteClick` to the corrected snapped point, as `HandleMouseDown` does.
- EventHandlers.RoutesHaveTwoPoints: holds for the corrected route click; as written the two entries are numbers rather than points.
- PlannerUi.Editor.HandleMouseMove: a box-corner drag runs the corrected `BoxResized`, not the side assignment of `static/js/floorplanner/elements.js:307-326`. The two agree when the box was drawn with start <= end (`PlannerUi.BoxResizeKeepsOppositeCorner`). They differ for a box drawn up and to the left, which loses its far corner in the source (second row of "## Findings").
- PlannerUi.Editor.HandleMouseUp: the last resize of a gesture also runs the corrected `BoxResized`.
- PlannerUi.Editor.ResizeSelectedElement: resizes boxes with the corrected `BoxResized`, not `BoxResizedAsWritten`.
- PlannerUi.ReleaseEndsGestures: the resize it names is the corrected one.
- PlannerUi.SelectElement: kept as written. It sets `isResizing` to true although its comment says it clears the resize state. So after a tool change, and after each finished drawing, the next drawing is dropped (`PlannerUi.DrawingAfterSelectDropped`). The double-click behaviour of `PlannerUi.ClickNeverAddsRoutePoint` has the same cause. The model does not switch to a corrected `selectElement`, because these as-written consequences are what it states.
- Viewer.ShowViewer.HandleWheel: applies the corrected `Wheel`, which keeps the world point under the mouse. It does not apply the drifting update of `static/js/floorplanner/show.js:178-190` (`Viewer.WheelAsWritten`, third row of "## Findings").
- SvgEditor: the delete button (`static/drawing.js:540-563`) is left out: it removes the element only after a `DELETE` request succeeds, which is network I/O, and clearing the info panel is DOM output.

## Findings

| source | as written | input that shows it | evidently intended | confidence | as-written member | corrected member |
|---|---|---|---|---|---|---|
| static/js/event-handlers.js:220 | `snapToGrid(pos.x, pos.y, GRID_SIZE_PIXELS)` passes three arguments to a two-argument `snapToGrid(coord, gridSize)`. It returns one number, and `.x`/`.y` of that number are `undefined`. The same call at line 349 snaps the end, so the wall tool never creates a wall | a wall-tool drag from (0, 0) to (50, 0): the size test compares NaN and both ends are `undefined` | snap each coordinate: `{ x: snapToGrid(pos.x, G), y: snapToGrid(pos.y, G) }` | high, not executed | EventHandlers.WallToolNeverCreatesAsWritten | EventHandlers.WallToolDrawsWall |
| static/js/event-handlers.js:121 | the route tool makes the same three-argument call, so each stored route point is a number. From the second click on, `isPointNearDoor` reads `undefined` coordinates, and every comparison with NaN is false, so the door test accepts any door whose opening has non-zero length | a door of length 20 on a wall from (0, 0) to (100, 0); route clicks at (30, 0) and then at (500, 500): the second click finishes the route though it is far from the door | snap each coordinate, as for walls | high, not executed | EventHandlers.RouteClickAsWritten | EventHandlers.RouteClickEffect |
| static/js/floorplanner/elements.js:307-326 | a corner drag writes `start` for the left and top sides and `end` for the right and bottom sides, whichever point actually lies there | a box from (4, 4) to (2, 2); drag its top-left handle at (2, 2) to (1, 1): the box becomes (1, 1)-(2, 2) and the far corner (4, 4) is lost | move the sides of the dragged corner and keep the opposite corner | high, not executed | PlannerUi.BoxResizeAsWrittenMovesFarCorner | PlannerUi.BoxResizeKeepsOppositeCorner |
| static/js/floorplanner/show.js:178-190 | the world point under the mouse is taken as `mouse / scale - pan`, mixing screen and world units, and the pan is set to `-(world - mouse / scale')` | scale 1, no pan, wheel up at (100, 100): the world point under the mouse moves from (100, 100) to (12000/121, 12000/121) | zoom towards the mouse: world = (mouse - pan) / scale, then pan' = mouse - scale' * world | high, not executed | Viewer.WheelAsWrittenDriftsFromMouse | Viewer.WheelKeepsPointUnderMouse |
