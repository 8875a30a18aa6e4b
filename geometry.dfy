// Pure plane geometry used by the pixel-based editor: distances, grid snapping,
// projection onto a segment, a point along a segment and the even-odd
// point-in-polygon test.
//
// The runtime's square root is a parameter `sqrt` of every operation that
// takes one; what the model relies on about it is `IsSqrt`.

module Geometry {

  datatype Point = Point(x: real, y: real)

  /** The runtime's square root, as far as the model relies on it. */
  ghost predicate IsSqrt(sqrt: real -> real)
  {
    forall v: real :: 0.0 <= v ==> 0.0 <= sqrt(v) && Sq(sqrt(v)) == v
  }

  function Abs(v: real): real { if v < 0.0 then -v else v }
  function Min(a: real, b: real): real { if a <= b then a else b }
  function Max(a: real, b: real): real { if a >= b then a else b }

  /**
   * The square of `v`. It is spelled `v * Same(v)` rather than `v * v`: the
   * solver handles a product of two terms more reliably than a bare square.
   */
  function Sq(v: real): real { v * Same(v) }

  function Same(v: real): real { v }

  /** Squared Euclidean distance, the quantity the source takes the root of. */
  function SqDist(a: Point, b: Point): real
  {
    Sq(b.x - a.x) + Sq(b.y - a.y)
  }

  function Distance(sqrt: real -> real, a: Point, b: Point): real
  {
    sqrt(SqDist(a, b))
  }

  lemma SquareFacts(v: real)
    ensures 0.0 <= Sq(v)
    ensures v != 0.0 ==> 0.0 < Sq(v)
    ensures v == 0.0 ==> Sq(v) == 0.0
  {
  }

  lemma SqDistZero(a: Point, b: Point)
    ensures SqDist(a, b) >= 0.0
    ensures SqDist(a, b) == 0.0 <==> a == b
  {
    SquareFacts(b.x - a.x);
    SquareFacts(b.y - a.y);
  }

  /** What the rest of the model uses about `Distance`. */
  lemma DistanceFacts(sqrt: real -> real, a: Point, b: Point)
    requires IsSqrt(sqrt)
    ensures Distance(sqrt, a, b) >= 0.0
    ensures Sq(Distance(sqrt, a, b)) == SqDist(a, b)
    ensures Distance(sqrt, a, b) == 0.0 <==> a == b
  {
    SqDistZero(a, b);
    var v := SqDist(a, b);
    assert 0.0 <= sqrt(v) && Sq(sqrt(v)) == v;
    SquareFacts(sqrt(v));
  }

  // ---------------------------------------------------------------- snapping

  /** JavaScript's Math.round: halves round towards positive infinity. */
  function Round(v: real): (k: int)
    ensures v - 0.5 < k as real <= v + 0.5
  {
    (v + 0.5).Floor
  }

  function GridLine(k: int, gridSize: real): real
  {
    k as real * gridSize
  }

  /** `v` is an integer multiple of `gridSize`. */
  ghost predicate OnGrid(v: real, gridSize: real)
  {
    exists k: int :: v == GridLine(k, gridSize)
  }

  function SnapToGrid(coord: real, gridSize: real): real
    requires gridSize > 0.0
  {
    Round(coord / gridSize) as real * gridSize
  }

  /** Snapping lands on the grid and moves the coordinate by at most half a cell. */
  lemma SnapToGridNearest(coord: real, gridSize: real)
    requires gridSize > 0.0
    ensures OnGrid(SnapToGrid(coord, gridSize), gridSize)
    ensures Abs(SnapToGrid(coord, gridSize) - coord) <= gridSize / 2.0
  {
    var q := coord / gridSize;
    var k := Round(q);
    assert SnapToGrid(coord, gridSize) == GridLine(k, gridSize);
    assert coord == q * gridSize;
    var diff := k as real - q;
    assert -0.5 <= diff <= 0.5;
    assert SnapToGrid(coord, gridSize) - coord == diff * gridSize;
    assert -0.5 * gridSize <= diff * gridSize <= 0.5 * gridSize;
  }

  /** The coordinates snapping leaves unchanged are exactly the grid lines. */
  lemma SnapToGridFixpoints(coord: real, gridSize: real)
    requires gridSize > 0.0
    ensures SnapToGrid(coord, gridSize) == coord <==> OnGrid(coord, gridSize)
  {
    if OnGrid(coord, gridSize) {
      var k: int :| coord == GridLine(k, gridSize);
      assert coord / gridSize == k as real;
      assert Round(k as real) == k;
    } else {
      SnapToGridNearest(coord, gridSize);
    }
  }

  lemma SnapToGridIdempotent(coord: real, gridSize: real)
    requires gridSize > 0.0
    ensures SnapToGrid(SnapToGrid(coord, gridSize), gridSize) == SnapToGrid(coord, gridSize)
  {
    SnapToGridNearest(coord, gridSize);
    SnapToGridFixpoints(SnapToGrid(coord, gridSize), gridSize);
  }

  // ------------------------------------------------------ segments and lines

  /** Numerator of the perpendicular distance from `p` to the line through `a` and `b`. */
  function Cross(p: Point, a: Point, b: Point): real
  {
    (b.y - a.y) * p.x - (b.x - a.x) * p.y + b.x * a.y - b.y * a.x
  }

  /** Dot product of `p - a` with `b - a`. */
  function Dot(p: Point, a: Point, b: Point): real
  {
    (p.x - a.x) * (b.x - a.x) + (p.y - a.y) * (b.y - a.y)
  }

  function IsPointOnLineSegment(sqrt: real -> real, p: Point, a: Point, b: Point, tolerance: real): bool
  {
    var len := Distance(sqrt, a, b);
    if len == 0.0 then Distance(sqrt, p, a) < tolerance
    else
      var distToLine := Abs(Cross(p, a, b)) / len;
      if distToLine > tolerance then false
      else
        var dot := Dot(p, a, b);
        if dot < 0.0 then false
        else if dot > Sq(len) then false
        else true
  }

  /** For a degenerate segment the test is "closer to the point than the tolerance". */
  lemma OnSegmentDegenerate(sqrt: real -> real, p: Point, a: Point, tolerance: real)
    requires IsSqrt(sqrt)
    ensures IsPointOnLineSegment(sqrt, p, a, a, tolerance) <==> Distance(sqrt, p, a) < tolerance
  {
    DistanceFacts(sqrt, a, a);
  }

  /**
   * For a proper segment, a point is accepted exactly when its distance to the
   * line is at most the tolerance (a point at exactly the tolerance is accepted)
   * and its projection falls between the end points: the dot product bound
   * `len * len` is the squared length of the segment.
   */
  lemma OnSegmentCharacterisation(sqrt: real -> real, p: Point, a: Point, b: Point, tolerance: real)
    requires IsSqrt(sqrt) && a != b
    ensures Distance(sqrt, a, b) > 0.0
    ensures IsPointOnLineSegment(sqrt, p, a, b, tolerance)
        <==> Abs(Cross(p, a, b)) / Distance(sqrt, a, b) <= tolerance
             && 0.0 <= Dot(p, a, b) <= SqDist(a, b)
  {
    DistanceFacts(sqrt, a, b);
  }

  // ---------------------------------------------------------------- projection

  datatype Projection = Projection(x: real, y: real, onSegment: bool)

  function Clamp01(t: real): real { Max(0.0, Min(1.0, t)) }

  function ProjectPointOntoLineSegment(sqrt: real -> real, p: Point, a: Point, b: Point): Projection
  {
    var l2 := Sq(Distance(sqrt, a, b));
    if l2 == 0.0 then Projection(a.x, a.y, true)
    else
      var t := Clamp01(Dot(p, a, b) / l2);
      Projection(a.x + t * (b.x - a.x), a.y + t * (b.y - a.y), t >= 0.0 && t <= 1.0)
  }

  /** The parameter of the projection along `a -> b`; 0 for a degenerate segment. */
  function ProjectionParameter(sqrt: real -> real, p: Point, a: Point, b: Point): (t: real)
    ensures 0.0 <= t <= 1.0
  {
    var l2 := Sq(Distance(sqrt, a, b));
    if l2 == 0.0 then 0.0 else Clamp01(Dot(p, a, b) / l2)
  }

  function Lerp(a: Point, b: Point, t: real): Point
  {
    Point(a.x + t * (b.x - a.x), a.y + t * (b.y - a.y))
  }

  /**
   * The projection is always reported on the segment, and it is the point of
   * the segment at the clamped parameter; for a degenerate segment it is `a`.
   */
  lemma ProjectionIsClampedPoint(sqrt: real -> real, p: Point, a: Point, b: Point)
    ensures ProjectPointOntoLineSegment(sqrt, p, a, b).onSegment
    ensures var r := ProjectPointOntoLineSegment(sqrt, p, a, b);
            Point(r.x, r.y) == Lerp(a, b, ProjectionParameter(sqrt, p, a, b))
  {
  }

  lemma ProjectionDegenerate(sqrt: real -> real, p: Point, a: Point)
    requires IsSqrt(sqrt)
    ensures ProjectPointOntoLineSegment(sqrt, p, a, a) == Projection(a.x, a.y, true)
  {
    DistanceFacts(sqrt, a, a);
  }

  // ---------------------------------------------------------- point along line

  function GetPointAlongLine(sqrt: real -> real, p1: Point, p2: Point, dist: real): Point
  {
    var len := Distance(sqrt, p1, p2);
    if len == 0.0 then p1
    else
      var ratio := dist / len;
      Point(p1.x + ratio * (p2.x - p1.x), p1.y + ratio * (p2.y - p1.y))
  }

  lemma DivSelf(v: real)
    requires v != 0.0
    ensures v / v == 1.0
  {
  }

  /**
   * A zero-length segment yields `p1`; otherwise distance 0 yields `p1` and
   * the segment's own length yields `p2`.
   */
  lemma PointAlongLineEnds(sqrt: real -> real, p1: Point, p2: Point, dist: real)
    requires IsSqrt(sqrt)
    ensures p1 == p2 ==> GetPointAlongLine(sqrt, p1, p2, dist) == p1
    ensures GetPointAlongLine(sqrt, p1, p2, 0.0) == p1
    ensures GetPointAlongLine(sqrt, p1, p2, Distance(sqrt, p1, p2)) == p2
  {
    DistanceFacts(sqrt, p1, p2);
    var len := Distance(sqrt, p1, p2);
    if len != 0.0 {
      DivSelf(len);
    }
  }

  // ----------------------------------------------------------- point in polygon

  /** Index of the vertex before `i` in a closed polygon of `n` vertices. */
  function Prev(i: nat, n: nat): nat
    requires i < n
  {
    if i == 0 then n - 1 else i - 1
  }

  /** The ray from `(px, py)` towards +x crosses the edge from `pi` to `pj`. */
  predicate EdgeCrosses(px: real, py: real, pi: Point, pj: Point)
  {
    ((pi.y > py) != (pj.y > py))
    && px < (pj.x - pi.x) * (py - pi.y) / (pj.y - pi.y) + pi.x
  }

  /** Crossing parity after the edges ending at vertices `0 .. i-1`. */
  function CrossingParity(px: real, py: real, pts: seq<Point>, i: nat): bool
    requires i <= |pts|
  {
    if i == 0 then false
    else CrossingParity(px, py, pts, i - 1) != EdgeCrosses(px, py, pts[i - 1], pts[Prev(i - 1, |pts|)])
  }

  /** Even-odd rule: inside when the ray crosses an odd number of edges. */
  predicate InPolygon(px: real, py: real, pts: seq<Point>)
  {
    CrossingParity(px, py, pts, |pts|)
  }

  method IsPointInPolygon(px: real, py: real, pts: seq<Point>) returns (isInside: bool)
    ensures isInside == InPolygon(px, py, pts)
  {
    isInside := false;
    var n := |pts|;
    var i := 0;
    var j := n - 1;
    while i < n
      invariant 0 <= i <= n
      invariant i == 0 ==> j == n - 1
      invariant 0 < i ==> j == i - 1
      invariant isInside == CrossingParity(px, py, pts, i)
    {
      var intersect := EdgeCrosses(px, py, pts[i], pts[j]);
      if intersect {
        isInside := !isInside;
      }
      j := i;
      i := i + 1;
    }
  }

  /** No edge is crossed by a ray that runs at or above every vertex, or below every vertex. */
  lemma {:induction false} ParityOutsideBand(px: real, py: real, pts: seq<Point>, i: nat)
    requires i <= |pts|
    requires (forall k :: 0 <= k < |pts| ==> pts[k].y <= py)
          || (forall k :: 0 <= k < |pts| ==> pts[k].y > py)
    ensures !CrossingParity(px, py, pts, i)
  {
    if i > 0 {
      ParityOutsideBand(px, py, pts, i - 1);
    }
  }

  /** A point whose y is at or above the polygon's highest y, or below its lowest, is outside. */
  lemma OutsideVerticalExtent(px: real, py: real, pts: seq<Point>)
    requires (forall k :: 0 <= k < |pts| ==> pts[k].y <= py)
          || (forall k :: 0 <= k < |pts| ==> pts[k].y > py)
    ensures !InPolygon(px, py, pts)
  {
    ParityOutsideBand(px, py, pts, |pts|);
  }

  /** Corners of an axis-aligned rectangle in the order top-left, top-right, bottom-right, bottom-left. */
  function RectCorners(x: real, y: real, w: real, h: real): (pts: seq<Point>)
    ensures |pts| == 4
    ensures pts[0].x == pts[3].x == x && pts[1].x == pts[2].x == x + w
    ensures pts[0].y == pts[1].y == y && pts[2].y == pts[3].y == y + h
  {
    [Point(x, y), Point(x + w, y), Point(x + w, y + h), Point(x, y + h)]
  }

  /** A vertical edge is crossed exactly when it spans `py` and lies right of `px`. */
  lemma VerticalEdgeCrosses(px: real, py: real, x: real, y1: real, y2: real)
    ensures EdgeCrosses(px, py, Point(x, y1), Point(x, y2))
        <==> ((y1 > py) != (y2 > py)) && px < x
  {
    var d := y2 - y1;
    assert (x - x) * (py - y1) == 0.0;
    if d != 0.0 {
      assert 0.0 / d == 0.0;
    }
  }

  /**
   * For a rectangle polygon the even-odd test accepts exactly the half-open box
   * [x, x + w) x [y, y + h).
   */
  lemma RectPolygonContains(px: real, py: real, x: real, y: real, w: real, h: real)
    requires 0.0 <= w && 0.0 <= h
    ensures InPolygon(px, py, RectCorners(x, y, w, h))
        <==> x <= px < x + w && y <= py < y + h
  {
    var pts := RectCorners(x, y, w, h);
    assert Prev(0, 4) == 3;
    var e0 := EdgeCrosses(px, py, pts[0], pts[3]);
    var e1 := EdgeCrosses(px, py, pts[1], pts[0]);
    var e2 := EdgeCrosses(px, py, pts[2], pts[1]);
    var e3 := EdgeCrosses(px, py, pts[3], pts[2]);
    assert !e1 && !e3;
    VerticalEdgeCrosses(px, py, x, y, y + h);
    VerticalEdgeCrosses(px, py, x + w, y + h, y);
    assert CrossingParity(px, py, pts, 1) == e0;
    assert CrossingParity(px, py, pts, 2) == (e0 != e1);
    assert CrossingParity(px, py, pts, 3) == ((e0 != e1) != e2);
    assert CrossingParity(px, py, pts, 4) == (((e0 != e1) != e2) != e3);
  }
}
