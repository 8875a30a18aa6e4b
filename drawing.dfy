// The interval arithmetic of the canvas renderer (static/js/drawing.js): the
// solid pieces a wall is drawn in between its doors and windows, the clamping
// of an opening to its wall, the door-swing of the placement preview and the
// order in which element layers are painted. Every `ctx` call is left out;
// the pieces are distances along the wall from its start point.

module Drawing {
  import opened Wrappers
  import opened Geometry
  import opened State
  import opened Actions

  // ----------------------------------------------------------- the openings

  /** A door or window's end along its wall. */
  function EndOf(c: Element): real
    requires c.WallChild?
  {
    c.distanceAlongWall + c.length
  }

  /** The intervals along their wall of doors and windows `cs`. */
  function Intervals(cs: seq<Element>): (r: seq<Span>)
    requires forall c :: c in cs ==> c.WallChild?
    ensures |r| == |cs|
    ensures forall i :: 0 <= i < |r| ==> r[i] == Span(cs[i].distanceAlongWall, EndOf(cs[i]))
  {
    seq(|cs|, i requires 0 <= i < |cs| => Span(cs[i].distanceAlongWall, EndOf(cs[i])))
  }

  /** The doors and windows of the wall with id `wallId`, in list order, as intervals along it. */
  function OpeningIntervals(es: seq<Element>, wallId: int): seq<Span>
  {
    var cs := Filter(es, ChildOf(wallId));
    assert forall c :: c in cs ==> c.WallChild?;
    Intervals(cs)
  }

  predicate SortedByStart(s: seq<Span>)
  {
    forall i, j :: 0 <= i < j < |s| ==> s[i].start <= s[j].start
  }

  /**
   * Inserting an interval into a list sorted by start, ahead of the first
   * one that does not start before it, so equal starts keep their order.
   */
  function InsertByStart(x: Span, s: seq<Span>): (r: seq<Span>)
    requires SortedByStart(s)
    ensures SortedByStart(r)
    ensures multiset(r) == multiset(s) + multiset{x}
  {
    if |s| == 0 || x.start <= s[0].start then [x] + s
    else
      assert s == [s[0]] + s[1..];
      var rest := InsertByStart(x, s[1..]);
      LowerBoundKept(rest, s[1..], x, s[0].start);
      ConsSorted(s[0], rest);
      [s[0]] + rest
  }

  /** A bound on the starts of `s` and of `x` bounds every start of a rearrangement of both. */
  lemma LowerBoundKept(r: seq<Span>, s: seq<Span>, x: Span, lo: real)
    requires multiset(r) == multiset(s) + multiset{x}
    requires forall j :: 0 <= j < |s| ==> lo <= s[j].start
    requires lo <= x.start
    ensures forall k :: 0 <= k < |r| ==> lo <= r[k].start
  {
    forall k | 0 <= k < |r|
      ensures lo <= r[k].start
    {
      assert r[k] in multiset(r);
      if r[k] != x {
        assert r[k] in multiset(s);
        var j :| 0 <= j < |s| && s[j] == r[k];
      }
    }
  }

  lemma ConsSorted(a: Span, r: seq<Span>)
    requires SortedByStart(r)
    requires forall k :: 0 <= k < |r| ==> a.start <= r[k].start
    ensures SortedByStart([a] + r)
  {
    var s := [a] + r;
    forall i, j | 0 <= i < j < |s|
      ensures s[i].start <= s[j].start
    {
      assert s[j] == r[j - 1];
      if i > 0 {
        assert s[i] == r[i - 1];
      }
    }
  }

  /** `sort((a, b) => a.distanceAlongWall - b.distanceAlongWall)`, a stable sort. */
  function SortByStart(s: seq<Span>): (r: seq<Span>)
    ensures SortedByStart(r)
    ensures multiset(r) == multiset(s)
  {
    if |s| == 0 then []
    else
      assert s == [s[0]] + s[1..];
      InsertByStart(s[0], SortByStart(s[1..]))
  }

  /** The openings `drawWallWithGaps` walks: those of `wall`, sorted by distance along it. */
  function WallChildren(es: seq<Element>, wall: Element): seq<Span>
    requires wall.Wall?
  {
    SortByStart(OpeningIntervals(es, wall.id))
  }

  /**
   * The openings drawn into a wall are exactly the intervals of the doors
   * and windows whose `wallId` is the wall's id, each once, in increasing
   * order of distance along the wall.
   */
  lemma WallChildrenAreTheWallsOpenings(es: seq<Element>, wall: Element, x: Span)
    requires wall.Wall?
    ensures SortedByStart(WallChildren(es, wall))
    ensures multiset(WallChildren(es, wall)) == multiset(OpeningIntervals(es, wall.id))
    ensures x in WallChildren(es, wall) <==>
              exists c :: c in es && c.WallChild? && c.wallId == wall.id && x == Span(c.distanceAlongWall, EndOf(c))
  {
    var cs := Filter(es, ChildOf(wall.id));
    var iv := OpeningIntervals(es, wall.id);
    assert x in WallChildren(es, wall) <==> x in multiset(iv);
    if x in iv {
      var i :| 0 <= i < |iv| && iv[i] == x;
      assert cs[i] in cs;
    }
    if exists c :: c in es && c.WallChild? && c.wallId == wall.id && x == Span(c.distanceAlongWall, EndOf(c)) {
      var c :| c in es && c.WallChild? && c.wallId == wall.id && x == Span(c.distanceAlongWall, EndOf(c));
      assert c in cs;
      var i :| 0 <= i < |cs| && cs[i] == c;
      assert iv[i] == x;
    }
  }

  // ------------------------------------------------------------ solid pieces

  /**
   * The pieces of wall left solid when the openings `cs` are walked in order
   * from `cur`: the stretch before each opening, when it is not empty, then
   * the rest of the wall after the last opening.
   */
  function Gaps(cs: seq<Span>, cur: real, wallLen: real): (r: seq<Span>)
    ensures forall k :: 0 <= k < |r| ==> r[k].start < r[k].end
    decreases |cs|
  {
    if |cs| == 0 then (if cur < wallLen then [Span(cur, wallLen)] else [])
    else GapBefore(cs[0], cur) + Gaps(cs[1..], cs[0].end, wallLen)
  }

  /** The solid stretch from `cur` up to opening `c`, if there is one. */
  function GapBefore(c: Span, cur: real): seq<Span>
  {
    if c.start > cur then [Span(cur, c.start)] else []
  }

  /** The solid pieces of `wall`, from its start point. */
  function WallSegments(sqrt: real -> real, es: seq<Element>, wall: Element): seq<Span>
    requires wall.Wall?
  {
    Gaps(WallChildren(es, wall), 0.0, WallLength(sqrt, wall))
  }

  /**
   * `drawWallWithGaps` without the drawing: walks the sorted openings,
   * emitting the stretch before each one and moving past it, then the tail.
   * Every piece it emits is of positive length.
   */
  method SolidSegments(sqrt: real -> real, es: seq<Element>, wall: Element) returns (segs: seq<Span>)
    requires wall.Wall?
    ensures segs == WallSegments(sqrt, es, wall)
    ensures forall k :: 0 <= k < |segs| ==> segs[k].start < segs[k].end
  {
    var children := WallChildren(es, wall);
    var wallLen := Distance(sqrt, WallStart(wall), WallEnd(wall));
    segs := SolidPieces(children, wallLen);
  }

  /** The loop of `drawWallWithGaps`, over the sorted opening intervals. */
  method SolidPieces(children: seq<Span>, wallLen: real) returns (segs: seq<Span>)
    ensures segs == Gaps(children, 0.0, wallLen)
  {
    segs := [];
    var currentDist := 0.0;
    var i := 0;
    while i < |children|
      invariant 0 <= i <= |children|
      invariant segs + Gaps(children[i..], currentDist, wallLen) == Gaps(children, 0.0, wallLen)
    {
      var child := children[i];
      GapsStep(children, i, currentDist, wallLen);
      if child.start > currentDist {
        segs := segs + [Span(currentDist, child.start)];
      }
      currentDist := child.end;
      i := i + 1;
    }
    if currentDist < wallLen {
      segs := segs + [Span(currentDist, wallLen)];
    }
  }

  lemma GapsStep(cs: seq<Span>, i: nat, cur: real, wallLen: real)
    requires i < |cs|
    ensures Gaps(cs[i..], cur, wallLen) == GapBefore(cs[i], cur) + Gaps(cs[i + 1..], cs[i].end, wallLen)
  {
    assert cs[i..][1..] == cs[i + 1..];
  }

  /**
   * Openings in order along a wall of length `wallLen`, none overlapping the
   * next, none of negative length, all lying between `cur` and the end.
   */
  predicate Laid(cs: seq<Span>, cur: real, wallLen: real)
  {
    (forall i :: 0 <= i < |cs| ==> cur <= cs[i].start <= cs[i].end <= wallLen)
    && (forall i, j :: 0 <= i < j < |cs| ==> cs[i].end <= cs[j].start)
  }

  predicate InSomeSegment(segs: seq<Span>, d: real)
  {
    exists k :: 0 <= k < |segs| && segs[k].start < d < segs[k].end
  }

  predicate InSomeOpening(cs: seq<Span>, d: real)
  {
    exists i :: 0 <= i < |cs| && cs[i].start <= d <= cs[i].end
  }

  lemma LaidTail(cs: seq<Span>, cur: real, wallLen: real)
    requires |cs| > 0 && Laid(cs, cur, wallLen)
    ensures Laid(cs[1..], cs[0].end, wallLen)
  {
    forall i | 0 <= i < |cs[1..]| ensures cs[0].end <= cs[1..][i].start {
      assert cs[1..][i] == cs[i + 1];
    }
  }

  /** Pieces lying between `lo` and `hi`. */
  predicate Between(r: seq<Span>, lo: real, hi: real)
  {
    forall k :: 0 <= k < |r| ==> lo <= r[k].start && r[k].end <= hi
  }

  /** Pieces following one another along the wall. */
  predicate Increasing(r: seq<Span>)
  {
    forall k, m :: 0 <= k < m < |r| ==> r[k].end <= r[m].start
  }

  /** Laid-out openings leave solid pieces between `cur` and the wall's end, in increasing order. */
  lemma {:induction false} GapsWithin(cs: seq<Span>, cur: real, wallLen: real)
    requires Laid(cs, cur, wallLen)
    ensures Between(Gaps(cs, cur, wallLen), cur, wallLen) && Increasing(Gaps(cs, cur, wallLen))
    decreases |cs|
  {
    if |cs| > 0 {
      var r := Gaps(cs, cur, wallLen);
      var head := GapBefore(cs[0], cur);
      var tail := Gaps(cs[1..], cs[0].end, wallLen);
      LaidTail(cs, cur, wallLen);
      GapsWithin(cs[1..], cs[0].end, wallLen);
      assert r == head + tail;
      forall k | 0 <= k < |r| ensures cur <= r[k].start && r[k].end <= wallLen {
        if k >= |head| {
          assert r[k] == tail[k - |head|];
        } else {
          assert r[k] == head[k] == Span(cur, cs[0].start);
        }
      }
      forall k, m | 0 <= k < m < |r| ensures r[k].end <= r[m].start {
        assert r[m] == tail[m - |head|];
        if k >= |head| {
          assert r[k] == tail[k - |head|];
        } else {
          assert r[k] == head[k] == Span(cur, cs[0].start);
        }
      }
    }
  }

  /**
   * For openings laid out along the wall, a point strictly between `cur` and
   * the wall's end lies inside a solid piece exactly when no opening covers
   * it: the pieces are the wall minus the openings.
   */
  lemma {:induction false} GapsComplement(cs: seq<Span>, cur: real, wallLen: real, d: real)
    requires Laid(cs, cur, wallLen) && cur < d < wallLen
    ensures InSomeSegment(Gaps(cs, cur, wallLen), d) <==> !InSomeOpening(cs, d)
    decreases |cs|
  {
    var r := Gaps(cs, cur, wallLen);
    if |cs| == 0 {
      assert r[0] == Span(cur, wallLen);
    } else {
      var head := GapBefore(cs[0], cur);
      var tail := Gaps(cs[1..], cs[0].end, wallLen);
      assert r == head + tail;
      LaidTail(cs, cur, wallLen);
      GapsWithin(cs[1..], cs[0].end, wallLen);
      if d < cs[0].start {
        GapsComplementBefore(cs, cur, wallLen, d);
      } else if d <= cs[0].end {
        assert cs[0].start <= d <= cs[0].end;
        forall k | 0 <= k < |r| ensures !(r[k].start < d < r[k].end) {
          if k >= |head| {
            assert r[k] == tail[k - |head|];
          } else {
            assert r[k] == head[k] == Span(cur, cs[0].start);
          }
        }
      } else {
        GapsComplement(cs[1..], cs[0].end, wallLen, d);
        GapsComplementAfter(cs, cur, wallLen, d);
      }
    }
  }

  lemma GapsComplementBefore(cs: seq<Span>, cur: real, wallLen: real, d: real)
    requires |cs| > 0 && Laid(cs, cur, wallLen) && cur < d < cs[0].start
    ensures InSomeSegment(Gaps(cs, cur, wallLen), d) && !InSomeOpening(cs, d)
  {
    var r := Gaps(cs, cur, wallLen);
    assert r[0] == Span(cur, cs[0].start);
  }

  lemma GapsComplementAfter(cs: seq<Span>, cur: real, wallLen: real, d: real)
    requires |cs| > 0 && Laid(cs, cur, wallLen) && cs[0].end < d
    ensures InSomeSegment(Gaps(cs, cur, wallLen), d) <==> InSomeSegment(Gaps(cs[1..], cs[0].end, wallLen), d)
    ensures InSomeOpening(cs, d) <==> InSomeOpening(cs[1..], d)
  {
    var r := Gaps(cs, cur, wallLen);
    var head := GapBefore(cs[0], cur);
    var tail := Gaps(cs[1..], cs[0].end, wallLen);
    assert r == head + tail;
    if InSomeSegment(tail, d) {
      var k :| 0 <= k < |tail| && tail[k].start < d < tail[k].end;
      assert r[|head| + k] == tail[k];
    }
    if InSomeSegment(r, d) {
      var k :| 0 <= k < |r| && r[k].start < d < r[k].end;
      assert k >= |head|;
      assert r[k] == tail[k - |head|];
    }
    if InSomeOpening(cs[1..], d) {
      var i :| 0 <= i < |cs[1..]| && cs[1..][i].start <= d <= cs[1..][i].end;
      assert cs[i + 1] == cs[1..][i];
    }
    if InSomeOpening(cs, d) {
      var i :| 0 <= i < |cs| && cs[i].start <= d <= cs[i].end;
      assert i > 0;
      assert cs[1..][i - 1] == cs[i];
    }
  }

  /**
   * The promise of `drawWallWithGaps` for sorted, non-overlapping openings
   * inside the wall: its pieces lie on the wall in increasing order, and a
   * point strictly inside the wall is drawn solid exactly when no opening
   * covers it.
   */
  lemma WallSegmentsAreTheWallMinusOpenings(sqrt: real -> real, es: seq<Element>, wall: Element, d: real)
    requires wall.Wall? && Laid(WallChildren(es, wall), 0.0, WallLength(sqrt, wall))
    requires 0.0 < d < WallLength(sqrt, wall)
    ensures Between(WallSegments(sqrt, es, wall), 0.0, WallLength(sqrt, wall))
    ensures Increasing(WallSegments(sqrt, es, wall))
    ensures InSomeSegment(WallSegments(sqrt, es, wall), d) <==> !InSomeOpening(WallChildren(es, wall), d)
  {
    GapsWithin(WallChildren(es, wall), 0.0, WallLength(sqrt, wall));
    GapsComplement(WallChildren(es, wall), 0.0, WallLength(sqrt, wall), d);
  }

  // ------------------------------------------------------- clamping openings

  /**
   * `drawWallChildElement`'s extent: the opening clamped to [0, wallLen];
   * nothing for a zero-length wall or when nothing of it is left.
   */
  function ChildExtent(wallLen: real, c: Element): (r: Option<Span>)
    requires c.WallChild?
    ensures r.Some? ==> 0.0 <= r.value.start < r.value.end <= wallLen
    ensures r.Some? ==> r.value.start == Max(0.0, Min(wallLen, c.distanceAlongWall))
  {
    if wallLen == 0.0 then None
    else
      var startDist := Max(0.0, Min(wallLen, c.distanceAlongWall));
      var endDist := Max(0.0, Min(wallLen, c.distanceAlongWall + c.length));
      if endDist - startDist <= 0.0 then None else Some(Span(startDist, endDist))
  }

  /**
   * An opening of positive length lying on a wall is drawn where it is; an
   * opening lying wholly past either end of the wall is not drawn at all.
   */
  lemma ChildExtentOnWall(wallLen: real, c: Element)
    requires c.WallChild?
    ensures 0.0 <= c.distanceAlongWall && 0.0 < c.length && EndOf(c) <= wallLen ==>
              ChildExtent(wallLen, c) == Some(Span(c.distanceAlongWall, EndOf(c)))
    ensures c.distanceAlongWall >= wallLen || EndOf(c) <= 0.0 ==> ChildExtent(wallLen, c).None?
  {
  }

  /** The door or window being placed, as `drawTemporaryWallElement` previews it. */
  datatype Preview = Preview(from: real, length: real, swingDirection: int)

  function PreviewExtent(wallLen: real, startDist: real, endDist: real): (r: Option<Preview>)
    ensures r.Some? ==> 0.0 <= r.value.from && r.value.from + r.value.length <= wallLen && 0.0 < r.value.length
    ensures r.Some? ==> (r.value.swingDirection == 1 || r.value.swingDirection == -1)
  {
    if wallLen == 0.0 then None
    else
      var s := Max(0.0, Min(wallLen, startDist));
      var e := Max(0.0, Min(wallLen, endDist));
      var actualLength := Abs(e - s);
      if actualLength <= 0.0 then None
      else Some(Preview(Min(s, e), actualLength, if e >= s then 1 else -1))
  }

  /**
   * While drawing on a wall both distances lie on the wall, so the preview
   * shows the interval the release commits and swings the way the committed
   * door will: forwards exactly when the end is not before the start.
   */
  lemma PreviewMatchesCommit(wallLen: real, startDist: real, endDist: real, id: int, kind: ChildKind, wall: Element)
    requires 0.0 <= startDist <= wallLen && 0.0 <= endDist <= wallLen && startDist != endDist
    ensures var p := PreviewExtent(wallLen, startDist, endDist);
            var c := NewWallChild(id, kind, wall, Min(startDist, endDist),
                                  Max(startDist, endDist) - Min(startDist, endDist), endDist >= startDist);
            p.Some? && p.value.from == c.distanceAlongWall && p.value.length == c.length
            && p.value.swingDirection == c.swingDirection
  {
  }

  // -------------------------------------------------------------- the layers

  function IsWall(): Element -> bool { (e: Element) => e.Wall? }
  function IsOpening(): Element -> bool { (e: Element) => e.WallChild? }
  function IsOther(): Element -> bool { (e: Element) => !e.Wall? && !e.WallChild? }

  /** `redrawCanvas`'s paint order: walls, then doors and windows, then the rest, each in list order. */
  function PaintOrder(es: seq<Element>): seq<Element>
  {
    Filter(es, IsWall()) + Filter(es, IsOpening()) + Filter(es, IsOther())
  }

  /**
   * Every element is painted exactly once, and nothing is painted over a
   * later layer: walls come before openings, openings before the rest.
   */
  lemma {:induction false} PaintOrderLayers(es: seq<Element>)
    ensures multiset(PaintOrder(es)) == multiset(es)
    ensures var p := PaintOrder(es);
            forall i, j :: 0 <= i < j < |p| ==> (p[j].Wall? ==> p[i].Wall?) && (p[j].WallChild? ==> !p[i].Wall? ==> p[i].WallChild?)
  {
    var p := PaintOrder(es);
    var ws, os, rs := Filter(es, IsWall()), Filter(es, IsOpening()), Filter(es, IsOther());
    PaintOrderCounts(es);
    forall i, j | 0 <= i < j < |p|
      ensures (p[j].Wall? ==> p[i].Wall?) && (p[j].WallChild? ==> !p[i].Wall? ==> p[i].WallChild?)
    {
      if j < |ws| {
        assert p[i] == ws[i] && p[i] in ws;
      } else if j < |ws| + |os| {
        assert p[j] == os[j - |ws|] && p[j] in os;
        if i >= |ws| {
          assert p[i] == os[i - |ws|] && p[i] in os;
        } else {
          assert p[i] == ws[i] && p[i] in ws;
        }
      } else {
        assert p[j] == rs[j - |ws| - |os|] && p[j] in rs;
      }
    }
  }

  lemma {:induction false} PaintOrderCounts(es: seq<Element>)
    ensures multiset(PaintOrder(es)) == multiset(es)
  {
    if es != [] {
      PaintOrderCounts(es[1..]);
      assert es == [es[0]] + es[1..];
    }
  }
}
