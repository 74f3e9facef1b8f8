/** Validation of wall candidates by the hatching markers they contain (draw_walls.py:78-96). */
module Markers {
  import opened Config
  import opened Geometry

  /** A marker counts for an area only when both of its endpoints are inside it. */
  predicate MarkerInside(m: Line, w: Area) {
    IsInside(m.p1, w) && IsInside(m.p2, w)
  }

  /** The number of markers of `ms` inside `w`, counted front to back as the source's loop does. */
  function CountInside(w: Area, ms: seq<Line>): nat {
    if ms == [] then 0
    else CountInside(w, ms[..|ms| - 1]) + (if MarkerInside(ms[|ms| - 1], w) then 1 else 0)
  }

  /** The positions in `ms` of the markers inside `w`. */
  function InsideIndices(w: Area, ms: seq<Line>): set<int> {
    set i | 0 <= i < |ms| && MarkerInside(ms[i], w)
  }

  /** The count is the number of positions holding a marker with both endpoints inside. */
  lemma {:induction false} CountIsInsideIndices(w: Area, ms: seq<Line>)
    ensures CountInside(w, ms) == |InsideIndices(w, ms)|
  {
    if ms != [] {
      var n := |ms| - 1;
      var front := ms[..n];
      CountIsInsideIndices(w, front);
      var before := InsideIndices(w, front);
      assert before == set i | 0 <= i < n && MarkerInside(ms[i], w);
      if MarkerInside(ms[n], w) {
        assert InsideIndices(w, ms) == before + {n};
        assert n !in before;
      } else {
        assert InsideIndices(w, ms) == before;
      }
    }
  }

  /** `enough_markers_inside`'s verdict: strictly more than NeededMarkersCount markers inside. */
  predicate EnoughMarkers(w: Area, horizontalMarkers: seq<Line>, verticalMarkers: seq<Line>) {
    CountInside(w, horizontalMarkers) + CountInside(w, verticalMarkers) > NeededMarkersCount
  }

  method EnoughMarkersInside(w: Area, horizontalMarkers: seq<Line>, verticalMarkers: seq<Line>) returns (enough: bool)
    ensures enough <==> |InsideIndices(w, horizontalMarkers)| + |InsideIndices(w, verticalMarkers)| > NeededMarkersCount
    ensures enough == EnoughMarkers(w, horizontalMarkers, verticalMarkers)
  {
    var markersInside := 0;
    for i := 0 to |horizontalMarkers|
      invariant markersInside == CountInside(w, horizontalMarkers[..i])
    {
      assert horizontalMarkers[..i + 1][..i] == horizontalMarkers[..i];
      var marker := horizontalMarkers[i];
      if IsInside(marker.p1, w) && IsInside(marker.p2, w) {
        markersInside := markersInside + 1;
      }
    }
    assert horizontalMarkers[..|horizontalMarkers|] == horizontalMarkers;
    ghost var fromHorizontal := markersInside;
    for i := 0 to |verticalMarkers|
      invariant markersInside == fromHorizontal + CountInside(w, verticalMarkers[..i])
    {
      assert verticalMarkers[..i + 1][..i] == verticalMarkers[..i];
      var marker := verticalMarkers[i];
      if IsInside(marker.p1, w) && IsInside(marker.p2, w) {
        markersInside := markersInside + 1;
      }
    }
    assert verticalMarkers[..|verticalMarkers|] == verticalMarkers;
    CountIsInsideIndices(w, horizontalMarkers);
    CountIsInsideIndices(w, verticalMarkers);
    enough := markersInside > NeededMarkersCount;
  }

  /**
   * The threshold is strict, and a marker with one endpoint outside never counts: ten markers
   * inside reject an area, eleven accept it, and adding a marker that is not wholly inside
   * changes nothing.
   */
  lemma MarkerThreshold(w: Area, horizontalMarkers: seq<Line>, verticalMarkers: seq<Line>, m: Line)
    ensures CountInside(w, horizontalMarkers) + CountInside(w, verticalMarkers) == 10 ==>
      !EnoughMarkers(w, horizontalMarkers, verticalMarkers)
    ensures CountInside(w, horizontalMarkers) + CountInside(w, verticalMarkers) == 11 ==>
      EnoughMarkers(w, horizontalMarkers, verticalMarkers)
    ensures !MarkerInside(m, w) ==>
      (EnoughMarkers(w, horizontalMarkers + [m], verticalMarkers) <==> EnoughMarkers(w, horizontalMarkers, verticalMarkers))
  {
    assert (horizontalMarkers + [m])[..|horizontalMarkers|] == horizontalMarkers;
  }

  /** `list(filter(lambda x: enough_markers_inside(x, ...), walls))`, built front to back. */
  function FilterEnough(walls: seq<Area>, horizontalMarkers: seq<Line>, verticalMarkers: seq<Line>): (kept: seq<Area>)
    ensures |kept| <= |walls|
    ensures forall w :: w in kept <==> w in walls && EnoughMarkers(w, horizontalMarkers, verticalMarkers)
    ensures forall w :: multiset(kept)[w] == if EnoughMarkers(w, horizontalMarkers, verticalMarkers) then multiset(walls)[w] else 0
  {
    if walls == [] then []
    else
      var n := |walls| - 1;
      assert walls == walls[..n] + [walls[n]];
      FilterEnough(walls[..n], horizontalMarkers, verticalMarkers)
      + (if EnoughMarkers(walls[n], horizontalMarkers, verticalMarkers) then [walls[n]] else [])
  }

  lemma ConcatAssociates<T>(x: seq<T>, y: seq<T>, z: seq<T>)
    ensures (x + y) + z == x + (y + z)
  {
  }

  /** One step of the filter: the last wall is kept or dropped on its own markers. */
  lemma FilterEnoughSnoc(walls: seq<Area>, w: Area, horizontalMarkers: seq<Line>, verticalMarkers: seq<Line>)
    ensures FilterEnough(walls + [w], horizontalMarkers, verticalMarkers)
         == FilterEnough(walls, horizontalMarkers, verticalMarkers)
            + (if EnoughMarkers(w, horizontalMarkers, verticalMarkers) then [w] else [])
  {
    assert (walls + [w])[..|walls|] == walls;
  }

  /** The filter keeps order: filtering a concatenation filters each part in place. */
  lemma {:induction false} FilterEnoughAppend(a: seq<Area>, b: seq<Area>, horizontalMarkers: seq<Line>, verticalMarkers: seq<Line>)
    ensures FilterEnough(a + b, horizontalMarkers, verticalMarkers)
         == FilterEnough(a, horizontalMarkers, verticalMarkers) + FilterEnough(b, horizontalMarkers, verticalMarkers)
  {
    if b == [] {
      assert a + b == a;
      assert FilterEnough(a, horizontalMarkers, verticalMarkers) + [] == FilterEnough(a, horizontalMarkers, verticalMarkers);
    } else {
      var n := |b| - 1;
      var init, w := b[..n], b[n];
      assert b == init + [w];
      assert a + b == (a + init) + [w];
      FilterEnoughSnoc(a + init, w, horizontalMarkers, verticalMarkers);
      FilterEnoughSnoc(init, w, horizontalMarkers, verticalMarkers);
      FilterEnoughAppend(a, init, horizontalMarkers, verticalMarkers);
      var fa, fi := FilterEnough(a, horizontalMarkers, verticalMarkers), FilterEnough(init, horizontalMarkers, verticalMarkers);
      var last := if EnoughMarkers(w, horizontalMarkers, verticalMarkers) then [w] else [];
      ConcatAssociates(fa, fi, last);
    }
  }

  /** All four corners of `inner` lie inside `w`. */
  predicate AreaInside(inner: Area, w: Area) {
    IsInside(inner.a, w) && IsInside(inner.b, w) && IsInside(inner.c, w) && IsInside(inner.d, w)
  }

  /** `gray_filled_inside`: whether some gray area lies wholly inside the wall. Never called by the pipeline. */
  method GrayFilledInside(w: Area, grayFilled: seq<Area>) returns (found: bool)
    ensures found <==> exists k :: 0 <= k < |grayFilled| && AreaInside(grayFilled[k], w)
  {
    for i := 0 to |grayFilled|
      invariant forall k :: 0 <= k < i ==> !AreaInside(grayFilled[k], w)
    {
      var area := grayFilled[i];
      if IsInside(area.a, w) && IsInside(area.b, w) && IsInside(area.c, w) && IsInside(area.d, w) {
        return true;
      }
    }
    return false;
  }
}
