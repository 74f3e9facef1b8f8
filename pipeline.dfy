/**
 * The wall-inference pipeline of `draw_walls` (draw_walls.py:56-70): classify the elements,
 * sort each line list by its level, pair the lines into candidates, keep the candidates holding
 * enough markers, and append one highlight per kept wall and per gray region, in that order.
 */
module Pipeline {
  import opened Config
  import opened Optional
  import opened Geometry
  import opened Sorting
  import opened Scene
  import opened WallCandidates
  import opened Markers
  import opened Overlay

  /** The walls of orientation `o` that the pipeline keeps: sorted, paired, then validated. */
  function AcceptedWalls(o: Orientation, s: Scene): seq<Area> {
    var lines := if o == Horizontal then s.horizontalLines else s.verticalLines;
    FilterEnough(Candidates(o, SortByLevel(o, lines)), s.horizontalMarkers, s.verticalMarkers)
  }

  /** One highlight per area, in order. */
  function Render(walls: seq<Area>, transform: Option<string>): (paths: seq<OverlayPath>)
    ensures |paths| == |walls|
  {
    if walls == [] then []
    else Render(walls[..|walls| - 1], transform) + [WallElement(walls[|walls| - 1], transform)]
  }

  /** The three append loops: horizontal walls, vertical walls, then gray regions untransformed. */
  function Highlights(h: seq<Area>, v: seq<Area>, g: seq<Area>, transform: Option<string>): seq<OverlayPath> {
    Render(h, transform) + Render(v, transform) + Render(g, None)
  }

  /** The paths appended for a classified scene. */
  function DrawScene(s: Scene): seq<OverlayPath> {
    Highlights(AcceptedWalls(Horizontal, s), AcceptedWalls(Vertical, s), s.grayFilled, s.transform)
  }

  /** The paths `draw_walls` appends to the document for `elements`. */
  function DrawWallsSpec(elements: seq<Element>): seq<OverlayPath>
    requires AllDecodable(elements)
  {
    DrawScene(ParseSpec(elements))
  }

  // ---------------------------------------------------------------------------------------
  // What the overlay holds.

  lemma {:induction false} RenderPaths(walls: seq<Area>, transform: Option<string>)
    ensures |Render(walls, transform)| == |walls|
    ensures forall k :: 0 <= k < |walls| ==> Render(walls, transform)[k] == WallElement(walls[k], transform)
  {
    if walls != [] {
      var n := |walls| - 1;
      RenderPaths(walls[..n], transform);
    }
  }

  /**
   * Every kept wall is an axis-aligned rectangle of its orientation holding more than
   * NeededMarkersCount markers. A horizontal one spans the common x-range of two horizontal wall
   * lines of the scene and its height lies in [WidthLowerBound, WidthUpperBound]; a vertical one
   * spans the common y-range of two vertical wall lines and its width lies in
   * [SameLevelBound, WidthUpperBound].
   */
  lemma AcceptedWallShape(o: Orientation, s: Scene, w: Area)
    requires WellShaped(s)
    requires w in AcceptedWalls(o, s)
    ensures IsRectangle(w) && w.orientation == o
    ensures EnoughMarkers(w, s.horizontalMarkers, s.verticalMarkers)
    ensures o == Horizontal ==>
      && w.a.x <= w.c.x
      && WidthLowerBound <= w.b.y - w.a.y <= WidthUpperBound
      && exists l1, l2 :: (l1 in s.horizontalLines && l2 in s.horizontalLines &&
           w.a.y == l1.p1.y && w.b.y == l2.p1.y &&
           w.a.x == Max(l1.p1.x, l2.p1.x) && w.c.x == Min(l1.p2.x, l2.p2.x))
    ensures o == Vertical ==>
      && w.a.y <= w.b.y
      && SameLevelBound <= w.c.x - w.a.x <= WidthUpperBound
      && exists l1, l2 :: (l1 in s.verticalLines && l2 in s.verticalLines &&
           w.a.x == l1.p1.x && w.c.x == l2.p1.x &&
           w.a.y == Max(l1.p1.y, l2.p1.y) && w.b.y == Min(l1.p2.y, l2.p2.y))
  {
    var lines := if o == Horizontal then s.horizontalLines else s.verticalLines;
    var sorted := SortByLevel(o, lines);
    SortByLevelSpec(o, lines);
    assert forall l :: l in sorted ==> l in lines by {
      forall l | l in sorted ensures l in lines {
        assert l in multiset(sorted);
      }
    }
    if o == Horizontal {
      HorizontalCandidatesShape(sorted, w);
      var i, k :| 0 <= i < k < |sorted| &&
        w.a.y == sorted[i].p1.y && w.b.y == sorted[k].p1.y &&
        w.a.x == Max(sorted[i].p1.x, sorted[k].p1.x) && w.c.x == Min(sorted[i].p2.x, sorted[k].p2.x);
      assert sorted[i] in sorted && sorted[k] in sorted;
    } else {
      VerticalCandidatesShape(sorted, w);
      var i, k :| 0 <= i < k < |sorted| &&
        w.a.x == sorted[i].p1.x && w.c.x == sorted[k].p1.x &&
        w.a.y == Max(sorted[i].p1.y, sorted[k].p1.y) && w.b.y == Min(sorted[i].p2.y, sorted[k].p2.y) &&
        Abs(sorted[i].p1.x - sorted[k].p1.y) >= WidthLowerBound;
      assert sorted[i] in sorted && sorted[k] in sorted;
    }
  }

  /**
   * A horizontal wall's highlight is a red horizontal segment strictly between its two lines,
   * across its whole x-range; it takes the captured transform and the wide stroke exactly when
   * there is a non-empty one.
   */
  lemma HorizontalHighlights(s: Scene)
    requires WellShaped(s)
    ensures var h := AcceptedWalls(Horizontal, s); var r := Render(h, s.transform);
      && |r| == |h|
      && forall k :: 0 <= k < |h| ==>
           && r[k].stroke == RedColor && r[k].y1 == r[k].y2 && h[k].a.y < r[k].y1 < h[k].b.y
           && r[k].x1 == h[k].a.x <= r[k].x2 == h[k].c.x
           && (r[k].strokeWidth == DrawWidth <==> HasTransform(s.transform))
           && r[k].transform == (if HasTransform(s.transform) then s.transform.value else "")
  {
    var h := AcceptedWalls(Horizontal, s);
    RenderPaths(h, s.transform);
    forall k | 0 <= k < |h|
      ensures IsRectangle(h[k]) && h[k].orientation == Horizontal
      ensures h[k].a.x <= h[k].c.x && WidthLowerBound <= h[k].b.y - h[k].a.y
    {
      AcceptedWallShape(Horizontal, s, h[k]);
    }
    forall k | 0 <= k < |h|
      ensures var r := WallElement(h[k], s.transform);
        && r.stroke == RedColor && r.y1 == r.y2 && h[k].a.y < r.y1 < h[k].b.y
        && r.x1 == h[k].a.x <= r.x2 == h[k].c.x
        && (r.strokeWidth == DrawWidth <==> HasTransform(s.transform))
        && r.transform == (if HasTransform(s.transform) then s.transform.value else "")
    {
      WallElementMidline(h[k], s.transform);
      WallElementStroke(h[k], s.transform);
    }
  }

  /**
   * A vertical wall's highlight is a red vertical segment along its whole y-range, with the
   * same stroke and transform rule as the horizontal ones.
   */
  lemma VerticalHighlights(s: Scene)
    requires WellShaped(s)
    ensures var v := AcceptedWalls(Vertical, s); var r := Render(v, s.transform);
      && |r| == |v|
      && forall k :: 0 <= k < |v| ==>
           && r[k].stroke == RedColor && r[k].x1 == r[k].x2 && r[k].y1 == v[k].a.y <= r[k].y2 == v[k].b.y
           && r[k].x1 == r[k].x1.Floor as real && r[k].x1 <= (v[k].a.x + v[k].c.x) / 2.0 < r[k].x1 + 1.0
           && (r[k].strokeWidth == DrawWidth <==> HasTransform(s.transform))
           && r[k].transform == (if HasTransform(s.transform) then s.transform.value else "")
  {
    var v := AcceptedWalls(Vertical, s);
    RenderPaths(v, s.transform);
    forall k | 0 <= k < |v|
      ensures IsRectangle(v[k]) && v[k].orientation == Vertical && v[k].a.y <= v[k].b.y
    {
      AcceptedWallShape(Vertical, s, v[k]);
    }
    forall k | 0 <= k < |v|
      ensures var r := WallElement(v[k], s.transform);
        && r.stroke == RedColor && r.x1 == r.x2 && r.y1 == v[k].a.y <= r.y2 == v[k].b.y
        && r.x1 == r.x1.Floor as real && r.x1 <= (v[k].a.x + v[k].c.x) / 2.0 < r.x1 + 1.0
        && (r.strokeWidth == DrawWidth <==> HasTransform(s.transform))
        && r.transform == (if HasTransform(s.transform) then s.transform.value else "")
    {
      WallElementMidline(v[k], s.transform);
      WallElementStroke(v[k], s.transform);
    }
  }

  /**
   * A gray region's highlight is a red segment with the thin stroke and no transform, drawn along
   * the region's longer side at the floored middle of the shorter one: a vertical segment from
   * a.y to c.y for a region marked Vertical, a horizontal one from a.x to c.x otherwise.
   */
  lemma GrayHighlights(s: Scene)
    requires WellShaped(s)
    ensures var g := s.grayFilled; var r := Render(g, None);
      && |r| == |g|
      && forall k :: 0 <= k < |g| ==>
           && r[k].stroke == RedColor && r[k].strokeWidth == NoTransformationDrawWidth && r[k].transform == ""
           && (g[k].orientation == Vertical ==>
                 && r[k].x1 == r[k].x2 && r[k].y1 == g[k].a.y <= r[k].y2 == g[k].c.y
                 && r[k].x1 <= (g[k].a.x + g[k].c.x) / 2.0 < r[k].x1 + 1.0
                 && r[k].y2 - r[k].y1 >= g[k].c.x - g[k].a.x)
           && (g[k].orientation == Horizontal ==>
                 && r[k].y1 == r[k].y2 && r[k].x1 == g[k].a.x <= r[k].x2 == g[k].c.x
                 && r[k].y1 <= (g[k].a.y + g[k].c.y) / 2.0 < r[k].y1 + 1.0
                 && r[k].x2 - r[k].x1 > g[k].c.y - g[k].a.y)
  {
    var g := s.grayFilled;
    RenderPaths(g, None);
    forall k | 0 <= k < |g|
      ensures var r := WallElement(g[k], None);
        && r.stroke == RedColor && r.strokeWidth == NoTransformationDrawWidth && r.transform == ""
        && (g[k].orientation == Vertical ==>
              && r.x1 == r.x2 && r.y1 == g[k].a.y <= r.y2 == g[k].c.y
              && r.x1 <= (g[k].a.x + g[k].c.x) / 2.0 < r.x1 + 1.0
              && r.y2 - r.y1 >= g[k].c.x - g[k].a.x)
        && (g[k].orientation == Horizontal ==>
              && r.y1 == r.y2 && r.x1 == g[k].a.x <= r.x2 == g[k].c.x
              && r.y1 <= (g[k].a.y + g[k].c.y) / 2.0 < r.y1 + 1.0
              && r.x2 - r.x1 > g[k].c.y - g[k].a.y)
    {
      assert g[k] in g;
      WallElementMidline(g[k], None);
      WallElementStroke(g[k], None);
    }
  }

  /**
   * A vertical wall candidate whose lines are less than two units apart can lie so close above a
   * whole number that its highlight, placed at the floored middle, misses the wall.
   */
  lemma ThinVerticalWallHighlightOutside()
    ensures var left := Line(Point(0.1, 100.0), Point(0.1, 200.0));
      var right := Line(Point(1.6, 100.0), Point(1.6, 200.0));
      var w := Area(Point(0.1, 100.0), Point(0.1, 200.0), Point(1.6, 200.0), Point(1.6, 100.0), Vertical);
      && Candidates(Vertical, [left, right]) == [w]
      && WallElement(w, None).x1 == WallElement(w, None).x2 == 0.0
      && WallElement(w, None).x1 < w.a.x
  {
    var left := Line(Point(0.1, 100.0), Point(0.1, 200.0));
    var right := Line(Point(1.6, 100.0), Point(1.6, 200.0));
    var w := Area(Point(0.1, 100.0), Point(0.1, 200.0), Point(1.6, 200.0), Point(1.6, 100.0), Vertical);
    assert Accepted(Vertical, left, right);
    assert Scan(Vertical, left, [left, right], 2) == [];
    assert Scan(Vertical, left, [left, right], 1) == [w];
    assert CandidatesFrom(Vertical, [left, right], 1) == [];
    assert Candidates(Vertical, [left, right]) == [w];
    assert HalfFloor(0.1 + 1.6) == 0.0;
  }

  /**
   * The horizontal walls' highlights come first, then the vertical walls', then the gray
   * regions', each group in its list's order.
   */
  lemma HighlightsOrder(h: seq<Area>, v: seq<Area>, g: seq<Area>, transform: Option<string>)
    ensures var out := Highlights(h, v, g, transform);
      && |out| == |h| + |v| + |g|
      && (forall k :: 0 <= k < |h| ==> out[k] == WallElement(h[k], transform))
      && (forall k :: 0 <= k < |v| ==> out[|h| + k] == WallElement(v[k], transform))
      && (forall k :: 0 <= k < |g| ==> out[|h| + |v| + k] == WallElement(g[k], None))
  {
    RenderPaths(h, transform);
    RenderPaths(v, transform);
    RenderPaths(g, None);
    var rh, rv, rg := Render(h, transform), Render(v, transform), Render(g, None);
    var out := rh + rv + rg;
    assert Highlights(h, v, g, transform) == out;
    forall k | 0 <= k < |h| ensures out[k] == WallElement(h[k], transform) {
      assert out[k] == rh[k];
    }
    forall k | 0 <= k < |v| ensures out[|h| + k] == WallElement(v[k], transform) {
      assert out[|h| + k] == rv[k];
    }
    forall k | 0 <= k < |g| ensures out[|h| + |v| + k] == WallElement(g[k], None) {
      assert out[|h| + |v| + k] == rg[k];
    }
  }

  /**
   * All highlights are red axis-parallel segments, and only the wall highlights can carry the
   * wide stroke and the captured transform.
   */
  lemma OverlayStrokes(s: Scene)
    requires WellShaped(s)
    ensures var h, v, out := AcceptedWalls(Horizontal, s), AcceptedWalls(Vertical, s), DrawScene(s);
      && (forall k :: 0 <= k < |out| ==> out[k].stroke == RedColor && (out[k].y1 == out[k].y2 || out[k].x1 == out[k].x2))
      && (forall k :: 0 <= k < |h| + |v| ==> (out[k].strokeWidth == DrawWidth <==> HasTransform(s.transform)))
      && (forall k :: |h| + |v| <= k < |out| ==> out[k].strokeWidth == NoTransformationDrawWidth && out[k].transform == "")
  {
    var h, v, g := AcceptedWalls(Horizontal, s), AcceptedWalls(Vertical, s), s.grayFilled;
    var rh, rv, rg := Render(h, s.transform), Render(v, s.transform), Render(g, None);
    HighlightsOrder(h, v, g, s.transform);
    RenderPaths(h, s.transform);
    RenderPaths(v, s.transform);
    RenderPaths(g, None);
    var out := DrawScene(s);
    forall k | 0 <= k < |out|
      ensures out[k].stroke == RedColor && (out[k].y1 == out[k].y2 || out[k].x1 == out[k].x2)
      ensures k < |h| + |v| ==> (out[k].strokeWidth == DrawWidth <==> HasTransform(s.transform))
      ensures |h| + |v| <= k ==> out[k].strokeWidth == NoTransformationDrawWidth && out[k].transform == ""
    {
      if k < |h| {
        HorizontalHighlights(s);
        assert out[k] == rh[k];
      } else if k < |h| + |v| {
        VerticalHighlights(s);
        assert out[k] == out[|h| + (k - |h|)] == rv[k - |h|];
      } else {
        GrayHighlights(s);
        var i := k - |h| - |v|;
        assert out[k] == out[|h| + |v| + i] == rg[i];
        assert g[i].orientation == Vertical || g[i].orientation == Horizontal;
      }
    }
  }

  /**
   * The marker filter keeps that independence: the horizontal walls kept from two orders of
   * the same lines that differ by a swap of neighbours at one level are the same, counted with
   * multiplicity.
   */
  lemma KeptHorizontalTieSwap(lines: seq<Line>, t: nat, horizontalMarkers: seq<Line>, verticalMarkers: seq<Line>)
    requires t + 1 < |lines| && lines[t].p1.y == lines[t + 1].p1.y
    ensures var swapped := lines[t := lines[t + 1]][t + 1 := lines[t]];
      multiset(FilterEnough(Candidates(Horizontal, lines), horizontalMarkers, verticalMarkers))
      == multiset(FilterEnough(Candidates(Horizontal, swapped), horizontalMarkers, verticalMarkers))
  {
    var swapped := lines[t := lines[t + 1]][t + 1 := lines[t]];
    HorizontalTieSwap(lines, t);
    var before, after := Candidates(Horizontal, lines), Candidates(Horizontal, swapped);
    var kept, keptSwapped := FilterEnough(before, horizontalMarkers, verticalMarkers), FilterEnough(after, horizontalMarkers, verticalMarkers);
    forall w ensures multiset(kept)[w] == multiset(keptSwapped)[w] {
      assert multiset(before)[w] == multiset(after)[w];
    }
  }

  /** Whatever the elements, every appended highlight is a red axis-parallel segment. */
  lemma DrawWallsAxisParallel(elements: seq<Element>)
    requires AllDecodable(elements)
    ensures forall p :: p in DrawWallsSpec(elements) ==> p.stroke == RedColor && (p.y1 == p.y2 || p.x1 == p.x2)
  {
    SceneShapes(elements);
    OverlayStrokes(ParseSpec(elements));
  }

  // ---------------------------------------------------------------------------------------
  // The pipeline, as written in the source.

  /** The `list(filter(...))` of draw_walls.py:61-62, one `enough_markers_inside` call per wall. */
  method KeepValidated(walls: seq<Area>, horizontalMarkers: seq<Line>, verticalMarkers: seq<Line>)
    returns (kept: seq<Area>)
    ensures kept == FilterEnough(walls, horizontalMarkers, verticalMarkers)
  {
    kept := [];
    for i := 0 to |walls|
      invariant kept == FilterEnough(walls[..i], horizontalMarkers, verticalMarkers)
    {
      assert walls[..i + 1][..i] == walls[..i];
      var enough := EnoughMarkersInside(walls[i], horizontalMarkers, verticalMarkers);
      if enough {
        kept := kept + [walls[i]];
      }
    }
    assert walls[..|walls|] == walls;
  }

  /** One of the append loops of draw_walls.py:65-70: a highlight per area, in order. */
  method AppendHighlights(overlay: seq<OverlayPath>, walls: seq<Area>, transform: Option<string>)
    returns (next: seq<OverlayPath>)
    ensures next == overlay + Render(walls, transform)
  {
    next := overlay;
    for i := 0 to |walls|
      invariant next == overlay + Render(walls[..i], transform)
    {
      assert walls[..i + 1][..i] == walls[..i];
      next := next + [WallElement(walls[i], transform)];
    }
    assert walls[..|walls|] == walls;
  }

  /** `draw_walls` between reading the document and writing it back: the paths it appends. */
  method DrawWalls(elements: seq<Element>) returns (overlay: seq<OverlayPath>)
    requires AllDecodable(elements)
    ensures overlay == DrawWallsSpec(elements)
  {
    var horizontalLines, verticalLines, horizontalMarkers, verticalMarkers, grayFilled, transform := ParseSvg(elements);
    var horizontalWalls := ExtractHorizontalWallsCandidates(SortByLevel(Horizontal, horizontalLines));
    var verticalWalls := ExtractVerticalWallsCandidates(SortByLevel(Vertical, verticalLines));
    horizontalWalls := KeepValidated(horizontalWalls, horizontalMarkers, verticalMarkers);
    verticalWalls := KeepValidated(verticalWalls, horizontalMarkers, verticalMarkers);
    ghost var s := Scene(horizontalLines, verticalLines, horizontalMarkers, verticalMarkers, grayFilled, transform);
    assert horizontalWalls == AcceptedWalls(Horizontal, s);
    assert verticalWalls == AcceptedWalls(Vertical, s);
    overlay := AppendHighlights([], horizontalWalls, transform);
    assert overlay == Render(horizontalWalls, transform);
    overlay := AppendHighlights(overlay, verticalWalls, transform);
    overlay := AppendHighlights(overlay, grayFilled, None);
    assert overlay == DrawScene(s);
  }
}
