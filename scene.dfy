/**
 * Classification of the drawing's elements (draw_walls.py:109-160, 202-203).
 *
 * The scene is modelled as the sequence of elements `root.iter()` visits, in document order,
 * each with the attributes the classifier reads. Attribute text that the source turns into
 * numbers with `float(...)` is given already decoded: a path `d` is its list of space-separated
 * tokens, a token either a number or a word, and an `rgb(...)` paint its three channels.
 */
module Scene {
  import opened Config
  import opened Optional
  import opened Geometry

  /** One space-separated token of a path description. */
  datatype Token = Num(value: real) | Word(text: string)

  /** One channel of `rgb(r%, g%, b%)`: its number and the one character after it (the `%`). */
  datatype Channel = Channel(value: real, unit: char)

  /** A `fill` value: an `rgb(...)` colour, or any other text such as `none`. */
  datatype Paint = Named(text: string) | Rgb(r: Channel, g: Channel, b: Channel)

  datatype Element = Element(tag: string, stroke: Option<string>, strokeWidth: Option<string>,
                             fill: Option<Paint>, transform: Option<string>, d: Option<seq<Token>>)

  /** What `parse_svg` returns: five lists in document order and the captured transform. */
  datatype Scene = Scene(horizontalLines: seq<Line>, verticalLines: seq<Line>,
                         horizontalMarkers: seq<Line>, verticalMarkers: seq<Line>,
                         grayFilled: seq<Area>, transform: Option<string>)

  /** The four line lists of a scene. */
  datatype LineKind = WallHorizontal | WallVertical | MarkerHorizontal | MarkerVertical

  function Lines(kind: LineKind, s: Scene): seq<Line> {
    match kind
    case WallHorizontal => s.horizontalLines
    case WallVertical => s.verticalLines
    case MarkerHorizontal => s.horizontalMarkers
    case MarkerVertical => s.verticalMarkers
  }

  function KindOrientation(kind: LineKind): Orientation {
    if kind == WallHorizontal || kind == MarkerHorizontal then Horizontal else Vertical
  }

  predicate StartsWith(s: string, prefix: string) {
    |prefix| <= |s| && s[..|prefix|] == prefix
  }

  predicate EndsWith(s: string, suffix: string) {
    |suffix| <= |s| && s[|s| - |suffix|..] == suffix
  }

  /** `is_stroke`: a path element carrying both `stroke-width` and `stroke`. */
  predicate IsStroke(e: Element) {
    EndsWith(e.tag, "path") && e.strokeWidth.Some? && e.stroke.Some?
  }

  /** A paint `parse_rgb` can handle without raising: other text does not start with `rgb(`. */
  predicate PaintDecodable(p: Paint) {
    p.Named? ==> !StartsWith(p.text, "rgb(")
  }

  /**
   * `parse_rgb`: the three channel numbers of an `rgb(...)` paint, each with its trailing unit
   * dropped; any other paint gives none.
   */
  function ParseRgb(p: Paint): Option<(real, real, real)>
    requires PaintDecodable(p)
  {
    match p
    case Rgb(r, g, b) => Some((r.value, g.value, b.value))
    case Named(_) => None
  }

  /** The attribute test of line 131: a `fill` other than `none`. */
  predicate HasFill(e: Element) {
    e.fill.Some? && e.fill.value != Named("none")
  }

  predicate IsGrayChannel(v: real) {
    GrayLower <= v <= GrayUpper
  }

  /** A fill whose three channels all lie in the gray band (draw_walls.py:131-134). */
  predicate FillsGray(e: Element) {
    && HasFill(e)
    && PaintDecodable(e.fill.value)
    && var rgb := ParseRgb(e.fill.value);
       rgb.Some? && IsGrayChannel(rgb.value.0) && IsGrayChannel(rgb.value.1) && IsGrayChannel(rgb.value.2)
  }

  /**
   * A fill counts as gray exactly when it is an `rgb(...)` colour whose three channels all lie in
   * the closed band [GrayLower, GrayUpper]; `none` and every other named fill never do.
   */
  lemma GrayFillChannels(e: Element)
    requires Decodable(e)
    ensures FillsGray(e) <==>
      && e.fill.Some? && e.fill.value.Rgb?
      && IsGrayChannel(e.fill.value.r.value) && IsGrayChannel(e.fill.value.g.value) && IsGrayChannel(e.fill.value.b.value)
    ensures e.fill.Some? && e.fill.value.Named? ==> !FillsGray(e)
  {
  }

  /** A straight two-point path `M x1 y1 L x2 y2`: numbers at token positions 1, 2, 4 and 5. */
  predicate TwoPointPath(ts: seq<Token>) {
    |ts| >= 6 && ts[1].Num? && ts[2].Num? && ts[4].Num? && ts[5].Num?
  }

  /** The structural test of line 138: seventeen tokens with `Z` at position 12. */
  predicate QuadPath(ts: seq<Token>) {
    |ts| == 17 && ts[12] == Word("Z")
  }

  predicate QuadNumeric(ts: seq<Token>) {
    && |ts| == 17
    && ts[1].Num? && ts[2].Num? && ts[4].Num? && ts[5].Num?
    && ts[7].Num? && ts[8].Num? && ts[10].Num? && ts[11].Num?
  }

  /** An element `parse_svg` handles without raising (a missing `d`, a token `float` rejects, a bad `rgb(`). */
  predicate Decodable(e: Element) {
    && (IsStroke(e) ==> e.d.Some? && TwoPointPath(e.d.value))
    && (HasFill(e) ==> PaintDecodable(e.fill.value))
    && (FillsGray(e) ==> e.d.Some? && (QuadPath(e.d.value) ==> QuadNumeric(e.d.value)))
  }

  predicate AllDecodable(elements: seq<Element>) {
    forall i :: 0 <= i < |elements| ==> Decodable(elements[i])
  }

  // ---------------------------------------------------------------------------------------
  // What one element contributes.

  /** The endpoint coordinates x1, y1, x2, y2 of a stroke's two-point path (line 115). */
  function Endpoints(e: Element): (real, real, real, real)
    requires IsStroke(e) && Decodable(e)
  {
    var ts := e.d.value;
    (ts[1].value, ts[2].value, ts[4].value, ts[5].value)
  }

  predicate IsWallStroke(e: Element)
    requires IsStroke(e)
  {
    e.strokeWidth.value in WallsStrokeWidths && e.stroke.value == WallColor
  }

  predicate IsMarkerStroke(e: Element)
    requires IsStroke(e)
  {
    e.strokeWidth.value in WallsMarkersWidths && e.stroke.value == WallMarkerColor
  }

  /** The line a stroke adds to the list of `kind`, if any (draw_walls.py:119-129). */
  function LineOf(kind: LineKind, e: Element): Option<Line>
    requires Decodable(e)
  {
    if !IsStroke(e) then None
    else
      var (x1, y1, x2, y2) := Endpoints(e);
      match kind
      case WallHorizontal =>
        if IsWallStroke(e) && y1 == y2 then Some(Line(Point(Min(x1, x2), y1), Point(Max(x1, x2), y2))) else None
      case WallVertical =>
        if IsWallStroke(e) && y1 != y2 && x1 == x2 then Some(Line(Point(x1, Min(y1, y2)), Point(x2, Max(y1, y2)))) else None
      case MarkerHorizontal =>
        if IsMarkerStroke(e) && y1 == y2 && Abs(x1 - x2) >= WallMarkerMinLength
        then Some(Line(Point(Min(x1, x2), y1), Point(Max(x1, x2), y2))) else None
      case MarkerVertical =>
        if IsMarkerStroke(e) && !(y1 == y2 && Abs(x1 - x2) >= WallMarkerMinLength) && x1 == x2 && Abs(y1 - y2) >= WallMarkerMinLength
        then Some(Line(Point(x1, Min(y1, y2)), Point(x2, Max(y1, y2)))) else None
  }

  function Min4(r: real, s: real, t: real, u: real): real {
    Min(Min(r, s), Min(t, u))
  }

  function Max4(r: real, s: real, t: real, u: real): real {
    Max(Max(r, s), Max(t, u))
  }

  /** The four corner points of a closed quad path `M x1 y1 L x2 y2 L x3 y3 L x4 y4 Z M x1 y1`. */
  function QuadPoints(ts: seq<Token>): seq<Point>
    requires QuadNumeric(ts)
  {
    [Point(ts[1].value, ts[2].value), Point(ts[4].value, ts[5].value),
     Point(ts[7].value, ts[8].value), Point(ts[10].value, ts[11].value)]
  }

  /** The gray region a filled element adds, if any (draw_walls.py:131-149). */
  function GrayAreaOf(e: Element): Option<Area>
    requires Decodable(e)
  {
    if !FillsGray(e) || !QuadPath(e.d.value) then None
    else
      var ts := e.d.value;
      var x1, y1, x2, y2, x3, y3, x4, y4 :=
        ts[1].value, ts[2].value, ts[4].value, ts[5].value, ts[7].value, ts[8].value, ts[10].value, ts[11].value;
      var a := Point(Min4(x1, x2, x3, x4), Min4(y1, y2, y3, y4));
      var b := Point(Min4(x1, x2, x3, x4), Max4(y1, y2, y3, y4));
      var c := Point(Max4(x1, x2, x3, x4), Max4(y1, y2, y3, y4));
      var d := Point(Max4(x1, x2, x3, x4), Min4(y1, y2, y3, y4));
      if a.x == b.x && c.x == d.x && a.y == d.y && b.y == c.y then
        var height := Abs(a.y - b.y);
        var width := Abs(a.x - d.x);
        if Min(height, width) > GrayWidthLowerBound then
          Some(Area(a, b, c, d, if height >= width then Vertical else Horizontal))
        else None
      else None
  }

  /**
   * A stroke gets into a line list only with the whitelisted width and the configured colour of
   * that list; what it adds is its own two endpoints, in canonical order along the list's axis,
   * and a marker is at least WallMarkerMinLength long. A diagonal stroke gets into no list.
   */
  lemma LineOfClassifies(kind: LineKind, e: Element)
    requires Decodable(e)
    ensures LineOf(kind, e).Some? ==> IsStroke(e)
    ensures LineOf(kind, e).Some? && (kind == WallHorizontal || kind == WallVertical) ==>
      e.strokeWidth.value in WallsStrokeWidths && e.stroke.value == WallColor
    ensures LineOf(kind, e).Some? && (kind == MarkerHorizontal || kind == MarkerVertical) ==>
      e.strokeWidth.value in WallsMarkersWidths && e.stroke.value == WallMarkerColor
    ensures LineOf(kind, e).Some? ==> IsCanonical(KindOrientation(kind), LineOf(kind, e).value)
    ensures LineOf(kind, e).Some? && (kind == MarkerHorizontal || kind == MarkerVertical) ==>
      var l := LineOf(kind, e).value;
      Along(KindOrientation(kind), l.p2) - Along(KindOrientation(kind), l.p1) >= WallMarkerMinLength
    ensures LineOf(kind, e).Some? ==>
      var l := LineOf(kind, e).value;
      var (x1, y1, x2, y2) := Endpoints(e);
      multiset{l.p1, l.p2} == multiset{Point(x1, y1), Point(x2, y2)}
    ensures IsStroke(e) && Endpoints(e).0 != Endpoints(e).2 && Endpoints(e).1 != Endpoints(e).3 ==>
      LineOf(kind, e).None?
    ensures IsStroke(e) && IsWallStroke(e) && (Endpoints(e).0 == Endpoints(e).2 || Endpoints(e).1 == Endpoints(e).3) ==>
      (LineOf(WallHorizontal, e).Some? <==> !LineOf(WallVertical, e).Some?)
    ensures IsStroke(e) && IsMarkerStroke(e) ==>
      var (x1, y1, x2, y2) := Endpoints(e);
      (y1 == y2 && Abs(x1 - x2) >= WallMarkerMinLength) || (x1 == x2 && Abs(y1 - y2) >= WallMarkerMinLength) ==>
      (LineOf(MarkerHorizontal, e).Some? <==> !LineOf(MarkerVertical, e).Some?)
  {
  }

  /**
   * An accepted gray region comes from a gray fill with a closed seventeen-token quad path; it is
   * the bounding box of the quad's four points (all four inside it, each bounding coordinate
   * taken by one of them), a rectangle thicker than GrayWidthLowerBound both ways, tagged
   * vertical exactly when it is at least as tall as wide.
   */
  lemma GrayAreaOfBoundingBox(e: Element)
    requires Decodable(e)
    ensures GrayAreaOf(e).Some? ==> FillsGray(e) && e.d.Some? && QuadPath(e.d.value)
    ensures GrayAreaOf(e).Some? ==>
      var w := GrayAreaOf(e).value;
      var height := w.b.y - w.a.y;
      var width := w.d.x - w.a.x;
      && IsRectangle(w)
      && 0.0 <= height && 0.0 <= width
      && Min(height, width) > GrayWidthLowerBound
      && (w.orientation == Vertical <==> height >= width)
    ensures GrayAreaOf(e).Some? ==>
      var w := GrayAreaOf(e).value;
      var ps := QuadPoints(e.d.value);
      && (forall k :: 0 <= k < 4 ==> IsInside(ps[k], w))
      && w.a.x in [ps[0].x, ps[1].x, ps[2].x, ps[3].x]
      && w.a.y in [ps[0].y, ps[1].y, ps[2].y, ps[3].y]
      && w.c.x in [ps[0].x, ps[1].x, ps[2].x, ps[3].x]
      && w.c.y in [ps[0].y, ps[1].y, ps[2].y, ps[3].y]
    ensures FillsGray(e) && e.d.Some? && QuadPath(e.d.value) ==>
      var ps := QuadPoints(e.d.value);
      var height := Max4(ps[0].y, ps[1].y, ps[2].y, ps[3].y) - Min4(ps[0].y, ps[1].y, ps[2].y, ps[3].y);
      var width := Max4(ps[0].x, ps[1].x, ps[2].x, ps[3].x) - Min4(ps[0].x, ps[1].x, ps[2].x, ps[3].x);
      (GrayAreaOf(e).Some? <==> Min(height, width) > GrayWidthLowerBound)
  {
  }

  function OptionToSeq<T>(o: Option<T>): seq<T> {
    if o.Some? then [o.value] else []
  }

  /** A stroke that carries a `transform` attribute: a candidate for the captured transform. */
  predicate CarriesTransform(e: Element) {
    IsStroke(e) && e.transform.Some?
  }

  /** What `classify` yields for each element, in document order, skipping the elements it rejects. */
  function Collect<T>(classify: Element --> Option<T>, elements: seq<Element>): seq<T>
    requires forall k :: 0 <= k < |elements| ==> classify.requires(elements[k])
  {
    if elements == [] then []
    else Collect(classify, elements[..|elements| - 1]) + OptionToSeq(classify(elements[|elements| - 1]))
  }

  /** The classifier that feeds the line list of `kind`. */
  function LineClassifier(kind: LineKind): Element --> Option<Line> {
    e requires Decodable(e) => LineOf(kind, e)
  }

  /** The lines the elements contribute to the list of `kind`, in document order. */
  function CollectLines(kind: LineKind, elements: seq<Element>): seq<Line>
    requires AllDecodable(elements)
  {
    Collect(LineClassifier(kind), elements)
  }

  /** The gray regions the elements contribute, in document order. */
  function CollectGray(elements: seq<Element>): seq<Area>
    requires AllDecodable(elements)
  {
    Collect(GrayAreaOf, elements)
  }

  /** The transform after the loop: set by a stroke carrying one while none is set yet. */
  function TransformAfter(elements: seq<Element>): Option<string> {
    if elements == [] then None
    else
      var before := TransformAfter(elements[..|elements| - 1]);
      var e := elements[|elements| - 1];
      if before.None? && CarriesTransform(e) then e.transform else before
  }

  /** The scene classified from `elements`. */
  function ParseSpec(elements: seq<Element>): Scene
    requires AllDecodable(elements)
  {
    Scene(CollectLines(WallHorizontal, elements), CollectLines(WallVertical, elements),
          CollectLines(MarkerHorizontal, elements), CollectLines(MarkerVertical, elements),
          CollectGray(elements), TransformAfter(elements))
  }

  /** One iteration of the classifier loop: what one element adds to the scene built so far. */
  function Step(s: Scene, e: Element): Scene
    requires Decodable(e)
  {
    Scene(s.horizontalLines + OptionToSeq(LineOf(WallHorizontal, e)),
          s.verticalLines + OptionToSeq(LineOf(WallVertical, e)),
          s.horizontalMarkers + OptionToSeq(LineOf(MarkerHorizontal, e)),
          s.verticalMarkers + OptionToSeq(LineOf(MarkerVertical, e)),
          s.grayFilled + OptionToSeq(GrayAreaOf(e)),
          if s.transform.None? && CarriesTransform(e) then e.transform else s.transform)
  }

  // ---------------------------------------------------------------------------------------
  // What the classified scene holds.

  /** The scene of a non-empty list is the scene of all but its last element, stepped by the last. */
  lemma ParseSpecLast(elements: seq<Element>)
    requires AllDecodable(elements) && elements != []
    ensures AllDecodable(elements[..|elements| - 1])
    ensures ParseSpec(elements) == Step(ParseSpec(elements[..|elements| - 1]), elements[|elements| - 1])
  {
  }

  /** `Collect` keeps exactly what its classifier yields for some element. */
  lemma {:induction false} CollectMembers<T>(classify: Element --> Option<T>, elements: seq<Element>, x: T)
    requires forall k :: 0 <= k < |elements| ==> classify.requires(elements[k])
    ensures x in Collect(classify, elements) <==>
      exists k :: 0 <= k < |elements| && classify(elements[k]) == Some(x)
  {
    if elements != [] {
      var n := |elements| - 1;
      var front := elements[..n];
      assert forall k :: 0 <= k < n ==> front[k] == elements[k];
      CollectMembers(classify, front, x);
      if k :| 0 <= k < |elements| && classify(elements[k]) == Some(x) {
        if k < n {
          assert front[k] == elements[k];
        }
      }
    }
  }

  /** Each line list holds exactly the lines that some element contributes to it. */
  lemma LinesFromElements(kind: LineKind, elements: seq<Element>, l: Line)
    requires AllDecodable(elements)
    ensures l in CollectLines(kind, elements) <==>
      exists k :: 0 <= k < |elements| && LineOf(kind, elements[k]) == Some(l)
  {
    CollectMembers(LineClassifier(kind), elements, l);
    assert forall k :: 0 <= k < |elements| ==> LineClassifier(kind)(elements[k]) == LineOf(kind, elements[k]);
  }

  /** The gray list holds exactly the regions that some element contributes. */
  lemma GrayFromElements(elements: seq<Element>, w: Area)
    requires AllDecodable(elements)
    ensures w in CollectGray(elements) <==>
      exists k :: 0 <= k < |elements| && GrayAreaOf(elements[k]) == Some(w)
  {
    CollectMembers(GrayAreaOf, elements, w);
  }

  /**
   * The captured transform is that of the first stroke carrying one, and there is none exactly
   * when no stroke carries one: a later transform never overwrites it.
   */
  lemma {:induction false} CapturedTransform(elements: seq<Element>)
    ensures TransformAfter(elements).None? <==>
      forall k :: 0 <= k < |elements| ==> !CarriesTransform(elements[k])
    ensures TransformAfter(elements).Some? ==>
      exists k :: 0 <= k < |elements| && CarriesTransform(elements[k]) &&
        elements[k].transform == TransformAfter(elements) &&
        forall m :: 0 <= m < k ==> !CarriesTransform(elements[m])
  {
    if elements != [] {
      var n := |elements| - 1;
      var front := elements[..n];
      CapturedTransform(front);
      assert forall k :: 0 <= k < n ==> front[k] == elements[k];
      if TransformAfter(front).Some? {
        var k :| 0 <= k < |front| && CarriesTransform(front[k]) &&
          front[k].transform == TransformAfter(front) &&
          forall m :: 0 <= m < k ==> !CarriesTransform(front[m]);
        assert CarriesTransform(elements[k]);
      } else if CarriesTransform(elements[n]) {
        assert forall m :: 0 <= m < n ==> !CarriesTransform(elements[m]);
      }
    }
  }

  lemma LinesShape(kind: LineKind, elements: seq<Element>)
    requires AllDecodable(elements)
    ensures forall l :: l in CollectLines(kind, elements) ==>
      && IsCanonical(KindOrientation(kind), l)
      && ((kind == MarkerHorizontal || kind == MarkerVertical) ==>
            Along(KindOrientation(kind), l.p2) - Along(KindOrientation(kind), l.p1) >= WallMarkerMinLength)
  {
    forall l | l in CollectLines(kind, elements)
      ensures IsCanonical(KindOrientation(kind), l)
      ensures (kind == MarkerHorizontal || kind == MarkerVertical) ==>
        Along(KindOrientation(kind), l.p2) - Along(KindOrientation(kind), l.p1) >= WallMarkerMinLength
    {
      LinesFromElements(kind, elements, l);
      var k :| 0 <= k < |elements| && LineOf(kind, elements[k]) == Some(l);
      LineOfClassifies(kind, elements[k]);
    }
  }

  lemma GrayShape(elements: seq<Element>)
    requires AllDecodable(elements)
    ensures forall w :: w in CollectGray(elements) ==>
      && IsRectangle(w)
      && w.a.x <= w.c.x && w.a.y <= w.c.y
      && Min(w.b.y - w.a.y, w.d.x - w.a.x) > GrayWidthLowerBound
      && (w.orientation == Vertical <==> w.b.y - w.a.y >= w.d.x - w.a.x)
  {
    forall w | w in CollectGray(elements)
      ensures IsRectangle(w) && w.a.x <= w.c.x && w.a.y <= w.c.y
      ensures Min(w.b.y - w.a.y, w.d.x - w.a.x) > GrayWidthLowerBound
      ensures w.orientation == Vertical <==> w.b.y - w.a.y >= w.d.x - w.a.x
    {
      GrayFromElements(elements, w);
      var k :| 0 <= k < |elements| && GrayAreaOf(elements[k]) == Some(w);
      GrayAreaOfBoundingBox(elements[k]);
    }
  }

  /**
   * Every wall line is canonical and axis-parallel (diagonal strokes never get in), every marker
   * is too and is at least WallMarkerMinLength long, and every gray region is a rectangle thicker
   * than GrayWidthLowerBound both ways, tagged vertical exactly when it is at least as tall as wide.
   */
  predicate WellShaped(s: Scene) {
    && (forall l :: l in s.horizontalLines ==> IsCanonical(Horizontal, l))
    && (forall l :: l in s.verticalLines ==> IsCanonical(Vertical, l))
    && (forall l :: l in s.horizontalMarkers ==> IsCanonical(Horizontal, l) && l.p2.x - l.p1.x >= WallMarkerMinLength)
    && (forall l :: l in s.verticalMarkers ==> IsCanonical(Vertical, l) && l.p2.y - l.p1.y >= WallMarkerMinLength)
    && (forall w :: w in s.grayFilled ==>
          && IsRectangle(w)
          && w.a.x <= w.c.x && w.a.y <= w.c.y
          && Min(w.b.y - w.a.y, w.d.x - w.a.x) > GrayWidthLowerBound
          && (w.orientation == Vertical <==> w.b.y - w.a.y >= w.d.x - w.a.x))
  }

  /** Every scene the classifier builds is well shaped. */
  lemma SceneShapes(elements: seq<Element>)
    requires AllDecodable(elements)
    ensures WellShaped(ParseSpec(elements))
  {
    LinesShape(WallHorizontal, elements);
    LinesShape(WallVertical, elements);
    LinesShape(MarkerHorizontal, elements);
    LinesShape(MarkerVertical, elements);
    GrayShape(elements);
  }

  /**
   * The rectangularity test of line 145 cannot fail: the corners are built from the minima and
   * maxima of the four points, so they always form a box. A diamond-shaped gray quad is therefore
   * accepted as its bounding box.
   */
  lemma DiamondQuadAccepted()
    ensures var diamond := Element("path", None, None, Some(Rgb(Channel(50.0, '%'), Channel(50.0, '%'), Channel(50.0, '%'))), None,
              Some([Word("M"), Num(5.0), Num(0.0), Word("L"), Num(10.0), Num(5.0), Word("L"), Num(5.0), Num(10.0),
                    Word("L"), Num(0.0), Num(5.0), Word("Z"), Word("M"), Num(5.0), Num(0.0), Word("")]));
      Decodable(diamond) &&
      GrayAreaOf(diamond) == Some(Area(Point(0.0, 0.0), Point(0.0, 10.0), Point(10.0, 10.0), Point(10.0, 0.0), Vertical))
  {
  }

  // ---------------------------------------------------------------------------------------
  // The classifier loop, as written in the source; its body is split in its stroke half and
  // its fill half.

  /** The stroke half of the loop body (draw_walls.py:113-129). */
  method ClassifyStroke(scene: Scene, elem: Element) returns (next: Scene)
    requires Decodable(elem)
    ensures next == scene.(horizontalLines := scene.horizontalLines + OptionToSeq(LineOf(WallHorizontal, elem)),
                           verticalLines := scene.verticalLines + OptionToSeq(LineOf(WallVertical, elem)),
                           horizontalMarkers := scene.horizontalMarkers + OptionToSeq(LineOf(MarkerHorizontal, elem)),
                           verticalMarkers := scene.verticalMarkers + OptionToSeq(LineOf(MarkerVertical, elem)),
                           transform := if scene.transform.None? && CarriesTransform(elem) then elem.transform else scene.transform)
  {
    next := scene;
    if IsStroke(elem) {
      var parsedCoordinates := elem.d.value;
      var x1, y1, x2, y2 := parsedCoordinates[1].value, parsedCoordinates[2].value,
                            parsedCoordinates[4].value, parsedCoordinates[5].value;
      if next.transform.None? && elem.transform.Some? {
        next := next.(transform := elem.transform);
      }
      if elem.strokeWidth.value in WallsStrokeWidths && elem.stroke.value == WallColor {
        if y1 == y2 {
          next := next.(horizontalLines := next.horizontalLines + [Line(Point(Min(x1, x2), y1), Point(Max(x1, x2), y2))]);
        } else if x1 == x2 {
          next := next.(verticalLines := next.verticalLines + [Line(Point(x1, Min(y1, y2)), Point(x2, Max(y1, y2)))]);
        }
      }
      if elem.strokeWidth.value in WallsMarkersWidths && elem.stroke.value == WallMarkerColor {
        if y1 == y2 && Abs(x1 - x2) >= WallMarkerMinLength {
          next := next.(horizontalMarkers := next.horizontalMarkers + [Line(Point(Min(x1, x2), y1), Point(Max(x1, x2), y2))]);
        } else if x1 == x2 && Abs(y1 - y2) >= WallMarkerMinLength {
          next := next.(verticalMarkers := next.verticalMarkers + [Line(Point(x1, Min(y1, y2)), Point(x2, Max(y1, y2)))]);
        }
      }
    }
  }

  /** The fill half of the loop body (draw_walls.py:131-149). */
  method ClassifyFill(scene: Scene, elem: Element) returns (next: Scene)
    requires Decodable(elem)
    ensures next == scene.(grayFilled := scene.grayFilled + OptionToSeq(GrayAreaOf(elem)))
  {
    next := scene;
    if elem.fill.Some? && elem.fill.value != Named("none") {
      var rgb := ParseRgb(elem.fill.value);
      if rgb.Some? && IsGrayChannel(rgb.value.0) && IsGrayChannel(rgb.value.1) && IsGrayChannel(rgb.value.2) {
        var splited := elem.d.value;
        if |splited| == 17 && splited[12] == Word("Z") {
          var x1, y1, x2, y2, x3, y3, x4, y4 :=
            splited[1].value, splited[2].value, splited[4].value, splited[5].value,
            splited[7].value, splited[8].value, splited[10].value, splited[11].value;
          var a := Point(Min4(x1, x2, x3, x4), Min4(y1, y2, y3, y4));
          var b := Point(Min4(x1, x2, x3, x4), Max4(y1, y2, y3, y4));
          var c := Point(Max4(x1, x2, x3, x4), Max4(y1, y2, y3, y4));
          var d := Point(Max4(x1, x2, x3, x4), Min4(y1, y2, y3, y4));
          if a.x == b.x && c.x == d.x && a.y == d.y && b.y == c.y {
            var height := Abs(a.y - b.y);
            var width := Abs(a.x - d.x);
            if Min(height, width) > GrayWidthLowerBound {
              next := next.(grayFilled := next.grayFilled + [Area(a, b, c, d, if height >= width then Vertical else Horizontal)]);
            }
          }
        }
      }
    }
  }

  /** `parse_svg`: one pass over the elements in document order. */
  method ParseSvg(elements: seq<Element>)
    returns (horizontalLines: seq<Line>, verticalLines: seq<Line>, horizontalMarkers: seq<Line>,
             verticalMarkers: seq<Line>, grayFilled: seq<Area>, transform: Option<string>)
    requires AllDecodable(elements)
    ensures Scene(horizontalLines, verticalLines, horizontalMarkers, verticalMarkers, grayFilled, transform)
            == ParseSpec(elements)
  {
    var scene := Scene([], [], [], [], [], None);
    for i := 0 to |elements|
      invariant scene == ParseSpec(elements[..i])
    {
      var elem := elements[i];
      assert elements[..i + 1][..i] == elements[..i];
      ParseSpecLast(elements[..i + 1]);
      scene := ClassifyStroke(scene, elem);
      scene := ClassifyFill(scene, elem);
    }
    assert elements[..|elements|] == elements;
    horizontalLines, verticalLines, horizontalMarkers, verticalMarkers, grayFilled, transform :=
      scene.horizontalLines, scene.verticalLines, scene.horizontalMarkers, scene.verticalMarkers,
      scene.grayFilled, scene.transform;
  }
}
