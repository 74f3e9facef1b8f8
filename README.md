# Wall inference for vectorised floor plans, in Dafny

`draw_walls.py` finds the walls of an architectural floor plan that has been converted to SVG.
Walls in such a drawing are pairs of parallel thick black lines, hatched between them with
many short thin black ticks (the markers). Some walls are filled gray areas instead. The
program works in four stages:

1. It files every element of the drawing into none, one or two of these lists: horizontal or
   vertical wall lines, horizontal or vertical markers, and gray rectangles. A stroked path can
   enter one line list, and a gray-filled quad the gray list; a stroked gray-filled quad enters
   both. It also captures the `transform` of the first stroked path that carries one; a
   `transform` on any other element, such as a group, is ignored.
2. It sorts each wall-line list by its fixed coordinate.
3. It pairs wall lines into wall candidates. Horizontal pairs lie 25 to 40 units apart. Vertical
   pairs, as the code is written, are only known to lie 1.5 to 40 units apart.
4. It keeps the candidates that hold more than ten markers and appends a red midline for each
   kept wall and each gray rectangle.

The project models those four stages. Each stage except the sort appears twice:

- A specification function over values.
- A method written as the source writes it: the same loops, `continue`, `break`, early return
  and append order. Each method is proved equal to its specification function.

The sort stage is a single function, `Sorting.SortByLevel`, which the method `Pipeline.DrawWalls`
calls. The source calls the library `sorted` there and has no loop of its own.

Lemmas then prove the properties of the specification functions.

Modules, in pipeline order:

- **`Config`** (`config.dfy`). The constants of `config.py`.
- **`Geometry`** (`geometry.dfy`). The geometry value types: `Point`, `Line`, `Area`, the
  orientation tag, and the inclusive `is_inside` test.
- **`Scene`** (`scene.dfy`). The classification done by `parse_svg`, `is_stroke` and
  `parse_rgb`:
  - `LineOf` and `GrayAreaOf` give what one element contributes.
  - `ParseSpec` folds them over the document.
  - The method `ParseSvg` is the source's loop.
- **`Sorting`** (`sorting.dfy`). The function `sorted(..., key=...)` as a stable insertion sort.
- **`WallCandidates`** (`wall_candidates.dfy`). Both `extract_*_walls_candidates`:
  - `Scan` is the inner loop and `Candidates` the outer one, generic over the orientation.
  - The two extractor methods and their inner-loop methods are the source's loops.
- **`Markers`** (`markers.dfy`). `enough_markers_inside`, `gray_filled_inside`, and the filter
  over candidates.
- **`Overlay`** (`overlay.dfy`). The geometry and stroke choice of `wall_element`.
- **`Pipeline`** (`pipeline.dfy`). The body of `draw_walls` between reading and writing the
  document. `DrawWallsSpec` is the specification and `DrawWalls` the method.

Coordinates are exact `real`s. The input document is a sequence of element records. Each
record holds the tag and the attributes that `parse_svg` reads: `stroke`, `stroke-width`,
`fill`, `transform` and the path `d`. A path is held as its list of space-separated tokens,
each a number or a word. An `rgb(...)` fill is held as its three channels. The output is the
sequence of highlight paths appended to the document, each with its endpoints, stroke width,
colour and transform.

## Where the code departs from its evident intent

The model follows the code in each of these cases.

- **The gray rectangularity test cannot fail.** The check at draw_walls.py:145 is meant to
  reject quads that are not axis-aligned rectangles. But the four corners it tests are built
  from the minimum and maximum of the four points, so they always form a box. A rotated or
  skewed gray quad is therefore taken as its bounding box. `Scene.GrayAreaOfBoundingBox` proves
  that any gray quad path is accepted exactly when its bounding box is thicker than
  `GrayWidthLowerBound` both ways, and `Scene.DiamondQuadAccepted` shows a diamond being
  accepted.
- **The vertical break test measures the wrong distance.** The vertical extractor's break test
  at draw_walls.py:173 compares `line.p1.x` with `next_line.p1.y`, where the horizontal
  extractor compares the two fixed coordinates. The model keeps the comparison as written.
  `WallCandidates.VerticalThinPairAccepted` shows two vertical lines only 10 apart yielding a
  wall. That is why `WallCandidates.VerticalCandidatesShape` can only bound a vertical wall's
  width below by `SameLevelBound`.
- **The vertical result depends on the input order.** One would expect the walls found not to
  depend on the order of the input lines. After the stable sort, the input decides only the
  order within each run of lines at the same level. Any such order is reached from any other
  by swapping neighbours in the run. For horizontal lines that order does not matter:
  `WallCandidates.HorizontalTieSwap` proves that swapping two neighbouring lines at the same
  level leaves the same candidates, counted with multiplicity, and
  `Pipeline.KeptHorizontalTieSwap` carries this through the marker filter. The vertical break
  test, however, looks at `next_line.p1.y`. So two lines at the same level can stop a scan or
  let it reach a partner, depending on which comes first. `WallCandidates.VerticalOrderDependent` gives three lines
  whose two orders yield no candidate and one candidate.
- **A thin vertical wall's highlight can miss the wall.** The highlight sits at the floor of the
  wall's middle. With the break test as written, a vertical wall can be as thin as 1.5 units.
  Such a wall between x = 0.1 and x = 1.6 gets its highlight at x = 0, outside the wall, as
  `Pipeline.ThinVerticalWallHighlightOutside` shows. A horizontal wall is at least 25 units
  thick, so its highlight always lies strictly inside it.
- **Malformed elements raise.** The code does not skip a malformed element silently. Each of
  these raises:
  - a stroked or gray-filled element with no `d` attribute, such as a gray `<rect>`
    (draw_walls.py:114 and 135);
  - a stroke whose `d` lacks numbers at positions 1, 2, 4 and 5;
  - a gray quad with a non-number coordinate;
  - an `rgb(` fill that cannot be split into three channels. The model
  makes the absence of these a precondition, `Scene.AllDecodable`, instead of modelling the
  exception.
- **An empty transform counts as none.** A `transform=""` attribute is captured, because it is
  not `None`. But `wall_element` tests Python truthiness, so that transform then draws the thin
  stroke with no transform. `Overlay.HasTransform` models this.

## Model

| member | source | states |
|---|---|---|
| Geometry.InsideIsInclusive | draw_walls.py:95-96 | for an axis-aligned area in canonical corner order, a point is inside iff it lies in the closed box spanned by the four corners; every corner, so every boundary point, is inside |
| Scene.GrayFillChannels | draw_walls.py:131-134 | a fill counts as gray iff it is an `rgb(...)` colour whose three channels all lie in the closed band [GrayLower, GrayUpper]; `none` and every other named fill never count |
| Scene.LineOfClassifies | draw_walls.py:113-129 | only a stroke enters a line list, only with that list's whitelisted width and colour; it adds its own two endpoints in canonical order; markers are at least WallMarkerMinLength long; a diagonal stroke enters no list; an axis-parallel wall stroke enters exactly one wall list, and an axis-parallel marker stroke of sufficient length exactly one marker list |
| Scene.GrayAreaOfBoundingBox | draw_walls.py:131-149 | an accepted gray region comes from a gray fill with a 17-token quad path with `Z` at 12; it is an axis-aligned rectangle containing all four quad points, with bounding coordinates taken from them, both sides non-negative and the smaller above GrayWidthLowerBound, tagged vertical iff height >= width; conversely, a gray fill with a quad path is accepted iff the smaller side of its points' bounding box exceeds GrayWidthLowerBound, so rectangularity never rejects |
| Scene.CollectMembers | draw_walls.py:111-112 | the fold over the document keeps exactly the values the classifier yields for some element |
| Scene.LinesFromElements | draw_walls.py:119-129 | a line is in a line list iff some element contributes it to that list |
| Scene.GrayFromElements | draw_walls.py:131-149 | an area is in the gray list iff some element contributes it |
| Scene.CapturedTransform | draw_walls.py:116-117 | no transform is captured iff no stroke carries one; otherwise it is that of the first stroke carrying one, and later ones never overwrite it |
| Scene.LinesShape | draw_walls.py:119-129 | every line of every list is canonical along its orientation, and every marker is at least WallMarkerMinLength long |
| Scene.GrayShape | draw_walls.py:131-149 | every gray region is a rectangle with a at its lower-left, thicker than GrayWidthLowerBound both ways, tagged vertical iff at least as tall as wide |
| Scene.SceneShapes | draw_walls.py:109-150 | the classified scene is well shaped: canonical wall lines and markers, long enough markers, rectangular thick gray regions |
| Scene.DiamondQuadAccepted | draw_walls.py:136-149 | a diamond-shaped gray quad passes the rectangularity test and is accepted as its bounding box |
| Scene.ParseSpecLast | draw_walls.py:112-149 | one loop iteration adds to the scene built so far exactly what the element contributes |
| Scene.ClassifyStroke | draw_walls.py:113-129 | the stroke half of the loop body appends each line the element contributes to its list and captures the transform only when none is captured yet |
| Scene.ClassifyFill | draw_walls.py:131-149 | the fill half of the loop body appends the element's gray region, if any, and changes nothing else |
| Scene.ParseSvg | draw_walls.py:109-150 | the loop returns exactly the classified scene of the whole document |
| Sorting.SortByLevelSpec | draw_walls.py:57-58 | the sorted lines are ordered by level, a permutation of the input, and lines of equal level keep their input order, as Python's stable sort does |
| WallCandidates.ScanEmits | draw_walls.py:184-199 | the inner scan emits an area iff it is the candidate of a later line that passes every test before any line fires the break test; same-level and non-overlapping lines are skipped without ending the scan |
| WallCandidates.ScanPruned | draw_walls.py:193-194 | once a line fires the break test, the scan emits nothing with it or any later line |
| WallCandidates.CandidatesFromEmit | draw_walls.py:182-200 | the outer loop from line i on emits exactly the areas of the accepted pairs (p, k) with p >= i |
| WallCandidates.CandidatesEmit | draw_walls.py:182-200 | the candidates are exactly the areas of the pairs the scans emit |
| WallCandidates.HorizontalCandidatesShape | draw_walls.py:182-200 | for sorted canonical lines every horizontal candidate is a rectangle; its bottom is on an earlier line and its top on a later one; its x-extent is the common span; its height lies in [WidthLowerBound, WidthUpperBound] |
| WallCandidates.VerticalCandidatesShape | draw_walls.py:162-180 | for sorted canonical lines every vertical candidate is a rectangle; its left side is on an earlier line and its right side on a later one; its y-extent is the common span; its width lies in [SameLevelBound, WidthUpperBound]; the pair passed the break test as written |
| WallCandidates.HorizontalPairExample | draw_walls.py:182-200 | lines at y=100 over x in [0,50] and y=130 over x in [10,60] give the one area (10,100),(10,130),(50,130),(50,100) |
| WallCandidates.HorizontalThinPairRejected | draw_walls.py:193-194 | the same lines only 10 apart give no area |
| WallCandidates.PruningHidesLaterPartner | draw_walls.py:193-194 | a line too close to the first stops its scan before a later partner that would be accepted |
| WallCandidates.VerticalThinPairAccepted | draw_walls.py:173-176 | as written, two vertical lines 10 apart still give a wall |
| WallCandidates.VerticalOrderDependent | draw_walls.py:162-180 | two orders of the same three vertical lines, both left unchanged by the sort, give no candidate and one candidate |
| WallCandidates.ScanTiePair | draw_walls.py:184-199 | a horizontal inner scan meeting two neighbouring lines at one level emits the same areas, counted with multiplicity, whichever of the two comes first |
| WallCandidates.HorizontalTieSwap | draw_walls.py:182-200 | swapping two neighbouring horizontal lines at the same level leaves the candidates the same, counted with multiplicity |
| WallCandidates.ScanVerticalPartners | draw_walls.py:164-179 | the vertical inner loop appends exactly the inner scan's areas |
| WallCandidates.ExtractVerticalWallsCandidates | draw_walls.py:162-180 | returns exactly the vertical candidates |
| WallCandidates.ScanHorizontalPartners | draw_walls.py:184-199 | the horizontal inner loop appends exactly the inner scan's areas |
| WallCandidates.ExtractHorizontalWallsCandidates | draw_walls.py:182-200 | returns exactly the horizontal candidates |
| Markers.CountIsInsideIndices | draw_walls.py:86-92 | the loop's count is the number of positions holding a marker with both endpoints inside |
| Markers.EnoughMarkersInside | draw_walls.py:84-93 | true iff the horizontal plus vertical markers with both endpoints inside number strictly more than NeededMarkersCount |
| Markers.MarkerThreshold | draw_walls.py:93 | ten markers inside reject an area and eleven accept it; a marker with an endpoint outside never changes the verdict |
| Markers.FilterEnough | draw_walls.py:61-62 | keeps exactly the walls with enough markers, each as many times as it occurs, and never more walls than given |
| Markers.FilterEnoughAppend | draw_walls.py:61-62 | the filter keeps order: filtering a concatenation is the concatenation of the filtered parts |
| Markers.GrayFilledInside | draw_walls.py:78-82 | true iff some gray area has all four corners inside the wall |
| Overlay.WallElementMidline | draw_walls.py:98-102 | for a horizontal rectangle the highlight runs across its full x-extent at the floor of the mean of its two y levels, within one unit below the middle; for a vertical one it runs along its full y-extent at the floor of the mean of its x levels |
| Overlay.WallElementStroke | draw_walls.py:103 | the stroke width is DrawWidth iff a non-empty transform is given, and that transform is copied; otherwise the width is NoTransformationDrawWidth and there is no transform |
| Pipeline.Render | draw_walls.py:65-70 | one highlight per area |
| Pipeline.RenderPaths | draw_walls.py:65-70 | the k-th highlight is the highlight of the k-th area |
| Pipeline.AcceptedWallShape | draw_walls.py:56-62 | every kept wall is a rectangle of its orientation holding enough markers; a horizontal one spans the common x-range of two horizontal wall lines of the scene with height in [25, 40]; a vertical one spans the common y-range of two vertical wall lines with width in [1.5, 40] |
| Pipeline.HorizontalHighlights | draw_walls.py:65-66 | each horizontal wall's highlight is a red horizontal segment strictly between its two lines across its x-range, wide and transformed iff the captured transform is non-empty |
| Pipeline.VerticalHighlights | draw_walls.py:67-68 | each vertical wall's highlight is a red vertical segment along its y-range at the whole number just at or below the middle of its two x levels, with the same stroke rule |
| Pipeline.GrayHighlights | draw_walls.py:69-70 | each gray region's highlight is a red segment with the thin stroke and no transform, running along the longer side (from a.y to c.y when tagged vertical, from a.x to c.x otherwise) at the whole number just at or below the middle of the shorter side |
| Pipeline.ThinVerticalWallHighlightOutside | draw_walls.py:98-102 | vertical lines at x = 0.1 and x = 1.6 over y in [100, 200] give a candidate whose highlight lies at x = 0, left of the wall |
| Pipeline.HighlightsOrder | draw_walls.py:65-70 | the horizontal walls' highlights come first, then the vertical walls', then the gray regions', each in list order |
| Pipeline.OverlayStrokes | draw_walls.py:56-70 | every appended path is a red axis-parallel segment; only wall highlights can carry the wide stroke, and gray highlights never carry a transform |
| Pipeline.KeptHorizontalTieSwap | draw_walls.py:57-62 | the horizontal walls kept after the marker filter are the same, counted with multiplicity, for two orders of the lines that differ by a swap of neighbours at one level |
| Pipeline.DrawWallsAxisParallel | draw_walls.py:56-70 | for every decodable document every appended path is a red axis-parallel segment |
| Pipeline.KeepValidated | draw_walls.py:61-62 | the filter loop, one `enough_markers_inside` call per wall, keeps exactly what the filter specification keeps |
| Pipeline.AppendHighlights | draw_walls.py:65-70 | one append loop adds one highlight per area, in order |
| Pipeline.DrawWalls | draw_walls.py:56-70 | appends exactly the specified highlights for the document |

## Left out

- `convert_to_svg` (draw_walls.py:105-107) is left out. It runs an external converter in a
  subprocess; the model starts from the converted document.
- File handling in `draw_walls` is left out: reading the SVG file, `os.remove` and `cairosvg`
  PDF output (draw_walls.py:54-55, 73, 76). These are I/O. The exit-code test at line 53 goes
  with the conversion.
- The `__main__` argument parsing (draw_walls.py:205-209) is I/O and is left out.
- The XML tree is left out. `ET.parse`, `root.iter()` and the `ET.Element` construction are
  replaced by a sequence of element records in document order, and by the sequence of
  appended paths.
- `parse_rgb` (draw_walls.py:152-160) is kept only as the helper `Scene.ParseRgb`. Once the
  channels arrive decoded, it returns the channels of the `Rgb` constructor, so its content is
  stated through `Scene.GrayFillChannels`.
- `float(...)` on attribute text (draw_walls.py:115, 139, 156-158) is left out. Path tokens
  and `rgb` channels arrive already decoded. The structural tests stay in the model: the token
  count, `Z` at position 12, the `rgb(` prefix, and the dropped trailing unit.
- The `str(...)` formatting of the appended path's `d` attribute is left out. The model keeps
  the four numbers instead.
- IEEE floating-point rounding and non-finite values are left out. Coordinates are exact
  reals, and `//2` on a float is the floor of the exact half.
- The exceptions Python raises on malformed elements are not modelled. Their absence is the
  precondition `Scene.AllDecodable`.
- `blue_color` and `green_color` in `config.py` are left out because no code in the core uses
  them.
- Python's `sorted` is not modelled as such. The model uses a stable insertion sort whose
  result is proved ordered, a permutation and stable. These three facts fix the result
  uniquely, so it is the one `sorted` gives.
- Python's `list(filter(...))` is replaced by the loop `Pipeline.KeepValidated`, which makes
  the same calls in the same order.
