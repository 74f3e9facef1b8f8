/**
 * Pairing of parallel wall lines into wall candidates (draw_walls.py:162-200).
 *
 * The specification is one function per orientation-generic step: `Scan` is the inner
 * loop over the lines after a given one, `Candidates` the outer loop. The two methods are
 * written as the source writes its two extractors and are proved equal to `Candidates`.
 * The vertical extractor's break test compares `line.p1.x` with `next_line.p1.y`
 * (draw_walls.py:173); `PruneGap` keeps that comparison.
 */
module WallCandidates {
  import opened Config
  import opened Geometry
  import opened Sorting

  /** Distance between the fixed coordinates of two lines. */
  function Gap(o: Orientation, line: Line, next: Line): real {
    Abs(Level(o, line.p1) - Level(o, next.p1))
  }

  /** The two lines lie on one face: skipped, the scan goes on. */
  predicate SameLevel(o: Orientation, line: Line, next: Line) {
    Gap(o, line, next) < SameLevelBound
  }

  /** `next` lies wholly before or after `line` along the lines' own axis: skipped, the scan goes on. */
  predicate Disjoint(o: Orientation, line: Line, next: Line) {
    Along(o, next.p1) > Along(o, line.p2) || Along(o, next.p2) < Along(o, line.p1)
  }

  /**
   * The distance the break test measures: the fixed-coordinate gap for horizontal lines
   * (draw_walls.py:193), but `line.p1.x` against `next.p1.y` for vertical ones (draw_walls.py:173).
   */
  function PruneGap(o: Orientation, line: Line, next: Line): real {
    if o == Horizontal then Abs(line.p1.y - next.p1.y) else Abs(line.p1.x - next.p1.y)
  }

  /** The pair reaches the break test and the break fires: the inner scan stops. */
  predicate Prunes(o: Orientation, line: Line, next: Line) {
    !SameLevel(o, line, next) && !Disjoint(o, line, next) && PruneGap(o, line, next) < WidthLowerBound
  }

  /** The pair passes every test and an area is emitted for it. */
  predicate Accepted(o: Orientation, line: Line, next: Line) {
    && !SameLevel(o, line, next)
    && !Disjoint(o, line, next)
    && PruneGap(o, line, next) >= WidthLowerBound
    && Gap(o, line, next) <= WidthUpperBound
  }

  /** The area between two paired lines over their common span (draw_walls.py:177-179, 197-199). */
  function Candidate(o: Orientation, line: Line, next: Line): Area {
    if o == Horizontal then
      var x1 := Max(line.p1.x, next.p1.x);
      var x2 := Min(line.p2.x, next.p2.x);
      Area(Point(x1, line.p1.y), Point(x1, next.p1.y), Point(x2, next.p1.y), Point(x2, line.p1.y), Horizontal)
    else
      var y1 := Max(line.p1.y, next.p1.y);
      var y2 := Min(line.p2.y, next.p2.y);
      Area(Point(line.p1.x, y1), Point(line.p1.x, y2), Point(next.p1.x, y2), Point(next.p1.x, y1), Vertical)
  }

  /** The inner loop: the areas emitted for `line` while scanning `lines[j..]` in order. */
  function Scan(o: Orientation, line: Line, lines: seq<Line>, j: nat): seq<Area>
    decreases |lines| - j
  {
    if j >= |lines| then []
    else if SameLevel(o, line, lines[j]) || Disjoint(o, line, lines[j]) then Scan(o, line, lines, j + 1)
    else if PruneGap(o, line, lines[j]) < WidthLowerBound then []
    else if Gap(o, line, lines[j]) <= WidthUpperBound then [Candidate(o, line, lines[j])] + Scan(o, line, lines, j + 1)
    else Scan(o, line, lines, j + 1)
  }

  /** The outer loop from index `i` on; the last line starts no scan (`lines[0:-1]`). */
  function CandidatesFrom(o: Orientation, lines: seq<Line>, i: nat): seq<Area>
    decreases |lines| - i
  {
    if i + 1 >= |lines| then [] else Scan(o, lines[i], lines, i + 1) + CandidatesFrom(o, lines, i + 1)
  }

  function Candidates(o: Orientation, lines: seq<Line>): seq<Area> {
    CandidatesFrom(o, lines, 0)
  }

  /** The scan started at line i emits the pair (i, k). */
  predicate PairEmitted(o: Orientation, lines: seq<Line>, i: int, k: int) {
    0 <= i < |lines| && EmittedAt(o, lines[i], lines, i + 1, k)
  }

  /** A scan of `lines` from `j` on reaches `lines[k]` without being stopped, and accepts it. */
  predicate EmittedAt(o: Orientation, line: Line, lines: seq<Line>, j: int, k: int) {
    && 0 <= j <= k < |lines|
    && Accepted(o, line, lines[k])
    && forall m :: j <= m < k ==> !Prunes(o, line, lines[m])
  }

  // ---------------------------------------------------------------------------------------
  // What the scans emit.

  /**
   * The inner scan emits exactly the areas of the pairs it accepts before the first pair that
   * fires the break test: same-level and non-overlapping pairs are skipped without ending it.
   */
  lemma {:induction false} ScanEmits(o: Orientation, line: Line, lines: seq<Line>, j: nat, w: Area)
    ensures w in Scan(o, line, lines, j) <==>
      exists k :: EmittedAt(o, line, lines, j, k) && w == Candidate(o, line, lines[k])
    decreases |lines| - j
  {
    if j < |lines| {
      ScanEmits(o, line, lines, j + 1, w);
      var next := lines[j];
      if !Accepted(o, line, next) && !Prunes(o, line, next) {
        assert Scan(o, line, lines, j) == Scan(o, line, lines, j + 1);
        if k :| EmittedAt(o, line, lines, j, k) && w == Candidate(o, line, lines[k]) {
          assert EmittedAt(o, line, lines, j + 1, k);
        }
        if k :| EmittedAt(o, line, lines, j + 1, k) && w == Candidate(o, line, lines[k]) {
          assert EmittedAt(o, line, lines, j, k);
        }
      } else if Prunes(o, line, next) {
        assert Scan(o, line, lines, j) == [];
        assert !exists k :: EmittedAt(o, line, lines, j, k);
      } else {
        assert Scan(o, line, lines, j) == [Candidate(o, line, next)] + Scan(o, line, lines, j + 1);
        if w == Candidate(o, line, next) {
          assert EmittedAt(o, line, lines, j, j);
        }
        if k :| EmittedAt(o, line, lines, j, k) && w == Candidate(o, line, lines[k]) {
          if k != j {
            assert EmittedAt(o, line, lines, j + 1, k);
          }
        }
        if k :| EmittedAt(o, line, lines, j + 1, k) && w == Candidate(o, line, lines[k]) {
          assert EmittedAt(o, line, lines, j, k);
        }
      }
    }
  }

  /**
   * Pruning: once a pair fires the break test, the scan emits nothing with that line or any
   * later one, so it emits what a scan of the lines before it would.
   */
  lemma {:induction false} ScanPruned(o: Orientation, line: Line, lines: seq<Line>, j: nat, m: nat)
    requires j <= m < |lines| && Prunes(o, line, lines[m])
    ensures Scan(o, line, lines, j) == Scan(o, line, lines[..m], j)
    decreases m - j
  {
    if j < m {
      assert lines[..m][j] == lines[j];
      ScanPruned(o, line, lines, j + 1, m);
    }
  }

  /** Some scan started at line i or later emits `w`. */
  predicate EmittedFrom(o: Orientation, lines: seq<Line>, i: nat, w: Area) {
    exists p, k | i <= p < |lines| && 0 <= k < |lines| :: PairEmitted(o, lines, p, k) && w == Candidate(o, lines[p], lines[k])
  }

  /** A scan from line i or later is the scan from line i itself or one from line i + 1 or later. */
  lemma EmittedFromStep(o: Orientation, lines: seq<Line>, i: nat, w: Area)
    requires i < |lines|
    ensures EmittedFrom(o, lines, i, w) <==>
      (exists k :: EmittedAt(o, lines[i], lines, i + 1, k) && w == Candidate(o, lines[i], lines[k]))
      || EmittedFrom(o, lines, i + 1, w)
  {
    if EmittedFrom(o, lines, i, w) {
      var p: int, k: int :| i <= p && PairEmitted(o, lines, p, k) && w == Candidate(o, lines[p], lines[k]);
      assert PairEmitted(o, lines, p, k);
      if p == i {
        assert PairEmitted(o, lines, i, k);
        assert EmittedAt(o, lines[i], lines, i + 1, k);
      } else {
        assert i + 1 <= p;
      }
    }
    if k :| EmittedAt(o, lines[i], lines, i + 1, k) && w == Candidate(o, lines[i], lines[k]) {
      assert PairEmitted(o, lines, i, k);
    }
  }

  /**
   * The candidates are exactly the areas of the pairs (i, k), i < k, that the scan started at
   * line i accepts before it is stopped.
   */
  lemma {:induction false} CandidatesFromEmit(o: Orientation, lines: seq<Line>, i: nat, w: Area)
    ensures w in CandidatesFrom(o, lines, i) <==> EmittedFrom(o, lines, i, w)
    decreases |lines| - i
  {
    if i + 1 < |lines| {
      var line := lines[i];
      assert CandidatesFrom(o, lines, i) == Scan(o, line, lines, i + 1) + CandidatesFrom(o, lines, i + 1);
      CandidatesFromEmit(o, lines, i + 1, w);
      ScanEmits(o, line, lines, i + 1, w);
      EmittedFromStep(o, lines, i, w);
    } else {
      assert forall p, k :: i <= p ==> !PairEmitted(o, lines, p, k);
    }
  }

  lemma CandidatesEmit(o: Orientation, lines: seq<Line>, w: Area)
    ensures w in Candidates(o, lines) <==>
      exists i, k :: PairEmitted(o, lines, i, k) && w == Candidate(o, lines[i], lines[k])
  {
    CandidatesFromEmit(o, lines, 0, w);
  }

  /**
   * Every horizontal candidate of sorted canonical lines is an axis-aligned rectangle whose
   * bottom side is on the earlier line and whose top side is on the later one, whose x-extent
   * is the common span (max of the starts to min of the ends), and whose height lies in the
   * thickness window [WidthLowerBound, WidthUpperBound].
   */
  lemma HorizontalCandidatesShape(lines: seq<Line>, w: Area)
    requires SortedByLevel(Horizontal, lines)
    requires forall l :: l in lines ==> IsCanonical(Horizontal, l)
    requires w in Candidates(Horizontal, lines)
    ensures IsRectangle(w) && w.orientation == Horizontal
    ensures w.a.x <= w.c.x
    ensures WidthLowerBound <= w.b.y - w.a.y <= WidthUpperBound
    ensures exists i, k :: (0 <= i < k < |lines| &&
      w.a.y == lines[i].p1.y && w.b.y == lines[k].p1.y &&
      w.a.x == Max(lines[i].p1.x, lines[k].p1.x) && w.c.x == Min(lines[i].p2.x, lines[k].p2.x))
  {
    CandidatesEmit(Horizontal, lines, w);
    var i, k :| PairEmitted(Horizontal, lines, i, k) && w == Candidate(Horizontal, lines[i], lines[k]);
    assert lines[i] in lines && lines[k] in lines;
    assert Level(Horizontal, lines[i].p1) <= Level(Horizontal, lines[k].p1);
  }

  /**
   * Every vertical candidate of sorted canonical lines is an axis-aligned rectangle whose left
   * side is on the earlier line and whose right side is on the later one, with the common span
   * as its y-extent. Its width is only known to lie in [SameLevelBound, WidthUpperBound]: the
   * break test measures `line.p1.x` against `next.p1.y`, not the width.
   */
  lemma VerticalCandidatesShape(lines: seq<Line>, w: Area)
    requires SortedByLevel(Vertical, lines)
    requires forall l :: l in lines ==> IsCanonical(Vertical, l)
    requires w in Candidates(Vertical, lines)
    ensures IsRectangle(w) && w.orientation == Vertical
    ensures w.a.y <= w.b.y
    ensures SameLevelBound <= w.c.x - w.a.x <= WidthUpperBound
    ensures exists i, k :: (0 <= i < k < |lines| &&
      w.a.x == lines[i].p1.x && w.c.x == lines[k].p1.x &&
      w.a.y == Max(lines[i].p1.y, lines[k].p1.y) && w.b.y == Min(lines[i].p2.y, lines[k].p2.y) &&
      Abs(lines[i].p1.x - lines[k].p1.y) >= WidthLowerBound)
  {
    CandidatesEmit(Vertical, lines, w);
    var i, k :| PairEmitted(Vertical, lines, i, k) && w == Candidate(Vertical, lines[i], lines[k]);
    assert lines[i] in lines && lines[k] in lines;
    assert Level(Vertical, lines[i].p1) <= Level(Vertical, lines[k].p1);
  }

  // ---------------------------------------------------------------------------------------
  // Worked scenarios.

  /** Lines at y = 100 over x in [0, 50] and y = 130 over x in [10, 60] give one area over x in [10, 50]. */
  lemma HorizontalPairExample()
    ensures Candidates(Horizontal, [Line(Point(0.0, 100.0), Point(50.0, 100.0)), Line(Point(10.0, 130.0), Point(60.0, 130.0))])
         == [Area(Point(10.0, 100.0), Point(10.0, 130.0), Point(50.0, 130.0), Point(50.0, 100.0), Horizontal)]
  {
  }

  /** The same lines at y = 100 and y = 110 are 10 apart, below the window: no area. */
  lemma HorizontalThinPairRejected()
    ensures Candidates(Horizontal, [Line(Point(0.0, 100.0), Point(50.0, 100.0)), Line(Point(10.0, 110.0), Point(60.0, 110.0))]) == []
  {
  }

  /**
   * Pruning hides a later partner: of lines at y = 100, 110 and 130 over x in [0, 50], the first
   * and last are 30 apart, inside the window, but the line at 110 stops the first scan before it.
   */
  lemma PruningHidesLaterPartner()
    ensures var lines := [Line(Point(0.0, 100.0), Point(50.0, 100.0)), Line(Point(0.0, 110.0), Point(50.0, 110.0)),
                          Line(Point(0.0, 130.0), Point(50.0, 130.0))];
            Accepted(Horizontal, lines[0], lines[2]) && Candidates(Horizontal, lines) == []
  {
  }

  /**
   * As written, the vertical break test compares an x with a y: lines at x = 0 and x = 10 over
   * y in [100, 200] are 10 apart, below the window, yet they give an area.
   */
  lemma VerticalThinPairAccepted()
    ensures var lines := [Line(Point(0.0, 100.0), Point(0.0, 200.0)), Line(Point(10.0, 100.0), Point(10.0, 200.0))];
            Gap(Vertical, lines[0], lines[1]) < WidthLowerBound &&
            Candidates(Vertical, lines) == [Area(Point(0.0, 100.0), Point(0.0, 200.0), Point(10.0, 200.0), Point(10.0, 100.0), Vertical)]
  {
  }

  /**
   * The vertical result depends on the input order of lines at the same level: A and B both
   * sit at x = 30 and sorting keeps either order, but A's start trips the break test for L
   * (|0 - 10| < 25) before B is reached, while B first (|0 - 40| >= 25) is paired with L.
   */
  lemma VerticalOrderDependent()
    ensures var l := Line(Point(0.0, 0.0), Point(0.0, 100.0));
      var a := Line(Point(30.0, 10.0), Point(30.0, 50.0));
      var b := Line(Point(30.0, 40.0), Point(30.0, 90.0));
      && SortByLevel(Vertical, [l, a, b]) == [l, a, b]
      && SortByLevel(Vertical, [l, b, a]) == [l, b, a]
      && Candidates(Vertical, SortByLevel(Vertical, [l, a, b])) == []
      && Candidates(Vertical, SortByLevel(Vertical, [l, b, a])) == [Candidate(Vertical, l, b)]
  {
    var l := Line(Point(0.0, 0.0), Point(0.0, 100.0));
    var a := Line(Point(30.0, 10.0), Point(30.0, 50.0));
    var b := Line(Point(30.0, 40.0), Point(30.0, 90.0));
    assert [l, a, b][1..] == [a, b] && [a, b][1..] == [b] && [b][1..] == [];
    assert [l, b, a][1..] == [b, a] && [b, a][1..] == [a] && [a][1..] == [];
    assert SortByLevel(Vertical, [b]) == Insert(Vertical, b, []) == [b];
    assert SortByLevel(Vertical, [a]) == Insert(Vertical, a, []) == [a];
    assert SortByLevel(Vertical, [a, b]) == [a, b] && SortByLevel(Vertical, [b, a]) == [b, a];
    var first, second := [l, a, b], [l, b, a];
    assert Prunes(Vertical, l, a) && SameLevel(Vertical, a, b) && SameLevel(Vertical, b, a);
    assert Accepted(Vertical, l, b);
    assert Scan(Vertical, l, first, 1) == [];
    assert Scan(Vertical, a, first, 2) == Scan(Vertical, a, first, 3) == [];
    assert CandidatesFrom(Vertical, first, 2) == [];
    assert CandidatesFrom(Vertical, first, 1) == [];
    assert Scan(Vertical, l, second, 2) == [];
    assert Scan(Vertical, l, second, 1) == [Candidate(Vertical, l, b)];
    assert Scan(Vertical, b, second, 2) == Scan(Vertical, b, second, 3) == [];
    assert CandidatesFrom(Vertical, second, 2) == [];
    assert CandidatesFrom(Vertical, second, 1) == [];
  }

  // ---------------------------------------------------------------------------------------
  // Horizontal lines at the same level may come in either order.

  /** Two line sequences of one length that agree from position j on. */
  predicate AgreeFrom(lines: seq<Line>, other: seq<Line>, j: nat) {
    |lines| == |other| && forall k :: j <= k < |lines| ==> lines[k] == other[k]
  }

  /** A scan from j on reads only the lines from j on. */
  lemma {:induction false} ScanAgree(o: Orientation, line: Line, lines: seq<Line>, other: seq<Line>, j: nat)
    requires AgreeFrom(lines, other, j)
    ensures Scan(o, line, lines, j) == Scan(o, line, other, j)
    decreases |lines| - j
  {
    if j < |lines| {
      assert lines[j] == other[j];
      ScanAgree(o, line, lines, other, j + 1);
    }
  }

  /** The outer loop from i on reads only the lines from i on. */
  lemma {:induction false} CandidatesFromAgree(o: Orientation, lines: seq<Line>, other: seq<Line>, i: nat)
    requires AgreeFrom(lines, other, i)
    ensures CandidatesFrom(o, lines, i) == CandidatesFrom(o, other, i)
    decreases |lines| - i
  {
    if i + 1 < |lines| {
      assert lines[i] == other[i];
      ScanAgree(o, lines[i], lines, other, i + 1);
      CandidatesFromAgree(o, lines, other, i + 1);
    }
  }

  /** `lines` with its neighbours at t and t + 1 exchanged. */
  function SwapAt(lines: seq<Line>, t: nat): (swapped: seq<Line>)
    requires t + 1 < |lines|
    ensures |swapped| == |lines| && swapped[t] == lines[t + 1] && swapped[t + 1] == lines[t]
    ensures forall k :: 0 <= k < |lines| && k != t && k != t + 1 ==> swapped[k] == lines[k]
  {
    lines[t := lines[t + 1]][t + 1 := lines[t]]
  }

  /**
   * A horizontal scan meeting two lines at one level passes them the same way in either order:
   * both are skipped, the scan stops at whichever overlaps first, or each overlapping one is paired.
   */
  lemma ScanTiePair(line: Line, lines: seq<Line>, t: nat)
    requires t + 1 < |lines| && lines[t].p1.y == lines[t + 1].p1.y
    ensures multiset(Scan(Horizontal, line, lines, t)) == multiset(Scan(Horizontal, line, SwapAt(lines, t), t))
  {
    var swapped := SwapAt(lines, t);
    ScanAgree(Horizontal, line, lines, swapped, t + 2);
    var a, b := lines[t], lines[t + 1];
    assert SameLevel(Horizontal, line, a) == SameLevel(Horizontal, line, b);
    assert PruneGap(Horizontal, line, a) == PruneGap(Horizontal, line, b);
    assert Gap(Horizontal, line, a) == Gap(Horizontal, line, b);
  }

  lemma {:induction false} ScanTieSwap(line: Line, lines: seq<Line>, t: nat, j: nat)
    requires t + 1 < |lines| && lines[t].p1.y == lines[t + 1].p1.y && j <= t
    ensures multiset(Scan(Horizontal, line, lines, j)) == multiset(Scan(Horizontal, line, SwapAt(lines, t), j))
    decreases t - j
  {
    if j == t {
      ScanTiePair(line, lines, t);
    } else {
      assert SwapAt(lines, t)[j] == lines[j];
      ScanTieSwap(line, lines, t, j + 1);
    }
  }

  /** From the first line of the pair on, each of the two lines scans the same later lines. */
  lemma CandidatesFromTiePair(lines: seq<Line>, t: nat)
    requires t + 1 < |lines| && lines[t].p1.y == lines[t + 1].p1.y
    ensures multiset(CandidatesFrom(Horizontal, lines, t)) == multiset(CandidatesFrom(Horizontal, SwapAt(lines, t), t))
  {
    var swapped := SwapAt(lines, t);
    var a, b := lines[t], lines[t + 1];
    ScanAgree(Horizontal, a, lines, swapped, t + 2);
    ScanAgree(Horizontal, b, lines, swapped, t + 2);
    CandidatesFromAgree(Horizontal, lines, swapped, t + 2);
    var sa, sb, rest := Scan(Horizontal, a, lines, t + 2), Scan(Horizontal, b, lines, t + 2), CandidatesFrom(Horizontal, lines, t + 2);
    assert SameLevel(Horizontal, a, b) && SameLevel(Horizontal, b, a);
    assert CandidatesFrom(Horizontal, lines, t + 1) == sb + rest;
    assert CandidatesFrom(Horizontal, lines, t) == sa + (sb + rest);
    assert CandidatesFrom(Horizontal, swapped, t + 1) == sa + rest;
    assert CandidatesFrom(Horizontal, swapped, t) == sb + (sa + rest);
  }

  lemma {:induction false} CandidatesFromTieSwap(lines: seq<Line>, t: nat, i: nat)
    requires t + 1 < |lines| && lines[t].p1.y == lines[t + 1].p1.y && i <= t
    ensures multiset(CandidatesFrom(Horizontal, lines, i)) == multiset(CandidatesFrom(Horizontal, SwapAt(lines, t), i))
    decreases t - i
  {
    if i == t {
      CandidatesFromTiePair(lines, t);
    } else {
      var swapped := SwapAt(lines, t);
      assert swapped[i] == lines[i];
      var scanned, scannedSwapped := Scan(Horizontal, lines[i], lines, i + 1), Scan(Horizontal, lines[i], swapped, i + 1);
      var later, laterSwapped := CandidatesFrom(Horizontal, lines, i + 1), CandidatesFrom(Horizontal, swapped, i + 1);
      assert CandidatesFrom(Horizontal, lines, i) == scanned + later;
      assert CandidatesFrom(Horizontal, swapped, i) == scannedSwapped + laterSwapped;
      ScanTieSwap(lines[i], lines, t, i + 1);
      CandidatesFromTieSwap(lines, t, i + 1);
      assert multiset(scanned + later) == multiset(scanned) + multiset(later);
      assert multiset(scannedSwapped + laterSwapped) == multiset(scannedSwapped) + multiset(laterSwapped);
    }
  }

  /**
   * Horizontal wall candidates do not depend on the order of lines at the same level:
   * exchanging two neighbouring lines of equal y gives the same candidates, counted with
   * multiplicity (possibly in another order).
   */
  lemma HorizontalTieSwap(lines: seq<Line>, t: nat)
    requires t + 1 < |lines| && lines[t].p1.y == lines[t + 1].p1.y
    ensures multiset(Candidates(Horizontal, lines)) == multiset(Candidates(Horizontal, lines[t := lines[t + 1]][t + 1 := lines[t]]))
  {
    CandidatesFromTieSwap(lines, t, 0);
  }

  // ---------------------------------------------------------------------------------------
  // The two extractors, as written in the source.

  /** The inner loop of draw_walls.py:164-179: appends the areas `line` forms with `lines[start..]`. */
  method ScanVerticalPartners(walls: seq<Area>, line: Line, lines: seq<Line>, start: nat) returns (next: seq<Area>)
    requires start <= |lines|
    ensures next == walls + Scan(Vertical, line, lines, start)
  {
    next := walls;
    for j := start to |lines|
      invariant next + Scan(Vertical, line, lines, j) == walls + Scan(Vertical, line, lines, start)
    {
      var nextLine := lines[j];
      if Abs(line.p1.x - nextLine.p1.x) < SameLevelBound {
        assert Scan(Vertical, line, lines, j) == Scan(Vertical, line, lines, j + 1);
        continue;
      }
      if nextLine.p1.y > line.p2.y || nextLine.p2.y < line.p1.y {
        assert Scan(Vertical, line, lines, j) == Scan(Vertical, line, lines, j + 1);
        continue;
      }
      if Abs(line.p1.x - nextLine.p1.y) < WidthLowerBound {
        assert Scan(Vertical, line, lines, j) == [];
        break;
      }
      if Abs(line.p1.x - nextLine.p1.x) <= WidthUpperBound {
        var y1 := Max(line.p1.y, nextLine.p1.y);
        var y2 := Min(line.p2.y, nextLine.p2.y);
        assert Scan(Vertical, line, lines, j) == [Candidate(Vertical, line, nextLine)] + Scan(Vertical, line, lines, j + 1);
        next := next + [Area(Point(line.p1.x, y1), Point(line.p1.x, y2), Point(nextLine.p1.x, y2), Point(nextLine.p1.x, y1), Vertical)];
      } else {
        assert Scan(Vertical, line, lines, j) == Scan(Vertical, line, lines, j + 1);
      }
    }
  }

  /** `extract_vertical_walls_candidates` (draw_walls.py:162-180). */
  method ExtractVerticalWallsCandidates(lines: seq<Line>) returns (walls: seq<Area>)
    ensures walls == Candidates(Vertical, lines)
  {
    walls := [];
    var index := 0;
    while index + 1 < |lines|
      invariant 0 <= index
      invariant walls + CandidatesFrom(Vertical, lines, index) == Candidates(Vertical, lines)
    {
      walls := ScanVerticalPartners(walls, lines[index], lines, index + 1);
      index := index + 1;
    }
  }

  /** The inner loop of draw_walls.py:184-199: appends the areas `line` forms with `lines[start..]`. */
  method ScanHorizontalPartners(walls: seq<Area>, line: Line, lines: seq<Line>, start: nat) returns (next: seq<Area>)
    requires start <= |lines|
    ensures next == walls + Scan(Horizontal, line, lines, start)
  {
    next := walls;
    for j := start to |lines|
      invariant next + Scan(Horizontal, line, lines, j) == walls + Scan(Horizontal, line, lines, start)
    {
      var nextLine := lines[j];
      if Abs(line.p1.y - nextLine.p1.y) < SameLevelBound {
        assert Scan(Horizontal, line, lines, j) == Scan(Horizontal, line, lines, j + 1);
        continue;
      }
      if nextLine.p1.x > line.p2.x || nextLine.p2.x < line.p1.x {
        assert Scan(Horizontal, line, lines, j) == Scan(Horizontal, line, lines, j + 1);
        continue;
      }
      if Abs(line.p1.y - nextLine.p1.y) < WidthLowerBound {
        assert Scan(Horizontal, line, lines, j) == [];
        break;
      }
      if Abs(line.p1.y - nextLine.p1.y) <= WidthUpperBound {
        var x1 := Max(line.p1.x, nextLine.p1.x);
        var x2 := Min(line.p2.x, nextLine.p2.x);
        assert Scan(Horizontal, line, lines, j) == [Candidate(Horizontal, line, nextLine)] + Scan(Horizontal, line, lines, j + 1);
        next := next + [Area(Point(x1, line.p1.y), Point(x1, nextLine.p1.y), Point(x2, nextLine.p1.y), Point(x2, line.p1.y), Horizontal)];
      } else {
        assert Scan(Horizontal, line, lines, j) == Scan(Horizontal, line, lines, j + 1);
      }
    }
  }

  /** `extract_horizontal_walls_candidates` (draw_walls.py:182-200). */
  method ExtractHorizontalWallsCandidates(lines: seq<Line>) returns (walls: seq<Area>)
    ensures walls == Candidates(Horizontal, lines)
  {
    walls := [];
    var index := 0;
    while index + 1 < |lines|
      invariant 0 <= index
      invariant walls + CandidatesFrom(Horizontal, lines, index) == Candidates(Horizontal, lines)
    {
      walls := ScanHorizontalPartners(walls, lines[index], lines, index + 1);
      index := index + 1;
    }
  }
}
