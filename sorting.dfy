/**
 * `sorted(lines, key=lambda x: x.p1.y)` and `key=lambda x: x.p1.x` (draw_walls.py:57-58): a
 * stable sort of lines by the fixed coordinate of their first endpoint. The model sorts by
 * insertion; being sorted, a permutation and stable, its result is the one Python's sort gives.
 */
module Sorting {
  import opened Geometry

  /** Lines sorted by their fixed coordinate. */
  predicate SortedByLevel(o: Orientation, lines: seq<Line>) {
    forall i, j :: 0 <= i < j < |lines| ==> Level(o, lines[i].p1) <= Level(o, lines[j].p1)
  }

  /** Puts `x` before the first line whose level is not below its own. */
  function Insert(o: Orientation, x: Line, lines: seq<Line>): seq<Line> {
    if lines == [] || Level(o, x.p1) <= Level(o, lines[0].p1) then [x] + lines
    else [lines[0]] + Insert(o, x, lines[1..])
  }

  function SortByLevel(o: Orientation, lines: seq<Line>): seq<Line> {
    if lines == [] then [] else Insert(o, lines[0], SortByLevel(o, lines[1..]))
  }

  /** The lines of `lines` whose level is `v`, in their order. */
  function AtLevel(o: Orientation, lines: seq<Line>, v: real): seq<Line> {
    if lines == [] then []
    else (if Level(o, lines[0].p1) == v then [lines[0]] else []) + AtLevel(o, lines[1..], v)
  }

  lemma {:induction false} InsertPermutes(o: Orientation, x: Line, lines: seq<Line>)
    ensures multiset(Insert(o, x, lines)) == multiset(lines) + multiset{x}
  {
    if lines != [] && Level(o, x.p1) > Level(o, lines[0].p1) {
      InsertPermutes(o, x, lines[1..]);
      assert lines == [lines[0]] + lines[1..];
    }
  }

  /** A line no higher than every line of a sorted sequence can go in front of it. */
  lemma SortedCons(o: Orientation, h: Line, r: seq<Line>)
    requires SortedByLevel(o, r)
    requires forall k :: 0 <= k < |r| ==> Level(o, h.p1) <= Level(o, r[k].p1)
    ensures SortedByLevel(o, [h] + r)
  {
    var q := [h] + r;
    forall i, j | 0 <= i < j < |q|
      ensures Level(o, q[i].p1) <= Level(o, q[j].p1)
    {
      assert q[j] == r[j - 1];
      if i > 0 {
        assert q[i] == r[i - 1];
      }
    }
  }

  /** A bound below `x` and below every line of `lines` is below every line of the insertion. */
  lemma InsertBelow(o: Orientation, x: Line, lines: seq<Line>, v: real)
    requires v <= Level(o, x.p1)
    requires forall k :: 0 <= k < |lines| ==> v <= Level(o, lines[k].p1)
    ensures forall k :: 0 <= k < |Insert(o, x, lines)| ==> v <= Level(o, Insert(o, x, lines)[k].p1)
  {
    var r := Insert(o, x, lines);
    InsertPermutes(o, x, lines);
    forall k | 0 <= k < |r|
      ensures v <= Level(o, r[k].p1)
    {
      assert r[k] in multiset(r);
      if r[k] != x {
        assert r[k] in multiset(lines);
        var m :| 0 <= m < |lines| && lines[m] == r[k];
      }
    }
  }

  lemma {:induction false} InsertKeepsSorted(o: Orientation, x: Line, lines: seq<Line>)
    requires SortedByLevel(o, lines)
    ensures SortedByLevel(o, Insert(o, x, lines))
  {
    if lines == [] || Level(o, x.p1) <= Level(o, lines[0].p1) {
      SortedCons(o, x, lines);
    } else {
      var tail := lines[1..];
      InsertKeepsSorted(o, x, tail);
      InsertBelow(o, x, tail, Level(o, lines[0].p1));
      SortedCons(o, lines[0], Insert(o, x, tail));
    }
  }

  lemma {:induction false} InsertStable(o: Orientation, x: Line, lines: seq<Line>, v: real)
    requires SortedByLevel(o, lines)
    ensures AtLevel(o, Insert(o, x, lines), v) == (if Level(o, x.p1) == v then [x] else []) + AtLevel(o, lines, v)
  {
    if lines != [] && Level(o, x.p1) > Level(o, lines[0].p1) {
      InsertStable(o, x, lines[1..], v);
      assert Insert(o, x, lines)[1..] == Insert(o, x, lines[1..]);
    }
  }

  /**
   * The sorted lines are ordered by level, are a permutation of the input, and lines of equal
   * level keep their input order.
   */
  lemma {:induction false} SortByLevelSpec(o: Orientation, lines: seq<Line>)
    ensures SortedByLevel(o, SortByLevel(o, lines))
    ensures multiset(SortByLevel(o, lines)) == multiset(lines)
    ensures forall v :: AtLevel(o, SortByLevel(o, lines), v) == AtLevel(o, lines, v)
  {
    if lines != [] {
      SortByLevelSpec(o, lines[1..]);
      var rest := SortByLevel(o, lines[1..]);
      InsertKeepsSorted(o, lines[0], rest);
      InsertPermutes(o, lines[0], rest);
      assert lines == [lines[0]] + lines[1..];
      forall v ensures AtLevel(o, SortByLevel(o, lines), v) == AtLevel(o, lines, v) {
        InsertStable(o, lines[0], rest, v);
      }
    }
  }
}
