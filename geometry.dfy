/** The value types of the detector: points, lines and rectangular areas (draw_walls.py:9-47). */
module Geometry {

  datatype Point = Point(x: real, y: real)

  /** A segment from p1 to p2. */
  datatype Line = Line(p1: Point, p2: Point)

  /** The orientation tag of an area: 'h' or 'v' in the source. */
  datatype Orientation = Horizontal | Vertical

  /**
   * A wall region with its corners in order around it: `a` lower left, `b` upper left,
   * `c` upper right, `d` lower right.
   */
  datatype Area = Area(a: Point, b: Point, c: Point, d: Point, orientation: Orientation)

  function Abs(r: real): real {
    if r < 0.0 then -r else r
  }

  function Min(r: real, s: real): real {
    if r <= s then r else s
  }

  function Max(r: real, s: real): real {
    if r >= s then r else s
  }

  /** The coordinate a line of orientation `o` keeps fixed: y for horizontal lines, x for vertical ones. */
  function Level(o: Orientation, p: Point): real {
    if o == Horizontal then p.y else p.x
  }

  /** The coordinate that varies along a line of orientation `o`. */
  function Along(o: Orientation, p: Point): real {
    if o == Horizontal then p.x else p.y
  }

  /** A line of orientation `o` stored in canonical min-to-max order. */
  predicate IsCanonical(o: Orientation, l: Line) {
    Level(o, l.p1) == Level(o, l.p2) && Along(o, l.p1) <= Along(o, l.p2)
  }

  /** The axis-aligned-rectangle invariant of an area. */
  predicate IsRectangle(w: Area) {
    w.a.x == w.b.x && w.c.x == w.d.x && w.a.y == w.d.y && w.b.y == w.c.y
  }

  /** `is_inside`: the box test between corners a and c, boundaries included. */
  predicate IsInside(p: Point, w: Area) {
    w.a.x <= p.x <= w.c.x && w.a.y <= p.y <= w.c.y
  }

  /**
   * Containment is inclusive: for a rectangle whose corner a is its lower-left one, a point
   * is inside exactly when it lies in the closed box spanned by the four corners, so every
   * corner, and so every point on an edge, is inside.
   */
  lemma InsideIsInclusive(p: Point, w: Area)
    requires IsRectangle(w) && w.a.x <= w.d.x && w.a.y <= w.b.y
    ensures IsInside(p, w) <==>
      Min(Min(w.a.x, w.b.x), Min(w.c.x, w.d.x)) <= p.x <= Max(Max(w.a.x, w.b.x), Max(w.c.x, w.d.x)) &&
      Min(Min(w.a.y, w.b.y), Min(w.c.y, w.d.y)) <= p.y <= Max(Max(w.a.y, w.b.y), Max(w.c.y, w.d.y))
    ensures IsInside(w.a, w) && IsInside(w.b, w) && IsInside(w.c, w) && IsInside(w.d, w)
  {
  }
}
