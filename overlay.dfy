/** The highlight drawn for an accepted wall region (draw_walls.py:98-103). */
module Overlay {
  import opened Config
  import opened Optional
  import opened Geometry

  /** The appended path `M x1 y1 L x2 y2` with its stroke attributes. */
  datatype OverlayPath = OverlayPath(x1: real, y1: real, x2: real, y2: real,
                                     strokeWidth: string, stroke: string, transform: string)

  /** Python's `s // 2` on a float: the floor of the half, as a real. */
  function HalfFloor(s: real): real {
    (s / 2.0).Floor as real
  }

  /** Python truthiness of the optional transform: absent and the empty string are both false. */
  predicate HasTransform(transform: Option<string>) {
    transform.Some? && transform.value != ""
  }

  /** `wall_element`: the midline of `w`, drawn in red, transformed when a transform is given. */
  function WallElement(w: Area, transform: Option<string>): OverlayPath {
    var x1 := if w.orientation == Horizontal then w.a.x else HalfFloor(w.a.x + w.d.x);
    var y1 := if w.orientation == Horizontal then HalfFloor(w.a.y + w.b.y) else w.a.y;
    var x2 := if w.orientation == Horizontal then w.c.x else HalfFloor(w.b.x + w.c.x);
    var y2 := if w.orientation == Horizontal then HalfFloor(w.a.y + w.b.y) else w.c.y;
    OverlayPath(x1, y1, x2, y2,
                if HasTransform(transform) then DrawWidth else NoTransformationDrawWidth,
                RedColor,
                if HasTransform(transform) then transform.value else "")
  }

  /**
   * The highlight of a rectangle is its midline: for a horizontal area a horizontal segment from
   * the a/b side to the c/d side at the floored mean of the two y levels, for a vertical one a
   * vertical segment from a.y to c.y at the floored mean of the two x levels. The floored mean is
   * the whole number at or just below the mean, so it lies within one unit below the middle.
   */
  lemma WallElementMidline(w: Area, transform: Option<string>)
    requires IsRectangle(w)
    ensures var p := WallElement(w, transform);
      && p.stroke == RedColor
      && (w.orientation == Horizontal ==>
            && p.y1 == p.y2 && p.x1 == w.a.x && p.x2 == w.c.x
            && p.y1 == p.y1.Floor as real
            && p.y1 <= (w.a.y + w.b.y) / 2.0 < p.y1 + 1.0)
      && (w.orientation == Vertical ==>
            && p.x1 == p.x2 && p.y1 == w.a.y && p.y2 == w.c.y
            && p.x1 == p.x1.Floor as real
            && p.x1 <= (w.a.x + w.d.x) / 2.0 < p.x1 + 1.0)
  {
  }

  /**
   * The stroke width is DrawWidth exactly when a non-empty transform is given, which is then
   * copied onto the highlight; otherwise the thinner NoTransformationDrawWidth and no transform.
   */
  lemma WallElementStroke(w: Area, transform: Option<string>)
    ensures var p := WallElement(w, transform);
      && (p.strokeWidth == DrawWidth <==> HasTransform(transform))
      && (p.strokeWidth == NoTransformationDrawWidth <==> !HasTransform(transform))
      && (HasTransform(transform) ==> p.transform == transform.value)
      && (!HasTransform(transform) ==> p.transform == "")
  {
  }
}
