/** Tuning values of the wall detector (config.py:3-20), as named constants. */
module Config {
  /** Two parallel lines closer than this are one face (same level). */
  const SameLevelBound: real := 1.5
  /** The plausible wall-thickness window [WidthLowerBound, WidthUpperBound]. */
  const WidthLowerBound: real := 25.0
  const WidthUpperBound: real := 40.0
  /** Stroke widths of wall lines: `list(map(str, range(7, 11)))`. */
  const WallsStrokeWidths: seq<string> := ["7", "8", "9", "10"]
  /** Stroke widths of marker (hatching) lines: `list(map(str, range(1, 3)))`. */
  const WallsMarkersWidths: seq<string> := ["1", "2"]
  const WallColor: string := "rgb(0%, 0%, 0%)"
  const WallMarkerColor: string := "rgb(0%, 0%, 0%)"
  const WallMarkerMinLength: real := 24.0
  /** A candidate needs strictly more contained markers than this. */
  const NeededMarkersCount: nat := 10

  const RedColor: string := "rgb(100%, 0%, 0%)"
  /** Band of the rgb percentage channels that counts as gray. */
  const GrayLower: real := 45.0
  const GrayUpper: real := 55.0
  /** Overlay stroke width with and without a captured transform. */
  const DrawWidth: string := "10"
  const NoTransformationDrawWidth: string := "1.2"
  /** A gray region must be thicker than this in both directions. */
  const GrayWidthLowerBound: real := 2.5
}
