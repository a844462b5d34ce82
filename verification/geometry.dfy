/**
 * Target placement: `moveTarget` draws a random position inside the game area
 * and clamps it so that the target never leaves the area.
 */
module Geometry {
  import opened Arith

  /** A position in CSS pixels (`left`/`top` of the target, or a point of a firework's trail). */
  datatype Point = Point(x: real, y: real)

  /** The layout queries `moveTarget` makes: `clientWidth`/`clientHeight` of the area and of the target. */
  datatype Layout = Layout(areaWidth: int, areaHeight: int, targetWidth: int, targetHeight: int)

  /** `Math.max(0, Math.min(v, hi))`. Whatever is drawn, the result lies in [0, max(0, hi)]. */
  function Clamp(v: real, hi: real): (r: real)
    ensures 0.0 <= r <= MaxReal(0.0, hi)
    ensures 0.0 <= v <= hi ==> r == v
    ensures hi <= 0.0 ==> r == 0.0
  {
    MaxReal(0.0, MinReal(v, hi))
  }

  /**
   * One coordinate of `moveTarget`: the free room is `room = area - target`, the
   * draw is `u * room` for the random number `u`, and the draw is clamped into [0, room].
   */
  function Coordinate(u: real, area: int, target: int): (r: real)
    ensures 0.0 <= r <= MaxReal(0.0, (area - target) as real)
    ensures area <= target ==> r == 0.0
  {
    var room := (area - target) as real;
    Clamp(u * room, room)
  }

  /** The position `moveTarget` writes for the random draws `u` (x) and `v` (y). */
  function Place(layout: Layout, u: real, v: real): (p: Point)
    ensures 0.0 <= p.x <= MaxReal(0.0, (layout.areaWidth - layout.targetWidth) as real)
    ensures 0.0 <= p.y <= MaxReal(0.0, (layout.areaHeight - layout.targetHeight) as real)
  {
    Point(Coordinate(u, layout.areaWidth, layout.targetWidth),
          Coordinate(v, layout.areaHeight, layout.targetHeight))
  }

  /**
   * When the target fits, a draw of `Math.random()` (in [0, 1)) is never moved
   * by the clamp: the target lands exactly at `u * room`.
   */
  lemma DrawInsideRoomIsKept(u: real, area: int, target: int)
    requires 0.0 <= u < 1.0 && target <= area
    ensures Coordinate(u, area, target) == u * (area - target) as real
  {
  }
}
