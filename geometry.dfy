/**
 * Plane geometry shared by the image viewer and the gesture screen:
 * points in screen or normalised space, axis-aligned rectangles, and the
 * `Math.min(Math.max(lo, v), hi)` clamp both screens use.
 */
module Geometry {

  datatype Point = Point(x: real, y: real) {

    function Plus(q: Point): Point {
      Point(x + q.x, y + q.y)
    }

    function Minus(q: Point): Point {
      Point(x - q.x, y - q.y)
    }
  }

  /** A rectangle as `getBoundingClientRect` or `drawImage` describes it. */
  datatype Rect = Rect(left: real, top: real, width: real, height: real) {

    predicate Contains(p: Point) {
      left <= p.x <= left + width && top <= p.y <= top + height
    }

    function Center(): Point {
      Point(left + width / 2.0, top + height / 2.0)
    }
  }

  function Min(a: real, b: real): real {
    if a <= b then a else b
  }

  function Max(a: real, b: real): real {
    if a >= b then a else b
  }

  /** `Math.min(Math.max(lo, v), hi)`: v limited to the interval [lo, hi]. */
  function Clamp(v: real, lo: real, hi: real): (r: real)
    requires lo <= hi
    ensures lo <= r <= hi
    ensures lo <= v <= hi ==> r == v
    ensures v < lo ==> r == lo
    ensures v > hi ==> r == hi
  {
    Min(Max(lo, v), hi)
  }
}
