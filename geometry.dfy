/** Playfield constants and the bounding-box contact test shared by the ball and the paddles. */
module Geometry {

  /** Playfield size in pixels. */
  const WIDTH: int := 1000
  const HEIGHT: int := 600

  /** Thickness of the white bands along the top and bottom edges. */
  const BORDER: int := 20

  /** Centre of the playfield; both halves are integer divisions. */
  const CENTRE_X: real := (WIDTH / 2) as real
  const CENTRE_Y: real := (HEIGHT / 2) as real

  datatype Point = Point(x: real, y: real)

  function Min(a: real, b: real): real { if a <= b then a else b }

  function Max(a: real, b: real): real { if a >= b then a else b }

  function Abs(a: real): real { if a < 0.0 then -a else a }

  /**
   * The contact test used between ball and paddle: the square of half-side r
   * around (cx, cy) meets the w-by-h rectangle whose top-left corner is
   * (px, py). Edges count as contact.
   */
  predicate SquareMeetsRect(cx: real, cy: real, r: real, px: real, py: real, w: real, h: real)
    ensures SquareMeetsRect(cx, cy, r, px, py, w, h) <==> Box(px - r, py - r, px + w + r, py + h + r).Contains(cx, cy)
  {
    && cx - r <= px + w
    && cx + r >= px
    && cy - r <= py + h
    && cy + r >= py
  }

  /** A closed axis-aligned box given by its left, top, right and bottom edges. */
  datatype Box = Box(left: real, top: real, right: real, bottom: real)
  {
    predicate Contains(u: real, v: real)
    {
      left <= u <= right && top <= v <= bottom
    }
  }

  /** Reference definition of contact: some point belongs to both closed boxes. */
  ghost predicate ShareAPoint(a: Box, b: Box)
  {
    exists u, v :: a.Contains(u, v) && b.Contains(u, v)
  }

  /**
   * The four comparisons of the contact test say exactly that the ball's
   * bounding square and the paddle's rectangle have a point in common
   * (for boxes of non-negative size).
   */
  lemma ContactIffCommonPoint(cx: real, cy: real, r: real, px: real, py: real, w: real, h: real)
    requires 0.0 <= r && 0.0 <= w && 0.0 <= h
    ensures SquareMeetsRect(cx, cy, r, px, py, w, h)
        <==> ShareAPoint(Box(cx - r, cy - r, cx + r, cy + r), Box(px, py, px + w, py + h))
  {
    var ball, paddle := Box(cx - r, cy - r, cx + r, cy + r), Box(px, py, px + w, py + h);
    if SquareMeetsRect(cx, cy, r, px, py, w, h) {
      var u, v := Max(cx - r, px), Max(cy - r, py);
      assert ball.Contains(u, v) && paddle.Contains(u, v);
    }
  }
}
