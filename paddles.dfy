/** Paddles: vertical motion by key input or by the automated opponent, always kept between the border bands. */
module Paddles {
  import opened Geometry

  /** Paddle size and top speed; width and height are the constructor defaults, the only ones the game uses. */
  const PADDLE_WIDTH: int := 15
  const PADDLE_HEIGHT: int := 80
  const PADDLE_SPEED: real := 6.0

  /** Glow level set on ball contact (rendering only). */
  const GLOW_ON: int := 100

  /** Highest and lowest admissible top edge: the paddle stays clear of both border bands. */
  const TOP: real := BORDER as real
  const BOTTOM: real := (HEIGHT - BORDER - PADDLE_HEIGHT) as real

  /** Half the paddle height as the source computes it, by integer division. */
  const HALF_HEIGHT: real := (PADDLE_HEIGHT / 2) as real

  predicate InBand(y: real)
  {
    TOP <= y <= BOTTOM
  }

  /** Projects a top edge into the band: inside the band nothing changes, outside it the nearer bound is taken. */
  function Clamp(v: real): (r: real)
    ensures InBand(r)
    ensures InBand(v) ==> r == v
    ensures v < TOP ==> r == TOP
    ensures v > BOTTOM ==> r == BOTTOM
  {
    Max(TOP, Min(BOTTOM, v))
  }

  /** No admissible top edge is closer to v than Clamp(v). */
  lemma ClampIsNearest(v: real, b: real)
    requires InBand(b)
    ensures Abs(Clamp(v) - v) <= Abs(b - v)
  {
  }

  /** Vertical centre of a paddle whose top edge is at y. */
  function Centre(y: real): real
  {
    y + HALF_HEIGHT
  }

  /**
   * The displacement the automated opponent asks for: a tenth of the distance
   * from the paddle's centre to the target, cut to the paddle speed. It never
   * exceeds the speed, never points away from the target and never overshoots it.
   */
  function AiStep(y: real, target: real): (m: real)
    ensures -PADDLE_SPEED <= m <= PADDLE_SPEED
    ensures target > Centre(y) ==> 0.0 < m <= target - Centre(y)
    ensures target < Centre(y) ==> target - Centre(y) <= m < 0.0
    ensures target == Centre(y) ==> m == 0.0
  {
    var move := (target - Centre(y)) * 0.1;
    if Abs(move) > PADDLE_SPEED then (if move > 0.0 then PADDLE_SPEED else -PADDLE_SPEED) else move
  }

  /**
   * From a top edge inside the band, one automated move (step, then clamp)
   * shifts the paddle by at most its speed, towards the target, without
   * carrying its centre past the target.
   */
  lemma AiMoveBounded(y: real, target: real)
    requires InBand(y)
    ensures -PADDLE_SPEED <= Clamp(y + AiStep(y, target)) - y <= PADDLE_SPEED
    ensures target >= Centre(y) ==> y <= Clamp(y + AiStep(y, target)) && Centre(Clamp(y + AiStep(y, target))) <= target
    ensures target <= Centre(y) ==> Clamp(y + AiStep(y, target)) <= y && target <= Centre(Clamp(y + AiStep(y, target)))
  {
  }

  class Paddle {
    const x: real
    var y: real
    var glow: int

    constructor (x: real, y: real)
      ensures this.x == x && this.y == y && glow == 0
    {
      this.x := x;
      this.y := y;
      this.glow := 0;
    }

    /** Manual control: move by speed * direction, then keep the paddle between the bands. */
    method Move(direction: int)
      modifies this`y
      ensures y == Clamp(old(y) + PADDLE_SPEED * direction as real)
      ensures InBand(y)
    {
      y := y + PADDLE_SPEED * direction as real;
      y := Clamp(y);
    }

    /**
     * Automated control: ease towards ballY + offset, where offset is the
     * random aiming error the source draws from [-height * difficulty, height * difficulty].
     */
    method AiMove(ballY: real, offset: real)
      modifies this`y
      ensures y == Clamp(old(y) + AiStep(old(y), ballY + offset))
      ensures InBand(y)
      ensures InBand(old(y)) ==> -PADDLE_SPEED <= y - old(y) <= PADDLE_SPEED
    {
      var centreY := y + HALF_HEIGHT;
      var targetY := ballY + offset;
      var diffY := targetY - centreY;
      var moveAmount := diffY * 0.1;
      if Abs(moveAmount) > PADDLE_SPEED {
        moveAmount := if moveAmount > 0.0 then PADDLE_SPEED else -PADDLE_SPEED;
      }
      y := y + moveAmount;
      y := Clamp(y);
      if InBand(old(y)) {
        AiMoveBounded(old(y), targetY);
      }
    }

    /** Lights the paddle after a ball contact. */
    method ActivateGlow()
      modifies this`glow
      ensures glow == GLOW_ON
    {
      glow := GLOW_ON;
    }
  }
}
