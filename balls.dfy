/**
 * The ball: integration, wall bounce, scoring, relaunch and the paddle
 * contact response with its speed ramp. Floating point is modelled by reals;
 * the random launch angle and the sine and square root the contact response
 * calls come in as parameters.
 */
module Balls {
  import opened Geometry
  import opened Trails
  import opened Paddles
  import opened Scoring

  const BALL_RADIUS: real := 12.0
  const BASE_SPEED: real := 6.0
  const MAX_SPEED: real := 12.0
  const SPEED_STEP: real := 0.2

  /** Number of positions the ball's trail keeps. */
  const TRAIL_LENGTH: nat := 15

  /**
   * A launch direction (cos a, sin a) for the random angle a that a relaunch
   * draws: within 30 degrees of horizontal, turned by 180 degrees half of the
   * time. So it is a unit vector whose horizontal part is at least cos 30°.
   */
  datatype Launch = Launch(cos: real, sin: real)
  {
    predicate Valid()
    {
      cos * cos + sin * sin == 1.0 && 4.0 * cos * cos >= 3.0
    }
  }

  /**
   * The floating-point functions the contact response calls: the sine of an
   * angle given in degrees, and the square root. Sound() is all the model
   * assumes of them.
   */
  datatype Numerics = Numerics(sinDeg: real -> real, sqrt: real -> real)
  {
    ghost predicate Sound()
    {
      && (forall r :: 0.0 < r ==> 0.0 < sqrt(r) && sqrt(r) * sqrt(r) == r)
      && sinDeg(0.0) == 0.0
      && (forall d :: 0.0 < d < 180.0 ==> 0.0 < sinDeg(d))
      && (forall d :: -180.0 < d < 0.0 ==> sinDeg(d) < 0.0)
    }
  }

  /** The speed after a paddle contact: one step faster, never above the cap. */
  function Ramp(speed: real): (r: real)
    ensures r <= MAX_SPEED
    ensures speed <= MAX_SPEED ==> speed <= r
    ensures speed < MAX_SPEED ==> speed < r
    ensures r == speed + SPEED_STEP || r == MAX_SPEED
  {
    Min(MAX_SPEED, speed + SPEED_STEP)
  }

  /** The ball's edge touches the top or the bottom border band. */
  predicate WallContact(y: real)
    ensures !WallContact(y) <==> BORDER as real + BALL_RADIUS < y < (HEIGHT - BORDER) as real - BALL_RADIUS
  {
    y - BALL_RADIUS <= BORDER as real || y + BALL_RADIUS >= (HEIGHT - BORDER) as real
  }

  /** Where the ball struck the paddle, as a fraction of the half height measured from the paddle's centre. */
  function HitPosition(ballY: real, paddleY: real): real
  {
    (ballY - Centre(paddleY)) / HALF_HEIGHT
  }

  /** The rebound angle in degrees: 60 degrees per half height away from the centre. */
  function BounceDegrees(ballY: real, paddleY: real): real
  {
    HitPosition(ballY, paddleY) * 60.0
  }

  /**
   * The hit position lies in [-1, 1] exactly when the ball's centre is level
   * with the paddle; it is negative above the paddle's centre, zero at it and
   * positive below it.
   */
  lemma HitPositionRange(ballY: real, paddleY: real)
    ensures -1.0 <= HitPosition(ballY, paddleY) <= 1.0 <==> paddleY <= ballY <= paddleY + PADDLE_HEIGHT as real
    ensures HitPosition(ballY, paddleY) < 0.0 <==> ballY < Centre(paddleY)
    ensures HitPosition(ballY, paddleY) == 0.0 <==> ballY == Centre(paddleY)
    ensures HitPosition(ballY, paddleY) > 0.0 <==> ballY > Centre(paddleY)
  {
    assert HALF_HEIGHT == 40.0;
    assert HitPosition(ballY, paddleY) * 40.0 == ballY - Centre(paddleY);
  }

  /**
   * A hit at the centre rebounds horizontally, a hit on the top or bottom edge
   * at exactly 60 degrees, and the angle stays within 60 degrees exactly when
   * the ball's centre is level with the paddle.
   */
  lemma BounceAngleRange(ballY: real, paddleY: real)
    ensures BounceDegrees(ballY, paddleY) == 0.0 <==> ballY == Centre(paddleY)
    ensures BounceDegrees(ballY, paddleY) < 0.0 <==> ballY < Centre(paddleY)
    ensures ballY == paddleY ==> BounceDegrees(ballY, paddleY) == -60.0
    ensures ballY == paddleY + PADDLE_HEIGHT as real ==> BounceDegrees(ballY, paddleY) == 60.0
    ensures -60.0 <= BounceDegrees(ballY, paddleY) <= 60.0 <==> paddleY <= ballY <= paddleY + PADDLE_HEIGHT as real
  {
    assert HALF_HEIGHT == 40.0;
    assert BounceDegrees(ballY, paddleY) == (ballY - Centre(paddleY)) * 1.5;
  }

  /** Scaling (a, b) by s / |(a, b)| gives the vector (u, v) of length s. */
  lemma Renormalised(a: real, b: real, m: real, s: real, u: real, v: real)
    requires 0.0 < m && m * m == a * a + b * b
    requires u == a / m * s && v == b / m * s
    ensures u * u + v * v == s * s
  {
    var k := s / m;
    assert k * m == s;
    assert u == a * k && v == b * k;
    calc {
      u * u + v * v;
      (k * k) * (a * a + b * b);
      (k * k) * (m * m);
      (k * m) * (k * m);
    }
  }

  /** Scaling by the positive factor s / m keeps the sign. */
  lemma ScaledKeepsSign(a: real, m: real, s: real)
    requires 0.0 < m && 0.0 < s
    ensures a > 0.0 ==> a / m * s > 0.0
    ensures a < 0.0 ==> a / m * s < 0.0
    ensures a == 0.0 ==> a / m * s == 0.0
  {
  }

  lemma SumOfSquaresPositive(a: real, b: real)
    requires a != 0.0
    ensures 0.0 < a * a + b * b
  {
    assert 0.0 < a * a;
    assert 0.0 <= b * b;
  }

  /** The square root the contact response takes of a velocity with a non-zero horizontal part is a positive length. */
  lemma RootOfSumOfSquares(num: Numerics, a: real, b: real)
    requires num.Sound() && a != 0.0
    ensures 0.0 < num.sqrt(a * a + b * b)
    ensures num.sqrt(a * a + b * b) * num.sqrt(a * a + b * b) == a * a + b * b
  {
    SumOfSquaresPositive(a, b);
  }

  /**
   * For a ball touching the paddle, the vertical velocity speed * sin(angle)
   * the contact response sets points the way the ball's centre lies from the
   * paddle's centre: up above it, down below it, and zero level with it.
   */
  lemma ContactVerticalDirection(num: Numerics, ballY: real, paddleY: real, speed: real)
    requires num.Sound() && 0.0 < speed
    requires ballY - BALL_RADIUS <= paddleY + PADDLE_HEIGHT as real && ballY + BALL_RADIUS >= paddleY
    ensures ballY < Centre(paddleY) ==> speed * num.sinDeg(BounceDegrees(ballY, paddleY)) < 0.0
    ensures ballY == Centre(paddleY) ==> speed * num.sinDeg(BounceDegrees(ballY, paddleY)) == 0.0
    ensures ballY > Centre(paddleY) ==> speed * num.sinDeg(BounceDegrees(ballY, paddleY)) > 0.0
  {
    var d := BounceDegrees(ballY, paddleY);
    assert HALF_HEIGHT == 40.0;
    assert d == (ballY - Centre(paddleY)) * 1.5;
    assert -180.0 < d < 180.0;
    var sine := num.sinDeg(d);
    assert d < 0.0 ==> sine < 0.0;
    assert d > 0.0 ==> sine > 0.0;
    assert d == 0.0 ==> sine == 0.0;
  }

  /**
   * The contact response on velocities: rescaling (hx, hy), whose length is m
   * and whose horizontal part is non-zero, by s / m yields a velocity (u, v)
   * of length s whose components keep the signs of hx and hy.
   */
  lemma ReboundVelocity(hx: real, hy: real, m: real, s: real, u: real, v: real)
    requires hx != 0.0 && 0.0 < s
    requires 0.0 < m && m * m == hx * hx + hy * hy
    requires u == hx / m * s && v == hy / m * s
    ensures u * u + v * v == s * s
    ensures (hx > 0.0 <==> u > 0.0) && (hx < 0.0 <==> u < 0.0)
    ensures (hy > 0.0 <==> v > 0.0) && (hy < 0.0 <==> v < 0.0)
  {
    Renormalised(hx, hy, m, s, u, v);
    ScaledKeepsSign(hx, m, s);
    ScaledKeepsSign(hy, m, s);
  }

  /**
   * Rescales the velocity (hx, hy) to length s, dividing by its length as the
   * square root gives it. The result has length s and keeps the signs of
   * both components.
   */
  function Rescaled(num: Numerics, hx: real, hy: real, s: real): (r: Motion)
    requires num.Sound() && hx != 0.0 && 0.0 < s
    ensures r.speed == s && r.Steady()
    ensures (hx > 0.0 <==> r.vx > 0.0) && (hx < 0.0 <==> r.vx < 0.0)
    ensures (hy > 0.0 <==> r.vy > 0.0) && (hy < 0.0 <==> r.vy < 0.0)
  {
    var magnitude := num.sqrt(hx * hx + hy * hy);
    RootOfSumOfSquares(num, hx, hy);
    ReboundVelocity(hx, hy, magnitude, s, hx / magnitude * s, hy / magnitude * s);
    Motion(hx / magnitude * s, hy / magnitude * s, s)
  }

  /** A velocity together with the speed it is scaled to. */
  datatype Motion = Motion(vx: real, vy: real, speed: real)
  {
    /** The velocity's length is the speed. */
    predicate Steady()
    {
      vx * vx + vy * vy == speed * speed
    }
  }

  /**
   * The contact response on the ball's motion: the horizontal velocity turns
   * away from the paddle's side of the field, the vertical one follows the hit
   * angle, the speed takes one ramp step, and the velocity is rescaled to the
   * new speed. The result still moves at its speed, horizontally away from the
   * paddle, vertically the way the ball's centre lies from the paddle's centre.
   */
  function ContactResponse(num: Numerics, vx: real, speed: real, ballY: real, paddleY: real, leftPaddle: bool): (m: Motion)
    requires num.Sound() && vx != 0.0 && BASE_SPEED <= speed <= MAX_SPEED
    requires ballY - BALL_RADIUS <= paddleY + PADDLE_HEIGHT as real && ballY + BALL_RADIUS >= paddleY
    ensures m.speed == Ramp(speed) && BASE_SPEED <= m.speed <= MAX_SPEED
    ensures m.Steady()
    ensures leftPaddle ==> m.vx > 0.0
    ensures !leftPaddle ==> m.vx < 0.0
    ensures ballY < Centre(paddleY) ==> m.vy < 0.0
    ensures ballY == Centre(paddleY) ==> m.vy == 0.0
    ensures ballY > Centre(paddleY) ==> m.vy > 0.0
  {
    var hx := if leftPaddle then Abs(vx) else -Abs(vx);
    var hy := speed * num.sinDeg(BounceDegrees(ballY, paddleY));
    ContactVerticalDirection(num, ballY, paddleY, speed);
    var s := Ramp(speed);
    Rescaled(num, hx, hy, s)
  }

  /**
   * The contact check on the ball's motion: a ball at (bx, by) touching the
   * paddle at (px, py) takes the contact response, any other keeps its motion.
   * Either way it still moves at a legal speed and never purely vertically.
   */
  function Collide(num: Numerics, m: Motion, ballX: real, ballY: real, padX: real, padY: real): (r: Motion)
    requires num.Sound() && m.vx != 0.0 && BASE_SPEED <= m.speed <= MAX_SPEED
    ensures r.vx != 0.0 && BASE_SPEED <= r.speed <= MAX_SPEED
    ensures m.Steady() ==> r.Steady()
    ensures !SquareMeetsRect(ballX, ballY, BALL_RADIUS, padX, padY, PADDLE_WIDTH as real, PADDLE_HEIGHT as real) ==> r == m
    ensures SquareMeetsRect(ballX, ballY, BALL_RADIUS, padX, padY, PADDLE_WIDTH as real, PADDLE_HEIGHT as real) ==>
              r.speed == Ramp(m.speed) && (padX < CENTRE_X <==> r.vx > 0.0)
  {
    if SquareMeetsRect(ballX, ballY, BALL_RADIUS, padX, padY, PADDLE_WIDTH as real, PADDLE_HEIGHT as real)
    then ContactResponse(num, m.vx, m.speed, ballY, padY, padX < CENTRE_X)
    else m
  }

  class Ball {
    var x: real
    var y: real
    var vx: real
    var vy: real
    var speed: real
    const trail: Trail

    /** The velocity has length speed, the speed lies between the base and the cap, and the ball never moves purely vertically. */
    ghost predicate InMotion()
      reads this
    {
      && BASE_SPEED <= speed <= MAX_SPEED
      && vx != 0.0
      && vx * vx + vy * vy == speed * speed
    }

    ghost predicate Valid()
      reads this, trail
    {
      trail.Valid() && trail.maxLength == TRAIL_LENGTH && InMotion()
    }

    /** The state a relaunch along the given direction leaves. */
    ghost predicate LaunchedAlong(launch: Launch)
      reads this
    {
      && x == CENTRE_X && y == CENTRE_Y
      && speed == BASE_SPEED
      && vx == BASE_SPEED * launch.cos && vy == BASE_SPEED * launch.sin
    }

    constructor (launch: Launch)
      requires launch.Valid()
      ensures Valid() && fresh(trail) && trail.positions == []
      ensures LaunchedAlong(launch)
    {
      trail := new Trail(TRAIL_LENGTH);
      new;
      ResetBall(launch);
    }

    /** Relaunches from the centre at the base speed, within 30 degrees of horizontal. */
    method ResetBall(launch: Launch)
      requires launch.Valid()
      modifies this
      ensures InMotion() && LaunchedAlong(launch)
      ensures 4.0 * vx * vx >= 3.0 * speed * speed
    {
      speed := BASE_SPEED;
      vx := speed * launch.cos;
      vy := speed * launch.sin;
      x := CENTRE_X;
      y := CENTRE_Y;
    }

    /**
     * One frame of flight: move, record the position in the trail, reverse the
     * vertical velocity on a border band, and when the ball has left the field
     * credit the opposite side with exactly one point and relaunch.
     */
    method Update(scores: Scoreboard, launch: Launch)
      requires Valid() && launch.Valid()
      modifies this, trail, scores
      ensures Valid()
      ensures trail.positions == LastN(old(trail.positions) + [Point(old(x + vx), old(y + vy))], TRAIL_LENGTH)
      ensures old(x + vx) < 0.0 ==>
                && scores.right == old(scores.right) + 1 && scores.left == old(scores.left)
                && LaunchedAlong(launch)
      ensures old(x + vx) > WIDTH as real ==>
                && scores.left == old(scores.left) + 1 && scores.right == old(scores.right)
                && LaunchedAlong(launch)
      ensures 0.0 <= old(x + vx) <= WIDTH as real ==>
                && scores.left == old(scores.left) && scores.right == old(scores.right)
                && x == old(x + vx) && y == old(y + vy)
                && vx == old(vx) && speed == old(speed)
                && vy == (if WallContact(old(y + vy)) then -old(vy) else old(vy))
    {
      x := x + vx;
      y := y + vy;
      trail.AddPosition(x, y);
      if y - BALL_RADIUS <= BORDER as real || y + BALL_RADIUS >= (HEIGHT - BORDER) as real {
        vy := -vy;
      }
      if x < 0.0 {
        scores.right := scores.right + 1;
        ResetBall(launch);
      } else if x > WIDTH as real {
        scores.left := scores.left + 1;
        ResetBall(launch);
      }
    }

    /**
     * Paddle contact: reports whether the ball's bounding square touches the
     * paddle and, if so, applies the contact response; without contact
     * nothing changes.
     */
    method CheckPaddleCollision(paddle: Paddle, num: Numerics) returns (hit: bool)
      requires Valid() && num.Sound()
      modifies this, paddle`glow
      ensures Valid()
      ensures x == old(x) && y == old(y)
      ensures hit == SquareMeetsRect(x, y, BALL_RADIUS, paddle.x, paddle.y, PADDLE_WIDTH as real, PADDLE_HEIGHT as real)
      ensures !hit ==> vx == old(vx) && vy == old(vy) && speed == old(speed) && paddle.glow == old(paddle.glow)
      ensures hit ==> Bounced(paddle, old(speed))
      ensures hit ==> Motion(vx, vy, speed) == ContactResponse(num, old(vx), old(speed), y, paddle.y, paddle.x < CENTRE_X)
    {
      if x - BALL_RADIUS <= paddle.x + PADDLE_WIDTH as real && x + BALL_RADIUS >= paddle.x
         && y - BALL_RADIUS <= paddle.y + PADDLE_HEIGHT as real && y + BALL_RADIUS >= paddle.y
      {
        var m := ContactResponse(num, vx, speed, y, paddle.y, paddle.x < CENTRE_X);
        vx, vy, speed := m.vx, m.vy, m.speed;
        paddle.ActivateGlow();
        return true;
      }
      return false;
    }

    /**
     * What a contact leaves: the ball heads away from the paddle's side of the
     * field, vertically the way its centre lies from the paddle's centre,
     * one speed step faster, and the paddle glows.
     */
    ghost predicate Bounced(paddle: Paddle, oldSpeed: real)
      reads this, paddle
    {
      && speed == Ramp(oldSpeed)
      && paddle.glow == GLOW_ON
      && (paddle.x < CENTRE_X ==> vx > 0.0)
      && (paddle.x >= CENTRE_X ==> vx < 0.0)
      && (y < Centre(paddle.y) ==> vy < 0.0)
      && (y == Centre(paddle.y) ==> vy == 0.0)
      && (y > Centre(paddle.y) ==> vy > 0.0)
    }
  }
}
