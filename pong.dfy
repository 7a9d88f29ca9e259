/**
 * The game loop: the two paddles, the ball, the scores and the control
 * state, with the key handler, the game reset and the game logic of one
 * frame. Each method is proved to change the control state exactly as the
 * corresponding function of Control says, and to keep the game valid.
 */
module Pong {
  import opened Geometry
  import opened Trails
  import opened Paddles
  import opened Scoring
  import opened Balls
  import opened Control

  /** Starting top edge of both paddles: vertically centred, by integer division. */
  const PADDLE_START_Y: real := (HEIGHT / 2 - 40) as real
  const LEFT_PADDLE_X: real := 30.0
  const RIGHT_PADDLE_X: real := (WIDTH - 45) as real

  /** The point, if any, a ball step from horizontal position x (after the move) awards. */
  function ScoredBy(x: real): (r: Scored)
    ensures r == RightScores <==> x < 0.0
    ensures r == LeftScores <==> x > WIDTH as real
  {
    if x < 0.0 then RightScores else if x > WIDTH as real then LeftScores else Nobody
  }

  /** A paddle under held keys: up first, then down, each a clamped step. */
  function Steer(y: real, up: bool, down: bool): (r: real)
    ensures up || down ==> InBand(r)
    ensures !up && !down ==> r == y
  {
    var raised := if up then Clamp(y - PADDLE_SPEED) else y;
    if down then Clamp(raised + PADDLE_SPEED) else raised
  }

  /**
   * From inside the band, a keyed paddle moves at most one step per frame:
   * up alone never lowers it, down alone never raises it, no key leaves it,
   * and both keys together cancel unless the top clamp cuts the up step.
   */
  lemma SteerBounded(y: real, up: bool, down: bool)
    requires InBand(y)
    ensures InBand(Steer(y, up, down))
    ensures -PADDLE_SPEED <= Steer(y, up, down) - y <= PADDLE_SPEED
    ensures up && !down ==> Steer(y, up, down) <= y
    ensures down && !up ==> Steer(y, up, down) >= y
    ensures !up && !down ==> Steer(y, up, down) == y
    ensures up && down && TOP <= y - PADDLE_SPEED ==> Steer(y, up, down) == y
    ensures up && down && y - PADDLE_SPEED < TOP ==> Steer(y, up, down) == TOP + PADDLE_SPEED
  {
  }

  /** The relaunched ball at the centre is far from both paddles, so a contact check right after a point finds nothing. */
  lemma CentreClearOfPaddles(py: real)
    ensures !SquareMeetsRect(CENTRE_X, CENTRE_Y, BALL_RADIUS, LEFT_PADDLE_X, py, PADDLE_WIDTH as real, PADDLE_HEIGHT as real)
    ensures !SquareMeetsRect(CENTRE_X, CENTRE_Y, BALL_RADIUS, RIGHT_PADDLE_X, py, PADDLE_WIDTH as real, PADDLE_HEIGHT as real)
  {
  }

  /** What moves in a frame: both paddles' top edges, and the ball's position, motion and trail. */
  datatype Bodies = Bodies(leftY: real, rightY: real, ballX: real, ballY: real, motion: Motion, trail: seq<Point>)

  /** The wall reflection of a frame: the vertical part reverses when the ball touches a border band; the length is kept. */
  function Walled(m: Motion, y: real): (r: Motion)
    ensures r.vx == m.vx && r.speed == m.speed
    ensures r.vy == m.vy || r.vy == -m.vy
    ensures m.Steady() ==> r.Steady()
  {
    var r := m.(vy := if WallContact(y) then -m.vy else m.vy);
    assert (-m.vy) * (-m.vy) == m.vy * m.vy;
    r
  }

  /**
   * The ball's motion over a frame in which nobody scores, the ball having
   * moved to (x, y): the vertical part reverses on wall contact, then the
   * left and the right paddle are checked for contact in that order. The
   * ball keeps moving at a legal speed, never slower than before, and the
   * length of its velocity stays its speed.
   */
  function StepMotion(num: Numerics, m: Motion, x: real, y: real, leftY: real, rightY: real): (r: Motion)
    requires num.Sound() && m.vx != 0.0 && BASE_SPEED <= m.speed <= MAX_SPEED
    ensures r.vx != 0.0 && m.speed <= r.speed <= MAX_SPEED
    ensures m.Steady() ==> r.Steady()
  {
    var afterLeft := Collide(num, Walled(m, y), x, y, LEFT_PADDLE_X, leftY);
    Collide(num, afterLeft, x, y, RIGHT_PADDLE_X, rightY)
  }

  /**
   * The paddle moves of a frame in play under control state c: the left
   * paddle by its flags, the right one by its flags against another player,
   * towards ball.y + offset against the automated opponent, and not at all
   * with no mode chosen.
   */
  function Paddled(c: Snapshot, b: Bodies, offset: real): Bodies
  {
    var rightY :=
      if c.mode == PlayerVsPlayer then Steer(b.rightY, c.latches.rightUp, c.latches.rightDown)
      else if c.mode == PlayerVsAi then Clamp(b.rightY + AiStep(b.rightY, b.ballY + offset))
      else b.rightY;
    b.(leftY := Steer(b.leftY, c.latches.leftUp, c.latches.leftDown), rightY := rightY)
  }

  /** The paddle moves keep both paddles in the band and touch nothing but the paddles. */
  lemma PaddledInBand(c: Snapshot, b: Bodies, offset: real)
    requires InBand(b.leftY) && InBand(b.rightY)
    ensures InBand(Paddled(c, b, offset).leftY) && InBand(Paddled(c, b, offset).rightY)
    ensures Paddled(c, b, offset).(leftY := b.leftY, rightY := b.rightY) == b
  {
    SteerBounded(b.leftY, c.latches.leftUp, c.latches.leftDown);
    SteerBounded(b.rightY, c.latches.rightUp, c.latches.rightDown);
  }

  /**
   * The ball's part of a frame in play: it steps and records its position;
   * then either a point relaunches it from the centre or it keeps flying with
   * its motion after the walls and the paddles.
   */
  function Flown(b: Bodies, launch: Launch, num: Numerics): Bodies
    requires num.Sound() && b.motion.vx != 0.0 && BASE_SPEED <= b.motion.speed <= MAX_SPEED
  {
    var x, y := b.ballX + b.motion.vx, b.ballY + b.motion.vy;
    var trail := LastN(b.trail + [Point(x, y)], TRAIL_LENGTH);
    if ScoredBy(x) != Nobody then
      b.(ballX := CENTRE_X, ballY := CENTRE_Y,
         motion := Motion(BASE_SPEED * launch.cos, BASE_SPEED * launch.sin, BASE_SPEED), trail := trail)
    else
      b.(ballX := x, ballY := y, motion := StepMotion(num, b.motion, x, y, b.leftY, b.rightY), trail := trail)
  }

  /** A relaunch along a valid direction moves at the base speed with a non-zero horizontal part. */
  lemma RelaunchSteady(launch: Launch)
    requires launch.Valid()
    ensures Motion(BASE_SPEED * launch.cos, BASE_SPEED * launch.sin, BASE_SPEED).Steady()
    ensures BASE_SPEED * launch.cos != 0.0
  {
    var m := Motion(BASE_SPEED * launch.cos, BASE_SPEED * launch.sin, BASE_SPEED);
    assert m.vx * m.vx + m.vy * m.vy == BASE_SPEED * BASE_SPEED * (launch.cos * launch.cos + launch.sin * launch.sin);
  }

  /**
   * The ball's step leaves the paddles alone and the trail within its bound;
   * a point puts the ball back at the centre at the base speed, and otherwise
   * the ball moves by its velocity and never slows down. Either way it keeps
   * moving with a velocity whose length is its legal speed.
   */
  lemma FlownFacts(b: Bodies, launch: Launch, num: Numerics)
    requires num.Sound() && launch.Valid()
    requires b.motion.vx != 0.0 && BASE_SPEED <= b.motion.speed <= MAX_SPEED && b.motion.Steady()
    requires |b.trail| <= TRAIL_LENGTH
    ensures Flown(b, launch, num).leftY == b.leftY && Flown(b, launch, num).rightY == b.rightY
    ensures |Flown(b, launch, num).trail| <= TRAIL_LENGTH
    ensures var m := Flown(b, launch, num).motion;
            m.vx != 0.0 && BASE_SPEED <= m.speed <= MAX_SPEED && m.Steady()
    ensures ScoredBy(b.ballX + b.motion.vx) != Nobody ==>
              && Flown(b, launch, num).ballX == CENTRE_X && Flown(b, launch, num).ballY == CENTRE_Y
              && Flown(b, launch, num).motion.speed == BASE_SPEED
    ensures ScoredBy(b.ballX + b.motion.vx) == Nobody ==>
              && Flown(b, launch, num).ballX == b.ballX + b.motion.vx
              && Flown(b, launch, num).ballY == b.ballY + b.motion.vy
              && b.motion.speed <= Flown(b, launch, num).motion.speed
  {
    var x, y := b.ballX + b.motion.vx, b.ballY + b.motion.vy;
    AddKeepsRecent(b.trail, Point(x, y), TRAIL_LENGTH);
    if ScoredBy(x) != Nobody {
      RelaunchSteady(launch);
    }
  }

  /** The bodies after the game logic of one frame under control state c: nothing moves outside play. */
  function Stepped(c: Snapshot, b: Bodies, offset: real, launch: Launch, num: Numerics): Bodies
    requires num.Sound() && b.motion.vx != 0.0 && BASE_SPEED <= b.motion.speed <= MAX_SPEED
  {
    if c.phase != Playing then b else Flown(Paddled(c, b, offset), launch, num)
  }

  /**
   * What a frame does to the bodies: outside play nothing moves. In play the
   * paddles stay in the band and the trail within its bound; a point puts the
   * ball back at the centre at the base speed, and otherwise the ball moves by
   * its velocity and never slows down. Either way it keeps moving with a
   * velocity whose length is its legal speed.
   */
  lemma SteppedFacts(c: Snapshot, b: Bodies, offset: real, launch: Launch, num: Numerics)
    requires num.Sound() && launch.Valid()
    requires b.motion.vx != 0.0 && BASE_SPEED <= b.motion.speed <= MAX_SPEED && b.motion.Steady()
    requires InBand(b.leftY) && InBand(b.rightY) && |b.trail| <= TRAIL_LENGTH
    ensures c.phase != Playing ==> Stepped(c, b, offset, launch, num) == b
    ensures InBand(Stepped(c, b, offset, launch, num).leftY) && InBand(Stepped(c, b, offset, launch, num).rightY)
    ensures |Stepped(c, b, offset, launch, num).trail| <= TRAIL_LENGTH
    ensures var m := Stepped(c, b, offset, launch, num).motion;
            m.vx != 0.0 && BASE_SPEED <= m.speed <= MAX_SPEED && m.Steady()
    ensures c.phase == Playing && ScoredBy(b.ballX + b.motion.vx) != Nobody ==>
              && Stepped(c, b, offset, launch, num).ballX == CENTRE_X
              && Stepped(c, b, offset, launch, num).ballY == CENTRE_Y
              && Stepped(c, b, offset, launch, num).motion.speed == BASE_SPEED
    ensures c.phase == Playing && ScoredBy(b.ballX + b.motion.vx) == Nobody ==>
              && Stepped(c, b, offset, launch, num).ballX == b.ballX + b.motion.vx
              && Stepped(c, b, offset, launch, num).ballY == b.ballY + b.motion.vy
              && b.motion.speed <= Stepped(c, b, offset, launch, num).motion.speed
  {
    if c.phase == Playing {
      PaddledInBand(c, b, offset);
      FlownFacts(Paddled(c, b, offset), launch, num);
    }
  }

  class Game {
    const left: Paddle
    const right: Paddle
    const ball: Ball
    const scores: Scoreboard
    var phase: Phase
    var mode: Mode
    var winner: Winner
    var leftUp: bool
    var leftDown: bool
    var rightUp: bool
    var rightDown: bool
    var running: bool

    /** The control state as a value. */
    function State(): Snapshot
      reads this, scores
    {
      Snapshot(phase, mode, winner, scores.left, scores.right,
               Latches(leftUp, leftDown, rightUp, rightDown), running)
    }

    /** The bodies as a value. */
    function Physics(): Bodies
      reads this, left, right, ball, ball.trail
    {
      Bodies(left.y, right.y, ball.x, ball.y, Motion(ball.vx, ball.vy, ball.speed), ball.trail.positions)
    }

    /** Two distinct paddles on their sides and inside the band, a ball in motion, and a consistent control state. */
    ghost predicate Valid()
      reads this, left, right, ball, ball.trail, scores
    {
      && left != right
      && left.x == LEFT_PADDLE_X && right.x == RIGHT_PADDLE_X
      && InBand(left.y) && InBand(right.y)
      && ball.Valid()
      && Consistent(State())
    }

    constructor (launch: Launch)
      requires launch.Valid()
      ensures Valid() && State() == Initial
      ensures fresh(left) && fresh(right) && fresh(ball) && fresh(ball.trail) && fresh(scores)
      ensures left.y == PADDLE_START_Y && right.y == PADDLE_START_Y && ball.LaunchedAlong(launch)
    {
      left := new Paddle(LEFT_PADDLE_X, PADDLE_START_Y);
      right := new Paddle(RIGHT_PADDLE_X, PADDLE_START_Y);
      ball := new Ball(launch);
      scores := new Scoreboard();
      phase, mode, winner := Menu, NoMode, Undecided;
      leftUp, leftDown, rightUp, rightDown := false, false, false, false;
      running := true;
    }

    /** Clears the scores; returns to the menu after a finished game, otherwise (re)starts play. */
    method ResetGame()
      modifies this`phase, this`mode, scores
      ensures State() == Reset(old(State()))
    {
      scores.left := 0;
      scores.right := 0;
      if phase == GameOver {
        phase := Menu;
        mode := NoMode;
      } else {
        phase := Playing;
      }
    }

    /** A key going down: the command keys, then mode selection in the menu, then the paddle flags while playing. */
    method PressKey(k: Key)
      modifies this, scores
      ensures State() == OnEvent(old(State()), Press(k))
    {
      if k == KeyQ {
        running := false;
      } else if k == KeySpace {
        if phase == Menu && mode != NoMode {
          phase := Playing;
          ResetGame();
        } else if phase == Playing {
          phase := Paused;
        } else if phase == Paused {
          phase := Playing;
        }
      } else if k == KeyP {
        if phase == Playing {
          phase := Paused;
        } else if phase == Paused {
          phase := Playing;
        }
      } else if k == KeyR {
        ResetGame();
      }

      if phase == Menu {
        if k == Key1 {
          mode := PlayerVsPlayer;
          phase := Playing;
          ResetGame();
        } else if k == Key2 {
          mode := PlayerVsAi;
          phase := Playing;
          ResetGame();
        }
      }

      if phase == Playing {
        if k == KeyW {
          leftUp := true;
        } else if k == KeyS {
          leftDown := true;
        }
        if mode == PlayerVsPlayer {
          if k == KeyUp {
            rightUp := true;
          } else if k == KeyDown {
            rightDown := true;
          }
        }
      }
    }

    /** A key going up: only the paddle flags, and only while playing. */
    method ReleaseKey(k: Key)
      modifies this
      ensures State() == OnEvent(old(State()), Release(k))
    {
      if phase == Playing {
        if k == KeyW {
          leftUp := false;
        } else if k == KeyS {
          leftDown := false;
        }
        if mode == PlayerVsPlayer {
          if k == KeyUp {
            rightUp := false;
          } else if k == KeyDown {
            rightDown := false;
          }
        }
      }
    }

    method HandleEvent(e: Event)
      requires Valid()
      modifies this, scores
      ensures Valid()
      ensures State() == OnEvent(old(State()), e)
    {
      match e {
        case Quit =>
          running := false;
        case Press(k) =>
          PressKey(k);
        case Release(k) =>
          ReleaseKey(k);
        case Ignored =>
      }
      OnEventConsistent(old(State()), e);
    }

    /** The events of one frame, in order. */
    method HandleEvents(events: seq<Event>)
      requires Valid()
      modifies this, scores
      ensures Valid()
      ensures State() == Handle(old(State()), events)
    {
      var i := 0;
      while i < |events|
        invariant 0 <= i <= |events|
        invariant Valid()
        invariant State() == Handle(old(State()), events[..i])
      {
        assert events[..i + 1][..i] == events[..i];
        HandleEvent(events[i]);
        i := i + 1;
      }
      assert events[..i] == events;
    }

    /** The paddle moves of a frame in play: keyed paddles by their flags, the automated right paddle towards ball.y + offset. */
    method MovePaddles(offset: real)
      requires left != right && InBand(left.y) && InBand(right.y)
      modifies left`y, right`y
      ensures InBand(left.y) && InBand(right.y)
      ensures left.y == Steer(old(left.y), leftUp, leftDown)
      ensures right.y == (if mode == PlayerVsPlayer then Steer(old(right.y), rightUp, rightDown)
                          else if mode == PlayerVsAi then Clamp(old(right.y) + AiStep(old(right.y), ball.y + offset))
                          else old(right.y))
    {
      if leftUp {
        left.Move(-1);
      }
      if leftDown {
        left.Move(1);
      }
      if mode == PlayerVsPlayer {
        if rightUp {
          right.Move(-1);
        }
        if rightDown {
          right.Move(1);
        }
      } else if mode == PlayerVsAi {
        right.AiMove(ball.y, offset);
      }
    }

    /**
     * The ball's part of a frame in play: the step, which may award one point
     * and relaunch, then the contact check against each paddle.
     */
    method StepBall(launch: Launch, num: Numerics)
      requires ball.Valid() && launch.Valid() && num.Sound()
      requires left != right && left.x == LEFT_PADDLE_X && right.x == RIGHT_PADDLE_X
      modifies ball, ball.trail, scores, left`glow, right`glow
      ensures ball.Valid()
      ensures scores.left == old(scores.left) + (if ScoredBy(old(ball.x + ball.vx)) == LeftScores then 1 else 0)
      ensures scores.right == old(scores.right) + (if ScoredBy(old(ball.x + ball.vx)) == RightScores then 1 else 0)
      ensures ball.trail.positions
              == LastN(old(ball.trail.positions) + [Point(old(ball.x + ball.vx), old(ball.y + ball.vy))], TRAIL_LENGTH)
      ensures ScoredBy(old(ball.x + ball.vx)) != Nobody ==> ball.LaunchedAlong(launch)
      ensures ScoredBy(old(ball.x + ball.vx)) == Nobody ==>
                && ball.x == old(ball.x + ball.vx) && ball.y == old(ball.y + ball.vy)
                && Motion(ball.vx, ball.vy, ball.speed)
                   == StepMotion(num, old(Motion(ball.vx, ball.vy, ball.speed)), ball.x, ball.y, left.y, right.y)
      ensures Physics() == Flown(old(Physics()), launch, num)
    {
      ghost var before := Physics();
      ball.Update(scores, launch);
      CentreClearOfPaddles(left.y);
      CentreClearOfPaddles(right.y);
      ghost var walled := Motion(ball.vx, ball.vy, ball.speed);
      var _ := ball.CheckPaddleCollision(left, num);
      ghost var afterLeft := Motion(ball.vx, ball.vy, ball.speed);
      assert afterLeft == Collide(num, walled, ball.x, ball.y, LEFT_PADDLE_X, left.y);
      var _ := ball.CheckPaddleCollision(right, num);
      assert Motion(ball.vx, ball.vy, ball.speed) == Collide(num, afterLeft, ball.x, ball.y, RIGHT_PADDLE_X, right.y);
      if ScoredBy(before.ballX + before.motion.vx) == Nobody {
        assert walled == Walled(before.motion, ball.y);
      }
    }

    /** The bodies' part of a frame in play: the paddles move, then the ball steps and meets the paddles. */
    method Play(offset: real, launch: Launch, num: Numerics)
      requires ball.Valid() && launch.Valid() && num.Sound()
      requires left != right && left.x == LEFT_PADDLE_X && right.x == RIGHT_PADDLE_X
      requires InBand(left.y) && InBand(right.y)
      modifies ball, ball.trail, scores, left`y, right`y, left`glow, right`glow
      ensures ball.Valid() && InBand(left.y) && InBand(right.y)
      ensures scores.left == old(scores.left) + (if ScoredBy(old(ball.x + ball.vx)) == LeftScores then 1 else 0)
      ensures scores.right == old(scores.right) + (if ScoredBy(old(ball.x + ball.vx)) == RightScores then 1 else 0)
      ensures Physics() == Flown(Paddled(State(), old(Physics()), offset), launch, num)
    {
      MovePaddles(offset);
      ghost var paddled := Physics();
      assert paddled == Paddled(State(), old(Physics()), offset);
      StepBall(launch, num);
    }

    /**
     * The game logic of one frame, in play only: the paddles move, the ball
     * steps and is checked against both paddles, and the win check runs.
     */
    method Tick(offset: real, launch: Launch, num: Numerics)
      requires Valid() && launch.Valid() && num.Sound()
      modifies this, left, right, ball, ball.trail, scores
      ensures Valid()
      ensures State() == Advance(old(State()), ScoredBy(old(ball.x + ball.vx)))
      ensures Physics() == Stepped(old(State()), old(Physics()), offset, launch, num)
      ensures old(phase) == Playing && ScoredBy(old(ball.x + ball.vx)) == Nobody ==>
                ball.x == old(ball.x + ball.vx) && ball.y == old(ball.y + ball.vy) && old(ball.speed) <= ball.speed
      ensures old(phase) == Playing && ScoredBy(old(ball.x + ball.vx)) != Nobody ==>
                ball.x == CENTRE_X && ball.y == CENTRE_Y && ball.speed == BASE_SPEED
    {
      SteppedFacts(State(), Physics(), offset, launch, num);
      if phase == Playing {
        Play(offset, launch, num);
        if scores.left >= MAX_SCORE {
          winner := LeftWins;
          phase := GameOver;
        } else if scores.right >= MAX_SCORE {
          winner := RightWins;
          phase := GameOver;
        }
      }
      AdvanceConsistent(old(State()), ScoredBy(old(ball.x + ball.vx)));
    }

    /** One pass of the main loop: the frame's events, then its game logic. */
    method Frame(events: seq<Event>, offset: real, launch: Launch, num: Numerics)
      requires Valid() && launch.Valid() && num.Sound()
      modifies this, left, right, ball, ball.trail, scores
      ensures Valid()
      ensures State() == Run(old(State()), [Control.Frame(events, ScoredBy(old(ball.x + ball.vx)))])
      ensures Physics() == Stepped(Handle(old(State()), events), old(Physics()), offset, launch, num)
    {
      HandleEvents(events);
      Tick(offset, launch, num);
    }
  }
}
