# Pong simulation core, modelled in Dafny

This project models the game simulation of a single-file Pong game (`PongAi.py`): paddle motion by key
or by the automated opponent, the ball's flight, wall bounces, scoring and relaunch, the paddle contact
response with its speed ramp, the ball's bounded trail, the game reset, the keyboard handler of the main
loop and the per-frame win check. The game's mutable objects are Dafny classes whose methods follow the
source statement by statement. Each method is proved against specification functions, and lemmas state what
the game promises about those functions.

Files and modules:

- `geometry.dfy` (`Geometry`): playfield constants, and the inclusive ball-versus-paddle contact test,
  proved equal to "the two closed boxes share a point".
- `trails.dfy` (`Trails`): the `Trail` class (a bounded FIFO of positions). It comes with the window
  function `LastN` and the proof that any sequence of additions keeps exactly the most recent positions.
- `paddles.dfy` (`Paddles`): the `Paddle` class with `Move`, `AiMove` and `ActivateGlow`, the band clamp
  and the automated opponent's easing step.
- `scoring.dfy` (`Scoring`): the two scores (globals in the source) as a `Scoreboard` object shared by the
  ball and the game, and the winning score 10.
- `balls.dfy` (`Balls`): the `Ball` class with `ResetBall`, `Update` and `CheckPaddleCollision`, and the
  contact response as a function on the ball's motion.
- `control.dfy` (`Control`): the control state (phase, mode, winner, scores, held-key flags, running flag)
  as a value. The key handler, `reset_game` and the win check are functions on it, and the invariant of
  all reachable states is proved.
- `pong.dfy` (`Pong`): the `Game` class that holds both paddles, the ball, the scores and the control
  state. It has the key handler, the event loop of one frame and the game logic of one frame, each proved
  to act as the `Control` functions say.

Python floats are modelled as reals. The random launch angle, the AI's random aiming error, the sine and
the square root come in as parameters:

- `Launch` is a unit vector within 30 degrees of horizontal.
- The offset is any real.
- `Numerics` carries a sine in degrees and a square root, with the sign and root laws the proofs use.

Integer divisions of the source stay integer divisions (`WIDTH // 2`, `HEIGHT // 2`, `paddle.height // 2`).
The source's behaviour is reproduced as written, including these quirks:

- R in the menu starts play with no mode chosen.
- R during a pause resumes play.
- A paddle key held when the game pauses stays latched.
- The space bar's start branch in the menu can never fire, because no reachable menu state has a mode.

## Model

| member | source | states |
|---|---|---|
| Geometry.ContactIffCommonPoint | PongAi.py:277-280 | the four inclusive comparisons of the contact test hold exactly when the ball's bounding square and the paddle's rectangle share a point |
| Geometry.SquareMeetsRect | PongAi.py:277-280 | the ball meets the paddle exactly when the ball's centre lies in the paddle's rectangle grown by the ball's half-size on every side, edges included |
| Trails.Trail.constructor | PongAi.py:144-146 | a new trail is empty and has the given bound |
| Trails.Trail.AddPosition | PongAi.py:148-151 | appending then dropping the oldest on overflow leaves the last maxLength positions of the old trail plus the new one, and keeps the bound |
| Trails.AddKeepsRecent | PongAi.py:148-151 | one addition keeps the bound and makes the new point the newest; a trail with room keeps every point; a full trail loses exactly its oldest point, the others keeping their order |
| Trails.WindowOfWindow | PongAi.py:148-151 | cutting the trail to its bound before an addition gives the same trail as cutting the whole history after it |
| Trails.AddAllIsRecentWindow | PongAi.py:148-151 | after any number of additions the trail is exactly the most recent maxLength positions of its whole history |
| Paddles.Clamp | PongAi.py:175-177 | the clamp always lands in the band between the borders, leaves a position inside the band unchanged and maps a position above or below the band to the nearer bound |
| Paddles.ClampIsNearest | PongAi.py:177 | no position in the band is closer to the unclamped value than the clamped one |
| Paddles.AiStep | PongAi.py:180-196 | the AI step is at most the paddle speed, points towards the target and never carries the centre past it, and is zero on target |
| Paddles.AiMoveBounded | PongAi.py:180-201 | from inside the band, one AI move shifts the paddle by at most its speed, towards the target, without overshooting |
| Paddles.Paddle.constructor | PongAi.py:165-173 | a new paddle sits at the given position without glow |
| Paddles.Paddle.Move | PongAi.py:175-177 | the paddle takes one speed step in the given direction, then is clamped, so it always ends in the band |
| Paddles.Paddle.AiMove | PongAi.py:179-201 | the paddle moves by the AI step towards ball y plus the aiming error, then is clamped; it ends in the band and moves at most its speed |
| Paddles.Paddle.ActivateGlow | PongAi.py:216-217 | a contact lights the paddle at full glow |
| Scoring.Scoreboard.constructor | PongAi.py:65-66 | both scores start at zero |
| Balls.Ramp | PongAi.py:296 | the speed after a contact never exceeds the cap, never decreases from a legal speed, strictly rises below the cap, and is either one step up or the cap |
| Balls.WallContact | PongAi.py:254 | the ball touches no wall exactly when its vertical extent lies strictly between the two border bands |
| Balls.HitPositionRange | PongAi.py:283-284 | the hit position lies in [-1, 1] exactly when the ball's centre is level with the paddle; it is negative exactly above the paddle's centre, zero exactly at it and positive exactly below it |
| Balls.BounceAngleRange | PongAi.py:283-285 | a centre hit rebounds at 0 degrees, hits above the centre at negative angles, hits on the top and bottom edges at -60 and 60, and the angle stays within 60 degrees exactly when the ball's centre is level with the paddle |
| Balls.ContactVerticalDirection | PongAi.py:283-293 | for a ball touching the paddle, the vertical velocity the response sets points up above the paddle's centre, down below it, and is zero level with it |
| Balls.Renormalised | PongAi.py:297-299 | dividing a vector by its length and multiplying by s gives a vector of length s |
| Balls.ScaledKeepsSign | PongAi.py:298-299 | rescaling by a positive factor keeps each component's sign |
| Balls.RootOfSumOfSquares | PongAi.py:297 | the velocity's length is positive whenever its horizontal part is non-zero, so the division never divides by zero |
| Balls.ReboundVelocity | PongAi.py:297-299 | the rescaled velocity has the new speed as its length and keeps both components' signs |
| Balls.Rescaled | PongAi.py:297-299 | the rescaled motion has speed s, a velocity of length s, and the signs of the unscaled velocity |
| Balls.ContactResponse | PongAi.py:283-299 | after a contact the speed is one ramp step up, the velocity has that length, heads away from the paddle's side and vertically the way the ball's centre lies from the paddle's centre |
| Balls.Collide | PongAi.py:276-307 | the contact check on the ball's motion: without contact the motion is unchanged; with contact the speed is one ramp step up and vx points away from the paddle's side; vx stays non-zero, the speed legal, and a velocity whose length is the speed keeps that property |
| Balls.Ball.constructor | PongAi.py:223-229 | a new ball is launched from the centre with an empty trail of bound 15 |
| Balls.Ball.ResetBall | PongAi.py:231-239 | the ball is at the centre with speed 6, its velocity along the launch direction, within 30 degrees of horizontal |
| Balls.Ball.Update | PongAi.py:241-274 | the ball moves by its velocity and records the new position in the trail. If it leaves on the left, the right score rises by exactly one; if it leaves on the right, the left score does; either way the ball is relaunched from the centre at speed 6. Otherwise no score changes and vy is negated exactly on wall contact |
| Balls.Ball.CheckPaddleCollision | PongAi.py:276-307 | the result is true exactly when the ball's bounding square meets the paddle. Without contact nothing changes. With contact the position is kept, the motion becomes exactly Balls.ContactResponse of the old velocity, old speed and hit position (speed ramped, vx away from the paddle's side, vy the way the hit lies from the paddle's centre), and the paddle glows; the ball stays in motion |
| Control.Reset | PongAi.py:427-436 | both scores become zero. A finished game returns to the menu with no mode. Any other phase, the menu included, goes to play with its mode unchanged |
| Control.TogglePause | PongAi.py:465-473 | playing and paused swap, the menu and a finished game stay as they are, and nothing but the phase changes |
| Control.Command | PongAi.py:458-475 | the first stage of a key press: only Q stops the loop; the flags and the winner never change; only R can drop the mode; the scores are kept or both cleared; keys other than Q, space, P and R do nothing |
| Control.SelectMode | PongAi.py:477-486 | outside the menu, or for keys other than 1 and 2, nothing changes; a change is always the start of play at 0-0 with a mode chosen; flags, running flag and winner are kept |
| Control.Latch | PongAi.py:488-517 | outside play nothing changes; in play W and S set the left paddle's flags to the key's state, the arrow keys the right paddle's in two-player mode only, and nothing but the flags changes |
| Control.OnEvent | PongAi.py:454-517 | one event stops the loop exactly when it is a window close or Q; it never changes the winner, and either keeps both scores or clears both; other event types change nothing |
| Control.Handle | PongAi.py:454-517 | a frame's events leave the loop running exactly when it ran before and no event was a window close or Q; the winner is kept and the scores are kept or both cleared |
| Control.Judge | PongAi.py:541-547 | the game ends exactly when a side has reached the maximum; the left side is checked first; nothing else changes |
| Control.InitialConsistent | PongAi.py:65-70 | the starting state (menu, no mode, 0-0) is consistent |
| Control.OnEventConsistent | PongAi.py:454-517 | every event keeps the menu mode-free at 0-0, a game in progress below the maximum, and a finished game's winner correct |
| Control.HandleConsistent | PongAi.py:454-517 | any sequence of events keeps the state consistent |
| Control.AdvanceConsistent | PongAi.py:520-547 | the game logic of a frame keeps the state consistent |
| Control.Advance | PongAi.py:519-547 | the game logic of a frame changes nothing outside play; in play it adds the point scored to exactly that side, keeps mode, flags and running flag, and can only move the phase to a finished game |
| Control.Run | PongAi.py:449-547 | a run of frames never restarts a stopped loop, and a loop still running after the frames was still running after the first frame's events |
| Control.RunConsistent | PongAi.py:449-547 | every state reachable from the start through any frames of events and points is consistent |
| Control.SpaceInMenuIgnored | PongAi.py:461-464 | in every reachable menu state the space bar does nothing |
| Control.SpaceStartsWithMode | PongAi.py:462-464 | in the menu with a mode set, the space bar would start play at 0-0 |
| Control.ResetInMenuStartsWithoutMode | PongAi.py:427-436 | R in the menu starts play at 0-0 with the mode still unset |
| Control.ResetWhilePausedResumes | PongAi.py:427-436 | R during a pause clears the scores and resumes play |
| Control.ResetAfterGameOver | PongAi.py:427-436 | R after a finished game goes to the menu with no mode at 0-0, and a second R starts play without a mode |
| Control.PauseToggles | PongAi.py:461-473 | space and P swap playing and paused, change nothing else, and a second press restores the state |
| Control.PauseIgnoredOutsideGame | PongAi.py:469-473 | P has no effect in the menu or after a finished game |
| Control.SelectModeStarts | PongAi.py:478-486 | in the menu, 1 and 2 start play at 0-0 in two-player or AI mode; in any other phase they do nothing |
| Control.LatchesOnlyWhilePlaying | PongAi.py:488-517 | held-key flags change only while playing, and the right paddle's only in two-player mode |
| Control.LatchFollowsKey | PongAi.py:488-517 | while playing, pressing W, S (and the arrows in two-player mode) sets the flag and releasing clears it |
| Control.QuitOnlyStops | PongAi.py:455-460 | closing the window or pressing Q only clears the running flag |
| Control.PointDecidesGame | PongAi.py:541-547 | in a reachable game, a point ends the game exactly when it brings that side to the maximum, and that side wins |
| Control.AdvanceMovesOnePoint | PongAi.py:520-547 | outside play the game logic changes nothing; in play scores never fall and rise by at most one point in total |
| Pong.SteerBounded | PongAi.py:521-532 | a keyed paddle stays in the band, moves at most one step, in the direction of the held key. With both keys held it stays put, unless the top clamp cuts the up step |
| Pong.ScoredBy | PongAi.py:261-268 | the right side scores exactly when the ball has left past the left edge, the left side exactly when it has left past the right edge |
| Pong.Steer | PongAi.py:521-532 | with a key held the paddle ends in the band; with no key held it stays where it is |
| Pong.Walled | PongAi.py:253-255 | the wall bounce keeps vx and the speed, keeps or reverses vy, and keeps the velocity's length equal to the speed |
| Pong.StepMotion | PongAi.py:537-539 | after the wall bounce and the contact checks against the left and then the right paddle, vx is non-zero, the speed has not decreased and stays at most the cap, and the velocity's length stays the speed |
| Pong.PaddledInBand | PongAi.py:521-534 | the paddle moves of a frame keep both paddles in the band and change nothing but the paddles |
| Pong.RelaunchSteady | PongAi.py:231-239 | a relaunch along a valid direction has a velocity of length 6 with a non-zero horizontal part |
| Pong.FlownFacts | PongAi.py:537-539 | the ball's step leaves the paddles alone and the trail within 15 positions; a point puts the ball at the centre at speed 6, otherwise it moves by its velocity and never slows; it keeps a legal speed, a non-zero vx and a velocity of length its speed |
| Pong.SteppedFacts | PongAi.py:519-539 | outside play the bodies do not move; in play the paddles stay in the band, the trail within its bound, a point relaunches the ball from the centre at speed 6, otherwise the ball moves by its velocity and never slows, and its velocity keeps the speed as its length |
| Pong.CentreClearOfPaddles | PongAi.py:538-539 | a ball relaunched at the centre touches neither paddle |
| Pong.Game.constructor | PongAi.py:442-449 | the game starts in the menu with no mode, 0-0, no keys held, both paddles centred on their sides and the ball launched |
| Pong.Game.ResetGame | PongAi.py:427-436 | the control state changes exactly as Control.Reset says |
| Pong.Game.PressKey | PongAi.py:458-501 | a key press changes the control state exactly as the command, mode-selection and flag stages of Control.OnEvent say |
| Pong.Game.ReleaseKey | PongAi.py:503-517 | a key release changes only the flags, as Control.OnEvent says |
| Pong.Game.HandleEvent | PongAi.py:454-517 | one event changes the control state as Control.OnEvent says and keeps the game valid |
| Pong.Game.HandleEvents | PongAi.py:454-517 | a frame's events change the control state as Control.Handle says and keep the game valid |
| Pong.Game.MovePaddles | PongAi.py:521-534 | the left paddle follows its held keys; the right one follows its keys in two-player mode, the AI step in AI mode, and stays put otherwise; both stay in the band |
| Pong.Game.StepBall | PongAi.py:537-539 | a point goes to exactly the side the ball left towards, after which the ball is relaunched at the centre; with no point the ball is at its old position plus its velocity and its motion is Pong.StepMotion (wall bounce, then the left and the right contact check); the trail records the new position; altogether the bodies change as Pong.Flown says |
| Pong.Game.Play | PongAi.py:520-539 | the bodies' part of a frame in play: the paddles and the ball change as Pong.Flown after Pong.Paddled says, the scores by the point scored, and the paddles stay in the band |
| Pong.Game.Tick | PongAi.py:519-547 | the control state becomes Control.Advance of the point scored and the bodies become Pong.Stepped of the old ones (so outside play nothing moves); in play a point leaves the ball at the centre at speed 6, otherwise the ball is at its old position plus its velocity and not slower; the game stays valid |
| Pong.Game.Frame | PongAi.py:449-547 | one pass of the main loop changes the control state as one step of Control.Run says, and the bodies as Pong.Stepped says under the control state the frame's events leave |

## Left out

- Drawing is not modelled: the `draw` methods, the menu, pause and game-over screens, the gradient and the centre line. It is rendering only. The same goes for the glow decay inside `Paddle.draw`, so the glow is only ever set, never faded.
- Sound creation and playback are not modelled. They are foreign library calls with no effect on game state.
- The `Particle` class and `create_particles` are not modelled. They are cosmetic and have no effect on the simulation.
- Display setup, event polling, `clock.tick` and program exit are not modelled. Events arrive as a sequence of `Event` values instead. `Control.Run` keeps applying frames after the running flag is cleared, so the reachable-state invariant covers more runs than the real loop allows.
- Randomness is passed in as parameters:
  - the launch angle (`random.uniform` and `random.choice` in `reset_ball`) is a `Launch` direction;
  - the AI's aiming error (`random.uniform` in `ai_move`) is the `offset` argument.
- The paddle's `color` and `target_y` fields, and the ball's `radius` field, are constants or unused.
- Paddle width and height are fixed at 15 by 80, and the AI difficulty is folded into the free `offset`. These are the only values the game uses.
- Balls.Ball.ResetBall: cos and sin of the random angle are not computed. The model takes any unit vector whose horizontal part is at least cos 30 degrees, which is what the angle range guarantees of exact trigonometry.
- Balls.ContactResponse: states the signs and the length of the new velocity, not its exact components. These depend on the floating-point sine and square root, which are modelled only by their sign and root laws. Rounding error is not modelled, so "the velocity has length speed" holds for exact arithmetic only.
- Balls.Ball.CheckPaddleCollision: the new motion is stated as Balls.ContactResponse, whose exact velocity is known only through its signs and its length, for the same reason as Balls.ContactResponse.
