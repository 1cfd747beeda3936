# Ping-pong simulation, modelled in Dafny

This project models the simulation layer of a browser ping-pong game (`ping-pong.js`):
a human-controlled left paddle, a computer-controlled right paddle, a ball that
speeds up over time and bounces off the two walls and the paddles, and a scoreboard
that plays rounds until a player reaches seven points. Rendering, browser event wiring
and the frame timer are outside the model; everything they feed in (elapsed time,
held keys, click coordinates, random draws) is a parameter.

Layout, one module per component:

- `jsmath.dfy` (`JsMath`): `Math.sign` and `Math.abs`.
- `geometry.dfy` (`Geometry`): `Rectangle`, its strict overlap and containment tests.
- `settings.dfy` (`Settings`): the game's constants and the `Bounds` value.
- `paddles.dfy` (`Paddles`): the `Paddle` class and the clamped moves it makes.
- `balls.dfy` (`Balls`): the `Ball` class, the clamping speed setter, and the
  step-by-step ball update as pure functions (`Advance` and its stages).
- `controllers.dfy` (`Controllers`): the player's key-driven controller and the
  computer's two-draw randomised controller.
- `scoring.dfy` (`Scoring`): the `ScoreBoard` class and its derived winner.
- `tables.dfy` (`Tables`): the `Table` class (bounds, frame update, match start,
  ball spawn, scoring) and the pure `MatchState` functions its methods are proved against.
- `game.dfy` (`Game`): the start button and the two "start only when no match is
  running" guards.

Objects whose fields the program updates in place are classes; each state-changing
method's postcondition ties the new state to a pure function of the old state
(`ball.State() == Advance(old(ball.State()), …)`, `Match() == BallFrame(old(Match()), …)`),
and the game's properties are proved as lemmas about those functions and kept as the
`Table.Valid()` invariant (speed in [100, 300], directions in {-1, 0, +1}, and while a
match runs: unit directions and no winner yet).

Positions and speeds are `real`; each `Math.random()` call is a parameter (the
program draws from [0, 1); the methods accept any value).

## Scoring as the program runs it

At `ping-pong.js:211` the parameter of `scorePoint` is named `playerIndex`, like the
global slot object, and hides it. `playerIndex.playerOne` then reads a property of a
number, which is undefined, and neither 1 nor 2 equals undefined, so the test is always
false: every point, on either side, is credited to player two. The model does what the
code does (`Tables.ScoredPoint`, `Tables.Table.ScorePoint`); `Tables.ScorePointIgnoresSlot`
states that the slot makes no difference, and `Tables.PlayerOneNeverScores` proves the
consequence over any sequence of frames: the human player, on the left, can never score
and never win.

## Model

| member | source | states |
|---|---|---|
| Geometry.OverLapsSymmetric | ping-pong.js:537-544 | the overlap test gives the same answer with its arguments swapped |
| Geometry.TouchingEdgesDoNotOverlap | ping-pong.js:537-544 | boxes that only share an edge (right to left or bottom to top) do not overlap, in either order |
| Geometry.EdgePointNotContained | ping-pong.js:546-548 | a point lying on any edge of a box is not contained in it |
| Geometry.OverLapsIffCommonPoint | ping-pong.js:524-544 | for boxes with area, the interval test holds exactly when some point lies strictly inside both boxes |
| Paddles.MovedUp | ping-pong.js:295-301 | after moving up the top edge is never above the upper wall; it is the moved position, or the wall when the move would cross it |
| Paddles.MovedDown | ping-pong.js:302-308 | after moving down the bottom edge is never below the lower wall; it is the moved position, or flush with the wall when the move would cross it |
| Paddles.MoveUpKeepsPaddleInCourt | ping-pong.js:295-301 | for dt >= 0 a paddle between the walls stays between them, does not move down, and rises at most 150·dt |
| Paddles.MoveDownKeepsPaddleInCourt | ping-pong.js:302-308 | for dt >= 0 a paddle between the walls stays between them, does not move up, and falls at most 150·dt |
| Paddles.Paddle.constructor | ping-pong.js:264-273 | position, size and slot as given; the start position is the given position |
| Paddles.Paddle.MoveUp | ping-pong.js:295-301 | only `posY` changes, to `MovedUp` of the old value; x, width and height are untouched |
| Paddles.Paddle.MoveDown | ping-pong.js:302-308 | only `posY` changes, to `MovedDown` of the old value; x, width and height are untouched |
| Paddles.Paddle.Reset | ping-pong.js:310-313 | the paddle is back at its construction-time position |
| Balls.ClampSpeed | ping-pong.js:341-349 | the stored speed always lies in [100, 300] and equals the assigned value when that is in range |
| Balls.ClampSpeedIsNearest | ping-pong.js:341-349 | the stored speed is the allowed speed nearest to the assigned value |
| Balls.ClampSpeedMonotone | ping-pong.js:341-349 | assigning a larger value never stores a smaller speed |
| Balls.Normalized | ping-pong.js:351-353 | for an in-range speed the normalized speed lies in [0, 1]; it is 0 exactly at 100 and 1 exactly at 300 |
| Balls.ReflectOffWalls | ping-pong.js:373-379 | a ball above the upper wall is put at upper + radius, else one below the lower wall at lower − radius, with the vertical direction negated; a ball between the walls is untouched |
| Balls.ReflectKeepsBallInCourt | ping-pong.js:373-379 | when the court is at least one ball tall, the ball ends wholly between the walls after the reflection step |
| Balls.AdvanceKeepsBallInCourt | ping-pong.js:371-391 | the same holds after the whole move-and-collide sequence, since nothing after the reflection moves the ball vertically |
| Balls.AdvanceKeepsDirections | ping-pong.js:370-391 | each direction component is kept or negated, so unit directions stay in {−1, +1} and signs in {−1, 0, +1} |
| Balls.Advance | ping-pong.js:370-391 | moving and colliding never changes the speed |
| Balls.LeftBounceSeparates | ping-pong.js:381-384 | a ball overlapping the left paddle is reversed and left touching the paddle's right edge, no longer overlapping it |
| Balls.RightBounceSeparates | ping-pong.js:386-389 | a ball overlapping the right paddle is reversed and left touching the paddle's left edge, no longer overlapping it |
| Balls.ExitSide | ping-pong.js:393-396 | the ball has left by the left edge exactly when x < left, by the right edge exactly when it has not left by the left and x > right |
| Balls.Accelerated | ping-pong.js:398 | the accelerated speed lies in [100, 300] and nothing but the speed changes |
| Balls.AcceleratedNotSlower | ping-pong.js:398 | for dt >= 0 and an in-range speed, accelerating never lowers the speed |
| Balls.Ball.constructor | ping-pong.js:317-327 | the ball starts where given, with no direction and speed 100 |
| Balls.Ball.SetSpeed | ping-pong.js:341-349 | the setter stores `ClampSpeed` of the assigned value and changes nothing else |
| Balls.Ball.MoveAndCollide | ping-pong.js:370-396 | the new ball state is `Advance` of the old one, the object invariant is kept, and the reported exit is `ExitSide` of the new x |
| Balls.Ball.StepVertically | ping-pong.js:371-379 | the vertical move followed by the wall reflection; only y and the vertical direction change |
| Balls.Ball.CollideWithPaddles | ping-pong.js:381-389 | the left-paddle check, then the right-paddle check on the box the first left; only x and the horizontal direction change |
| Balls.Ball.StepHorizontally | ping-pong.js:391-396 | the horizontal move; only x changes; the exit is classified from the new x |
| Balls.Ball.Accelerate | ping-pong.js:398 | the speed becomes the clamp of the old speed plus 2·dt |
| Controllers.MovedByKeepsPaddleInCourt | ping-pong.js:258-261 | for dt >= 0, whatever move a controller picks, a paddle between the walls stays between them |
| Controllers.VelocityY | ping-pong.js:250-256 | the velocity is negative exactly when only up is held, positive exactly when only down is held, zero when both or neither are |
| Controllers.PlayerMove | ping-pong.js:258-261 | the paddle moves up exactly when only up is held, down exactly when only down is held, and stays still otherwise |
| Controllers.PlayerPaddleController.constructor | ping-pong.js:227-232 | the controller drives the given paddle with no key held |
| Controllers.PlayerPaddleController.Update | ping-pong.js:258-261 | only the paddle's `posY` changes, by the move `PlayerMove` picks from the held keys |
| Controllers.PredictChanceAtClosestSlowest | ping-pong.js:435-442 | at distance 20 and normalized speed 0 the prediction chance is exactly 1 |
| Controllers.PredictChanceMonotone | ping-pong.js:435-442 | a closer or slower ball never has a lower prediction chance |
| Controllers.TowardFollowsBall | ping-pong.js:448-457 | the tracking move is up exactly when the paddle's centre is below the ball, and the wrong-way move is always its opposite |
| Controllers.CpuMove | ping-pong.js:452-467 | a first draw at most the chance tracks the ball; otherwise a second draw below 0.2 moves the wrong way and any other leaves the paddle still |
| Controllers.CertainTracking | ping-pong.js:452-457 | with a chance of 1 or more every first draw in [0, 1) tracks the ball |
| Controllers.HopelessTracking | ping-pong.js:452-467 | with a negative chance no first draw in [0, 1) tracks the ball |
| Controllers.TracksClosestSlowestBall | ping-pong.js:431-457 | a ball at distance 20 moving at the minimum speed is tracked whatever the draws |
| Controllers.CpuPaddleController.constructor | ping-pong.js:411-414 | the controller drives the given paddle and watches the given ball |
| Controllers.CpuPaddleController.Update | ping-pong.js:444-468 | only the paddle's `posY` changes, by the move `CpuMove` picks from the two draws, the chance and the ball's side |
| Scoring.WinnerOf | ping-pong.js:476-484 | the winner is 1 exactly when player one has 7 or more, 2 exactly when player one has fewer and player two 7 or more, 0 exactly when both have fewer |
| Scoring.ScoreBoard.constructor | ping-pong.js:472-474 | a new scoreboard has both scores and the round at 0 |
| Scoring.ScoreBoard.Reset | ping-pong.js:510-514 | both scores and the round become 0 |
| Tables.TableBounds | ping-pong.js:151-160 | the upper bound is margin plus wall (25), the court is centred vertically on the canvas, and the side bounds are the canvas edges |
| Tables.CentreIsInCourt | ping-pong.js:151-160 | on a canvas tall enough for the walls and a ball, a ball at the centre is wholly between the walls and has not left the court |
| Tables.SpawnedBall | ping-pong.js:200-209 | a spawned ball is at the canvas centre with speed 100 and each direction +1 exactly when its draw exceeds 0.5, otherwise −1 |
| Tables.ScoredPoint | ping-pong.js:210-223 | player two's score rises by one and player one's does not; with a winner the match stops and round and ball are kept, otherwise the round rises by one and the ball is re-spawned |
| Tables.ScorePointIgnoresSlot | ping-pong.js:210-215 | the outcome of scoring is the same whichever slot is passed |
| Tables.ScoredPointPreservesInvariant | ping-pong.js:210-223 | scoring keeps the match invariant: while running, unit directions and no winner |
| Tables.BallFrame | ping-pong.js:370-399 | after a ball frame the speed is in [100, 300] |
| Tables.BallFramePreservesInvariant | ping-pong.js:370-399 | every ball frame keeps the match invariant, so speed stays in range across any sequence of frames |
| Tables.SpeedNeverDecreasesWithinRound | ping-pong.js:398 | a frame in which nobody scores keeps score and running flag and does not slow the ball |
| Tables.ScoringFrameRespawns | ping-pong.js:393-398 | a scoring frame without a winner credits player two, advances the round, re-centres the ball with unit directions, and leaves it at the clamp of 100 + 2·dt: above 100 whenever dt > 0, and exactly 100 + 2·dt when 0 <= dt <= 100 |
| Tables.WinningFrameStopsMatch | ping-pong.js:210-223 | a scoring frame that makes a winner stops the match, keeps the round, and does not re-spawn the ball |
| Tables.FrameStep | ping-pong.js:161-167 | a frame with no match running changes nothing; every frame leaves player one's score as it was, never lowers player two's score or the round, and keeps the match invariant |
| Tables.PlayPreservesInvariant | ping-pong.js:161-167 | after any sequence of frames, whatever the paddles do, the match invariant holds; its second clause, the speed in [100, 300], is the invariant's speed conjunct restated as a corollary |
| Tables.PlayerOneNeverScores | ping-pong.js:210-215 | across any sequence of frames player one's score never changes, so a match started at 0 to 0 is never won by player one |
| Tables.ScoreNeverPassesWinScore | ping-pong.js:210-223 | from a state that meets the match invariant with player two at 7 or fewer, across any sequence of frames player two's score and the round never drop and player two's score never passes 7 (player one's score is covered by `Tables.PlayerOneNeverScores`) |
| Tables.Table.constructor | ping-pong.js:105-138 | the paddles, ball, controllers and scoreboard are built as the program builds them, no match is running, and the invariant holds |
| Tables.Table.SpawnBall | ping-pong.js:200-209 | the ball's state becomes `SpawnedBall` of the two draws |
| Tables.Table.ScorePoint | ping-pong.js:210-223 | the match state becomes `ScoredPoint` of the old one, and the invariant is kept |
| Tables.Table.StartMatch | ping-pong.js:191-198 | the match is running, scores 0 and 0, round 1, both paddles at their start positions, ball spawned from the draws |
| Tables.Table.UpdateBall | ping-pong.js:370-399 | the match state becomes `BallFrame` of the old one, with the paddles' current boxes, and the invariant is kept |
| Tables.Table.Update | ping-pong.js:161-167 | nothing changes when no match is running; otherwise the left paddle moves by the player's keys, then the right paddle by the CPU policy on the ball as it was, then the ball frame runs against the moved paddles |
| Game.StartButtonRect | ping-pong.js:34-39 | the start button has area and contains the canvas centre |
| Game.PingPongGame.constructor | ping-pong.js:31-39 | a fresh table with no match running and the start button centred on the canvas |
| Game.PingPongGame.Click | ping-pong.js:48-53 | a click strictly inside the start button starts a match only when none is running; otherwise nothing changes |
| Game.PingPongGame.KeyDown | ping-pong.js:56-59 | the space key starts a match only when none is running; otherwise nothing changes |

## Left out

- Drawing (`draw` methods, colours, fonts, `renderColor`): rendering through the canvas API, not simulation.
- Event listeners, key decoding into the held-key flags, and `getBoundingClientRect`: browser input; the flags, the pressed key and the click coordinates are inputs of the model.
- The `setInterval` / `Date.now` frame loop, `PingPongGame.run`, `_update` and `startGame`: timer and DOM plumbing; `dt` is a parameter.
- `Math.random()`: every draw is a parameter. The CPU controller's second draw is always passed, though the program only draws it when the first draw fails.
- Floating-point rounding, NaN and infinities: positions and speeds are reals.
- The back-references from `Paddle` and `Ball` to the table: bounds and paddle boxes are passed in as values, and `Ball.update`'s call into `scorePoint` is modelled by `Ball.MoveAndCollide` reporting the exit side, `Table.UpdateBall` scoring, and `Ball.Accelerate` running afterwards, in the program's order.
- `Tables.Play` folds frames over the match state with the paddles' boxes as free inputs, so its lemmas hold whatever the controllers do; the per-frame paddle moves are stated by `Tables.Table.Update` instead.
- `Paddle.collisionBox`, `Ball.collisionBox` and the rectangle edge getters are plain functions without contracts of their own; their meaning is carried by the lemmas about overlap and bouncing.
- Geometry.OverLaps, Geometry.Contain, Balls.MoveVertically, Balls.BounceOffLeftPaddle, Balls.BounceOffRightPaddle, Balls.MoveHorizontally, Controllers.BallDistance, Controllers.PredictChance, Controllers.BallDeltaY, Controllers.Toward and Controllers.Away: definitions without contracts of their own (`overLaps`, `contain`, the stages of `Ball.update`, and the pieces of the CPU controller's policy); what they mean is stated by the lemmas and functions built on them: `Geometry.OverLapsSymmetric`, `Geometry.TouchingEdgesDoNotOverlap`, `Geometry.EdgePointNotContained`, `Geometry.OverLapsIffCommonPoint`, `Balls.Advance`, `Balls.AdvanceKeepsDirections`, `Balls.AdvanceKeepsBallInCourt`, `Balls.LeftBounceSeparates`, `Balls.RightBounceSeparates`, `Controllers.PredictChanceAtClosestSlowest`, `Controllers.PredictChanceMonotone`, `Controllers.TowardFollowsBall`, `Controllers.CpuMove` and `Controllers.TracksClosestSlowestBall`.
