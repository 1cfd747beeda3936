/** The two paddle controllers: the human player's, driven by two held keys, and
    the computer's, a two-draw randomised tracker. */
module Controllers {
  import opened JsMath
  import opened Settings
  import opened Paddles
  import opened Balls

  /** What a controller does to its paddle in one frame. */
  datatype PaddleMove = Up | Down | Still

  /** The paddle's top edge after `move` is applied through moveUp / moveDown. */
  function MovedBy(move: PaddleMove, posY: real, height: real, dt: real, b: Bounds): real
  {
    match move
    case Up => MovedUp(posY, dt, b.upper)
    case Down => MovedDown(posY, height, dt, b.lower)
    case Still => posY
  }

  /** Whatever a controller decides, a paddle that starts between the walls stays there. */
  lemma MovedByKeepsPaddleInCourt(move: PaddleMove, posY: real, height: real, dt: real, b: Bounds)
    requires dt >= 0.0 && InCourt(posY, height, b)
    ensures InCourt(MovedBy(move, posY, height, dt, b), height, b)
  {
  }

  // ----- PlayerPaddleController -----

  /** `velocityY`: up contributes -1 and down +1. */
  function VelocityY(up: bool, down: bool): (v: int)
    ensures -1 <= v <= 1
    ensures v < 0 <==> up && !down
    ensures v > 0 <==> down && !up
    ensures v == 0 <==> up == down
  {
    (if up then -1 else 0) + (if down then 1 else 0)
  }

  /** The dispatch in `update` on the sign of `velocityY`. */
  function PlayerMove(up: bool, down: bool): (m: PaddleMove)
    ensures m == Up <==> up && !down
    ensures m == Down <==> down && !up
    ensures m == Still <==> up == down
  {
    var v := VelocityY(up, down);
    if v > 0 then Down else if v < 0 then Up else Still
  }

  class PlayerPaddleController {
    const paddle: Paddle
    /** Held-key flags; the key listeners that set them are outside this model. */
    var isUpKeyPressed: bool
    var isDownKeyPressed: bool

    constructor (paddle: Paddle)
      ensures this.paddle == paddle && !isUpKeyPressed && !isDownKeyPressed
    {
      this.paddle := paddle;
      isUpKeyPressed := false;
      isDownKeyPressed := false;
    }

    method Update(dt: real, b: Bounds)
      modifies paddle`posY
      ensures paddle.posY == MovedBy(PlayerMove(isUpKeyPressed, isDownKeyPressed), old(paddle.posY), paddle.height, dt, b)
    {
      var velocityY := VelocityY(isUpKeyPressed, isDownKeyPressed);
      if velocityY > 0 {
        paddle.MoveDown(dt, b);
      } else if velocityY < 0 {
        paddle.MoveUp(dt, b);
      }
    }
  }

  // ----- CpuPaddleController -----

  const PredictionDistanceMax: real := 400.0
  const PredictionDistanceMin: real := 20.0
  const ErrorMarginMax: real := 0.5
  /** The second draw moves the paddle the wrong way when it is below this. */
  const WrongWayChance: real := 0.2

  /** `_getBallDistance`: horizontal distance between paddle and ball. */
  function BallDistance(paddleX: real, ballX: real): real
  {
    Abs(paddleX - ballX)
  }

  /** `_getBallPredictionChance` for a ball `distance` away moving at `normalizedSpeed`;
      it is not clamped to [0, 1]. */
  function PredictChance(distance: real, normalizedSpeed: real): real
  {
    1.0 - (distance - PredictionDistanceMin) / PredictionDistanceMax - ErrorMarginMax * normalizedSpeed
  }

  /** At the minimum prediction distance and the minimum speed the chance is exactly 1. */
  lemma PredictChanceAtClosestSlowest()
    ensures PredictChance(PredictionDistanceMin, Normalized(MinSpeed)) == 1.0
  {
  }

  /** A closer or slower ball is never harder to track. */
  lemma PredictChanceMonotone(d1: real, n1: real, d2: real, n2: real)
    requires d1 <= d2 && n1 <= n2
    ensures PredictChance(d2, n2) <= PredictChance(d1, n1)
  {
  }

  /** `ballDeltaY`: the sign of the paddle centre's height below the ball. */
  function BallDeltaY(paddleY: real, height: real, ballY: real): int
  {
    Sign(paddleY - ballY + height / 2.0)
  }

  /** The move that brings the paddle's centre towards the ball. */
  function Toward(deltaY: int): PaddleMove
  {
    if deltaY > 0 then Up else Down
  }

  /** The deliberate mistake: the move away from the ball. */
  function Away(deltaY: int): PaddleMove
  {
    if deltaY > 0 then Down else Up
  }

  /** The paddle moves up exactly when its centre is below the ball (y grows
      downwards), and the two moves the policy can choose are always opposite. */
  lemma TowardFollowsBall(paddleY: real, height: real, ballY: real)
    ensures Toward(BallDeltaY(paddleY, height, ballY)) == Up <==> paddleY + height / 2.0 > ballY
    ensures Away(BallDeltaY(paddleY, height, ballY)) != Toward(BallDeltaY(paddleY, height, ballY))
  {
  }

  /** The decision of `update` given its two draws: the first draw at most
      `chance` tracks the ball; otherwise a second draw below WrongWayChance moves
      the wrong way, and any other second draw leaves the paddle still. */
  function CpuMove(draw1: real, draw2: real, chance: real, deltaY: int): (m: PaddleMove)
    ensures draw1 <= chance ==> m == Toward(deltaY)
    ensures draw1 > chance && draw2 < WrongWayChance ==> m == Away(deltaY)
    ensures draw1 > chance && draw2 >= WrongWayChance ==> m == Still
  {
    if draw1 <= chance then Toward(deltaY)
    else if draw2 < WrongWayChance then Away(deltaY)
    else Still
  }

  /** A chance of 1 or more tracks the ball for every first draw in [0, 1). */
  lemma CertainTracking(draw1: real, draw2: real, chance: real, deltaY: int)
    requires 0.0 <= draw1 < 1.0 && chance >= 1.0
    ensures CpuMove(draw1, draw2, chance, deltaY) == Toward(deltaY)
  {
  }

  /** A negative chance never tracks the ball for a first draw in [0, 1). */
  lemma HopelessTracking(draw1: real, draw2: real, chance: real, deltaY: int)
    requires 0.0 <= draw1 < 1.0 && chance < 0.0
    ensures CpuMove(draw1, draw2, chance, deltaY) != Toward(deltaY)
  {
  }

  /** The closest, slowest ball is tracked whatever the draws. */
  lemma TracksClosestSlowestBall(draw1: real, draw2: real, paddleX: real, ballX: real, deltaY: int)
    requires 0.0 <= draw1 < 1.0
    requires BallDistance(paddleX, ballX) == PredictionDistanceMin
    ensures CpuMove(draw1, draw2, PredictChance(BallDistance(paddleX, ballX), Normalized(MinSpeed)), deltaY) == Toward(deltaY)
  {
  }

  class CpuPaddleController {
    const paddle: Paddle
    const ball: Ball

    constructor (paddle: Paddle, ball: Ball)
      ensures this.paddle == paddle && this.ball == ball
    {
      this.paddle := paddle;
      this.ball := ball;
    }

    function PredictionChance(): real
      reads paddle, ball
    {
      PredictChance(BallDistance(paddle.posX, ball.posX), ball.NormalizedSpeed())
    }

    /** `update`: `draw1` and `draw2` stand for the two `Math.random()` calls; the
        second is only looked at when the first does not track the ball. */
    method Update(dt: real, b: Bounds, draw1: real, draw2: real)
      modifies paddle`posY
      ensures paddle.posY ==
                MovedBy(CpuMove(draw1, draw2, old(PredictionChance()), BallDeltaY(old(paddle.posY), paddle.height, ball.posY)),
                        old(paddle.posY), paddle.height, dt, b)
    {
      var rng := draw1;
      var predictChance := PredictionChance();
      var ballDeltaY := Sign(paddle.posY - ball.posY + paddle.height / 2.0);

      if rng <= predictChance {
        if ballDeltaY > 0 {
          paddle.MoveUp(dt, b);
        } else {
          paddle.MoveDown(dt, b);
        }
      } else {
        rng := draw2;
        if rng < WrongWayChance {
          if ballDeltaY > 0 {
            paddle.MoveDown(dt, b);
          } else {
            paddle.MoveUp(dt, b);
          }
        }
      }
    }
  }
}
