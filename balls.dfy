/** The ball: a position, a direction sign per axis and a scalar speed that is
    clamped into [MinSpeed, MaxSpeed] on every assignment. */
module Balls {
  import opened JsMath
  import opened Settings
  import opened Geometry

  const MinSpeed: real := 100.0
  const MaxSpeed: real := 300.0
  /** Speed gained per second of play, in pixels per second squared. */
  const Acceleration: real := 2.0

  /** What the `speed` setter stores for an assigned value `v`. */
  function ClampSpeed(v: real): (r: real)
    ensures MinSpeed <= r <= MaxSpeed
    ensures MinSpeed <= v <= MaxSpeed ==> r == v
  {
    if v < MinSpeed then MinSpeed else if v > MaxSpeed then MaxSpeed else v
  }

  /** The setter picks the allowed speed nearest to the assigned value. */
  lemma ClampSpeedIsNearest(v: real, w: real)
    requires MinSpeed <= w <= MaxSpeed
    ensures Abs(ClampSpeed(v) - v) <= Abs(w - v)
  {
  }

  /** Assigning a larger value never stores a smaller speed. */
  lemma ClampSpeedMonotone(v: real, w: real)
    requires v <= w
    ensures ClampSpeed(v) <= ClampSpeed(w)
  {
  }

  /** `normalizedSpeed`: the speed's position in [MinSpeed, MaxSpeed], scaled to [0, 1]. */
  function Normalized(speed: real): (r: real)
    ensures MinSpeed <= speed <= MaxSpeed ==> 0.0 <= r <= 1.0
    ensures r == 0.0 <==> speed == MinSpeed
    ensures r == 1.0 <==> speed == MaxSpeed
  {
    (speed - MinSpeed) / (MaxSpeed - MinSpeed)
  }

  /** A direction component as the game keeps it: -1, 0 (before the first spawn) or +1. */
  predicate IsDirection(v: int) { -1 <= v <= 1 }

  /** A direction component once the ball has been spawned. */
  predicate IsUnit(v: int) { v == -1 || v == 1 }

  /** Everything `Ball.update` reads and writes, as one value. */
  datatype BallState = BallState(posX: real, posY: real, vx: int, vy: int, speed: real)

  /** `collisionBox`: the square around the ball. */
  function BallBox(posX: real, posY: real, radius: real): Rectangle
  {
    Rectangle(posX - radius, posY - radius, radius * 2.0, radius * 2.0)
  }

  /** `Math.sign(v) * speed * dt`: the distance covered along one axis. */
  function Displacement(v: int, speed: real, dt: real): real
  {
    Sign(v as real) as real * speed * dt
  }

  /** `Ball.update`, first step: the vertical move. */
  function MoveVertically(s: BallState, dt: real): BallState
  {
    s.(posY := s.posY + Displacement(s.vy, s.speed, dt))
  }

  /** `Ball.update`, wall reflection: a ball whose top is above the upper wall is put
      against it, else one whose bottom is below the lower wall is put against that;
      either way the vertical direction is reversed. */
  function ReflectOffWalls(s: BallState, radius: real, b: Bounds): (r: BallState)
    ensures s.posY - radius < b.upper ==> r == s.(posY := b.upper + radius, vy := -s.vy)
    ensures s.posY - radius >= b.upper && s.posY + radius > b.lower ==>
              r == s.(posY := b.lower - radius, vy := -s.vy)
    ensures b.upper <= s.posY - radius && s.posY + radius <= b.lower ==> r == s
  {
    if s.posY - radius < b.upper then s.(posY := b.upper + radius, vy := -s.vy)
    else if s.posY + radius > b.lower then s.(posY := b.lower - radius, vy := -s.vy)
    else s
  }

  /** `Ball.update`, left-paddle check: on overlap with the left paddle, reverse horizontally and
      put the ball just right of the paddle. */
  function BounceOffLeftPaddle(s: BallState, radius: real, paddle: Rectangle): BallState
  {
    if OverLaps(BallBox(s.posX, s.posY, radius), paddle)
    then s.(vx := -s.vx, posX := paddle.Right() + radius)
    else s
  }

  /** `Ball.update`, right-paddle check: the same against the right paddle, putting the ball just left of it. */
  function BounceOffRightPaddle(s: BallState, radius: real, paddle: Rectangle): BallState
  {
    if OverLaps(BallBox(s.posX, s.posY, radius), paddle)
    then s.(vx := -s.vx, posX := paddle.Left() - radius)
    else s
  }

  /** `Ball.update`, the horizontal move. */
  function MoveHorizontally(s: BallState, dt: real): BallState
  {
    s.(posX := s.posX + Displacement(s.vx, s.speed, dt))
  }

  /** `Ball.update` up to the edge tests, in the program's order: vertical move, wall
      reflection, left paddle, right paddle, horizontal move. */
  function Advance(s: BallState, dt: real, radius: real, b: Bounds,
                   leftPaddle: Rectangle, rightPaddle: Rectangle): (r: BallState)
    ensures r.speed == s.speed
  {
    var vertical := ReflectOffWalls(MoveVertically(s, dt), radius, b);
    var bounced := BounceOffRightPaddle(BounceOffLeftPaddle(vertical, radius, leftPaddle), radius, rightPaddle);
    MoveHorizontally(bounced, dt)
  }

  /** Which edge, if any, the ball has left the court by (the edge tests at the end of `Ball.update`). */
  datatype Exit = NoExit | LeftEdge | RightEdge

  function ExitSide(posX: real, b: Bounds): (e: Exit)
    ensures e == LeftEdge <==> posX < b.left
    ensures e == RightEdge <==> b.left <= posX && posX > b.right
  {
    if posX < b.left then LeftEdge else if posX > b.right then RightEdge else NoExit
  }

  /** `Ball.update`, last step: the speed grows by `Acceleration * dt` through the clamping setter. */
  function Accelerated(s: BallState, dt: real): (r: BallState)
    ensures MinSpeed <= r.speed <= MaxSpeed
    ensures r.(speed := s.speed) == s
  {
    s.(speed := ClampSpeed(s.speed + Acceleration * dt))
  }

  /** Within a round the speed never decreases. */
  lemma AcceleratedNotSlower(s: BallState, dt: real)
    requires dt >= 0.0 && MinSpeed <= s.speed <= MaxSpeed
    ensures s.speed <= Accelerated(s, dt).speed
  {
  }

  /** Reflection and bouncing only ever negate a direction, so a spawned ball keeps
      unit directions and an unspawned one keeps directions in {-1, 0, +1}. */
  lemma AdvanceKeepsDirections(s: BallState, dt: real, radius: real, b: Bounds,
                               leftPaddle: Rectangle, rightPaddle: Rectangle)
    ensures var r := Advance(s, dt, radius, b, leftPaddle, rightPaddle);
            (r.vx == s.vx || r.vx == -s.vx) && (r.vy == s.vy || r.vy == -s.vy)
    ensures var r := Advance(s, dt, radius, b, leftPaddle, rightPaddle);
            (IsUnit(s.vx) ==> IsUnit(r.vx)) && (IsUnit(s.vy) ==> IsUnit(r.vy)) &&
            (IsDirection(s.vx) ==> IsDirection(r.vx)) && (IsDirection(s.vy) ==> IsDirection(r.vy))
  {
  }

  /** When the court is at least as tall as the ball, the wall reflection always
      leaves the whole ball between the walls. */
  lemma ReflectKeepsBallInCourt(s: BallState, radius: real, b: Bounds)
    requires radius >= 0.0 && b.upper + 2.0 * radius <= b.lower
    ensures var r := ReflectOffWalls(s, radius, b);
            b.upper <= r.posY - radius && r.posY + radius <= b.lower
  {
  }

  /** Nothing after the wall reflection moves the ball vertically, so after a whole
      `update` step the ball is still between the walls. */
  lemma AdvanceKeepsBallInCourt(s: BallState, dt: real, radius: real, b: Bounds,
                                leftPaddle: Rectangle, rightPaddle: Rectangle)
    requires radius >= 0.0 && b.upper + 2.0 * radius <= b.lower
    ensures var r := Advance(s, dt, radius, b, leftPaddle, rightPaddle);
            b.upper <= r.posY - radius && r.posY + radius <= b.lower
  {
  }

  /** A ball that hit the left paddle is sent back and ends up touching it, no
      longer overlapping it. */
  lemma LeftBounceSeparates(s: BallState, radius: real, paddle: Rectangle)
    requires OverLaps(BallBox(s.posX, s.posY, radius), paddle)
    ensures var r := BounceOffLeftPaddle(s, radius, paddle);
            r.vx == -s.vx && r.posY == s.posY &&
            BallBox(r.posX, r.posY, radius).Left() == paddle.Right() &&
            !OverLaps(BallBox(r.posX, r.posY, radius), paddle)
  {
  }

  /** The mirror image of LeftBounceSeparates for the right paddle. */
  lemma RightBounceSeparates(s: BallState, radius: real, paddle: Rectangle)
    requires OverLaps(BallBox(s.posX, s.posY, radius), paddle)
    ensures var r := BounceOffRightPaddle(s, radius, paddle);
            r.vx == -s.vx && r.posY == s.posY &&
            BallBox(r.posX, r.posY, radius).Right() == paddle.Left() &&
            !OverLaps(BallBox(r.posX, r.posY, radius), paddle)
  {
  }

  class Ball {
    var posX: real
    var posY: real
    const radius: real
    /** `_velocity.x` and `_velocity.y`: direction signs only. */
    var vx: int
    var vy: int
    /** `_speed`, written only through SetSpeed after construction. */
    var speed: real

    ghost predicate Valid()
      reads this
    {
      MinSpeed <= speed <= MaxSpeed && IsDirection(vx) && IsDirection(vy)
    }

    function State(): BallState
      reads this
    {
      BallState(posX, posY, vx, vy, speed)
    }

    function NormalizedSpeed(): real
      reads this
    {
      Normalized(speed)
    }

    function CollisionBox(): Rectangle
      reads this
    {
      BallBox(posX, posY, radius)
    }

    constructor (radius: real, posX: real, posY: real)
      ensures Valid() && this.radius == radius
      ensures State() == BallState(posX, posY, 0, 0, MinSpeed)
    {
      this.posX := posX;
      this.posY := posY;
      this.radius := radius;
      vx, vy := 0, 0;
      speed := MinSpeed;
    }

    /** The `speed` setter. */
    method SetSpeed(v: real)
      modifies this`speed
      ensures speed == ClampSpeed(v)
    {
      var val := v;
      if val < MinSpeed {
        val := MinSpeed;
      } else if val > MaxSpeed {
        val := MaxSpeed;
      }
      speed := val;
    }

    /** `Ball.update` up to the edge tests: moves and collides the ball and reports which
        edge, if any, it has left by, for the table to score. */
    method MoveAndCollide(dt: real, b: Bounds, leftPaddle: Rectangle, rightPaddle: Rectangle)
      returns (exit: Exit)
      requires Valid()
      modifies this`posX, this`posY, this`vx, this`vy
      ensures Valid()
      ensures State() == Advance(old(State()), dt, radius, b, leftPaddle, rightPaddle)
      ensures exit == ExitSide(posX, b)
    {
      AdvanceKeepsDirections(State(), dt, radius, b, leftPaddle, rightPaddle);
      StepVertically(dt, b);
      CollideWithPaddles(leftPaddle, rightPaddle);
      exit := StepHorizontally(dt, b);
    }

    /** `Ball.update`, first two steps: the vertical move and the wall reflection. */
    method StepVertically(dt: real, b: Bounds)
      modifies this`posY, this`vy
      ensures State() == ReflectOffWalls(MoveVertically(old(State()), dt), radius, b)
    {
      posY := posY + Displacement(vy, speed, dt);

      if posY - radius < b.upper {
        posY := b.upper + radius;
        vy := -vy;
      } else if posY + radius > b.lower {
        posY := b.lower - radius;
        vy := -vy;
      }
    }

    /** `Ball.update`, paddle checks: the left paddle is checked first, then the right paddle
        against the box as the first check left it. */
    method CollideWithPaddles(leftPaddle: Rectangle, rightPaddle: Rectangle)
      modifies this`posX, this`vx
      ensures State() == BounceOffRightPaddle(BounceOffLeftPaddle(old(State()), radius, leftPaddle), radius, rightPaddle)
    {
      if OverLaps(CollisionBox(), leftPaddle) {
        vx := -vx;
        posX := leftPaddle.Right() + radius;
      }

      if OverLaps(CollisionBox(), rightPaddle) {
        vx := -vx;
        posX := rightPaddle.Left() - radius;
      }
    }

    /** `Ball.update`, last move: the horizontal move, then the test for leaving the court. */
    method StepHorizontally(dt: real, b: Bounds) returns (exit: Exit)
      modifies this`posX
      ensures State() == MoveHorizontally(old(State()), dt)
      ensures exit == ExitSide(posX, b)
    {
      posX := posX + Displacement(vx, speed, dt);

      if posX < b.left {
        exit := LeftEdge;
      } else if posX > b.right {
        exit := RightEdge;
      } else {
        exit := NoExit;
      }
    }

    /** `Ball.update`, last step: `speed += acceleration * dt`, through the setter. */
    method Accelerate(dt: real)
      modifies this`speed
      ensures speed == ClampSpeed(old(speed) + Acceleration * dt)
    {
      SetSpeed(speed + Acceleration * dt);
    }
  }
}
