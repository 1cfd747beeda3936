/** The table: it owns both paddles, the ball, both controllers and the
    scoreboard, and runs the scoring and round state machine. */
module Tables {
  import opened Settings
  import opened Geometry
  import opened Paddles
  import opened Balls
  import opened Controllers
  import opened Scoring

  /** `bounds`: the inner faces of the two walls, and the canvas's side edges. */
  function TableBounds(canvasWidth: real, canvasHeight: real): (b: Bounds)
    ensures b.upper == CourtMarginY + WallSize
    ensures b.upper + b.lower == canvasHeight
    ensures b.left == 0.0 && b.right == canvasWidth
  {
    Bounds(CourtMarginY + WallSize, canvasHeight - (CourtMarginY + WallSize), 0.0, canvasWidth)
  }

  /** On a canvas tall enough for the walls and one ball, a ball at the canvas
      centre lies wholly between the walls and inside the side edges. */
  lemma CentreIsInCourt(canvasWidth: real, canvasHeight: real, radius: real)
    requires 0.0 <= radius
    requires canvasHeight >= 2.0 * (CourtMarginY + WallSize + radius)
    requires canvasWidth >= 0.0
    ensures var b := TableBounds(canvasWidth, canvasHeight);
            b.upper <= canvasHeight / 2.0 - radius && canvasHeight / 2.0 + radius <= b.lower &&
            ExitSide(canvasWidth / 2.0, b) == NoExit
  {
  }

  datatype Score = Score(playerOne: nat, playerTwo: nat, round: nat)

  /** What the ball's update and the scoring rule read and write: the ball,
      the scoreboard and `isMatchRunning`. */
  datatype MatchState = MatchState(ball: BallState, score: Score, running: bool)

  function Winner(s: MatchState): int
  {
    WinnerOf(s.score.playerOne, s.score.playerTwo)
  }

  /** `_spawnBall`: a draw above 0.5 gives direction +1 on that axis, any other -1;
      the ball is put at the canvas centre and its speed set to MinSpeed. */
  function SpawnedBall(canvasWidth: real, canvasHeight: real, drawX: real, drawY: real): (r: BallState)
    ensures IsUnit(r.vx) && IsUnit(r.vy)
    ensures r.vx == 1 <==> drawX > 0.5
    ensures r.vy == 1 <==> drawY > 0.5
    ensures r.posX == canvasWidth / 2.0 && r.posY == canvasHeight / 2.0
    ensures r.speed == MinSpeed
  {
    BallState(canvasWidth / 2.0, canvasHeight / 2.0,
              if drawX > 0.5 then 1 else -1,
              if drawY > 0.5 then 1 else -1,
              ClampSpeed(MinSpeed))
  }

  /** `scorePoint(slot)` as the program runs it. In its player test the parameter, named
      `playerIndex`, hides the global object of that name, so `playerIndex.playerOne`
      reads a property of a number, which is undefined; neither 1 nor 2 equals
      undefined, so the else branch always runs and every point goes to player two,
      whichever side the ball left by. `slot` is therefore unused. */
  function ScoredPoint(s: MatchState, slot: int, canvasWidth: real, canvasHeight: real,
                       drawX: real, drawY: real): (r: MatchState)
    ensures r.score.playerTwo == s.score.playerTwo + 1
    ensures r.score.playerOne == s.score.playerOne
    ensures Winner(r) != 0 ==> !r.running && r.score.round == s.score.round && r.ball == s.ball
    ensures Winner(r) == 0 ==> r.running == s.running && r.score.round == s.score.round + 1 &&
                               r.ball == SpawnedBall(canvasWidth, canvasHeight, drawX, drawY)
  {
    var score := s.score.(playerTwo := s.score.playerTwo + 1);
    if WinnerOf(score.playerOne, score.playerTwo) != 0 then
      s.(score := score, running := false)
    else
      MatchState(SpawnedBall(canvasWidth, canvasHeight, drawX, drawY),
                 score.(round := score.round + 1), s.running)
  }

  /** The slot passed to `scorePoint` makes no difference. */
  lemma ScorePointIgnoresSlot(s: MatchState, slot1: int, slot2: int,
                              canvasWidth: real, canvasHeight: real, drawX: real, drawY: real)
    ensures ScoredPoint(s, slot1, canvasWidth, canvasHeight, drawX, drawY) ==
            ScoredPoint(s, slot2, canvasWidth, canvasHeight, drawX, drawY)
  {
  }

  /** The invariant the table keeps: the speed is in range, directions are signs,
      and while a match runs the ball has been spawned and nobody has won yet. */
  predicate MatchInvariant(s: MatchState)
  {
    MinSpeed <= s.ball.speed <= MaxSpeed &&
    IsDirection(s.ball.vx) && IsDirection(s.ball.vy) &&
    (s.running ==> IsUnit(s.ball.vx) && IsUnit(s.ball.vy) && Winner(s) == 0)
  }

  lemma ScoredPointPreservesInvariant(s: MatchState, slot: int, canvasWidth: real, canvasHeight: real,
                                      drawX: real, drawY: real)
    requires MatchInvariant(s)
    ensures MatchInvariant(ScoredPoint(s, slot, canvasWidth, canvasHeight, drawX, drawY))
  {
  }

  /** `Ball.update` together with the `scorePoint` it calls: move and
      collide, score if the ball left the court, and only then accelerate. */
  function BallFrame(s: MatchState, dt: real, radius: real, b: Bounds,
                     leftPaddle: Rectangle, rightPaddle: Rectangle,
                     canvasWidth: real, canvasHeight: real, drawX: real, drawY: real): (r: MatchState)
    ensures MinSpeed <= r.ball.speed <= MaxSpeed
  {
    var moved := s.(ball := Advance(s.ball, dt, radius, b, leftPaddle, rightPaddle));
    var scored := match ExitSide(moved.ball.posX, b)
      case LeftEdge => ScoredPoint(moved, PlayerTwo, canvasWidth, canvasHeight, drawX, drawY)
      case RightEdge => ScoredPoint(moved, PlayerOne, canvasWidth, canvasHeight, drawX, drawY)
      case NoExit => moved;
    scored.(ball := Accelerated(scored.ball, dt))
  }

  /** Every frame keeps the table's invariant; in particular the speed stays in
      [MinSpeed, MaxSpeed] across any sequence of frames. */
  lemma BallFramePreservesInvariant(s: MatchState, dt: real, radius: real, b: Bounds,
                                    leftPaddle: Rectangle, rightPaddle: Rectangle,
                                    canvasWidth: real, canvasHeight: real, drawX: real, drawY: real)
    requires MatchInvariant(s)
    ensures MatchInvariant(BallFrame(s, dt, radius, b, leftPaddle, rightPaddle, canvasWidth, canvasHeight, drawX, drawY))
  {
  }

  /** A frame in which nobody scores keeps the score and the running flag, and
      the ball does not slow down. */
  lemma SpeedNeverDecreasesWithinRound(s: MatchState, dt: real, radius: real, b: Bounds,
                                       leftPaddle: Rectangle, rightPaddle: Rectangle,
                                       canvasWidth: real, canvasHeight: real, drawX: real, drawY: real)
    requires dt >= 0.0 && MinSpeed <= s.ball.speed <= MaxSpeed
    requires ExitSide(Advance(s.ball, dt, radius, b, leftPaddle, rightPaddle).posX, b) == NoExit
    ensures var r := BallFrame(s, dt, radius, b, leftPaddle, rightPaddle, canvasWidth, canvasHeight, drawX, drawY);
            r.score == s.score && r.running == s.running && s.ball.speed <= r.ball.speed
  {
  }

  /** A frame in which the ball leaves the court but nobody has won yet: player
      two scores, the round advances, the ball is re-spawned at the centre, and
      because the acceleration comes after the re-spawn its speed is MinSpeed plus
      this frame's acceleration, not MinSpeed itself. */
  lemma ScoringFrameRespawns(s: MatchState, dt: real, radius: real, b: Bounds,
                             leftPaddle: Rectangle, rightPaddle: Rectangle,
                             canvasWidth: real, canvasHeight: real, drawX: real, drawY: real)
    requires ExitSide(Advance(s.ball, dt, radius, b, leftPaddle, rightPaddle).posX, b) != NoExit
    requires WinnerOf(s.score.playerOne, s.score.playerTwo + 1) == 0
    ensures var r := BallFrame(s, dt, radius, b, leftPaddle, rightPaddle, canvasWidth, canvasHeight, drawX, drawY);
            r.score == Score(s.score.playerOne, s.score.playerTwo + 1, s.score.round + 1) &&
            r.running == s.running &&
            r.ball.posX == canvasWidth / 2.0 && r.ball.posY == canvasHeight / 2.0 &&
            IsUnit(r.ball.vx) && IsUnit(r.ball.vy) &&
            r.ball.speed == ClampSpeed(MinSpeed + Acceleration * dt) &&
            (0.0 < dt ==> r.ball.speed > MinSpeed) &&
            (0.0 <= dt <= 100.0 ==> r.ball.speed == MinSpeed + Acceleration * dt)
  {
  }

  /** A frame in which the ball leaves the court and player two reaches WinScore:
      the match stops, the round is not advanced and the ball is not re-spawned. */
  lemma WinningFrameStopsMatch(s: MatchState, dt: real, radius: real, b: Bounds,
                               leftPaddle: Rectangle, rightPaddle: Rectangle,
                               canvasWidth: real, canvasHeight: real, drawX: real, drawY: real)
    requires ExitSide(Advance(s.ball, dt, radius, b, leftPaddle, rightPaddle).posX, b) != NoExit
    requires WinnerOf(s.score.playerOne, s.score.playerTwo + 1) != 0
    ensures var r := BallFrame(s, dt, radius, b, leftPaddle, rightPaddle, canvasWidth, canvasHeight, drawX, drawY);
            !r.running && Winner(r) != 0 &&
            r.score == Score(s.score.playerOne, s.score.playerTwo + 1, s.score.round) &&
            r.ball.posX == Advance(s.ball, dt, radius, b, leftPaddle, rightPaddle).posX
  {
  }

  /** What one frame of `Table.update` feeds the ball: the elapsed time, the
      paddles' boxes as the controllers left them, and the two spawn draws. */
  datatype FrameInput = FrameInput(dt: real, leftPaddle: Rectangle, rightPaddle: Rectangle,
                                   drawX: real, drawY: real)

  /** One frame of `Table.update` as far as the match is concerned:
      nothing when no match is running, else a ball frame. A frame never changes
      player one's score and never lowers player two's or the round, and it keeps
      the table's invariant. */
  function FrameStep(s: MatchState, radius: real, b: Bounds, canvasWidth: real, canvasHeight: real,
                     f: FrameInput): (r: MatchState)
    ensures !s.running ==> r == s
    ensures r.score.playerOne == s.score.playerOne
    ensures s.score.playerTwo <= r.score.playerTwo && s.score.round <= r.score.round
    ensures MatchInvariant(s) ==> MatchInvariant(r)
  {
    if !s.running then s
    else BallFrame(s, f.dt, radius, b, f.leftPaddle, f.rightPaddle, canvasWidth, canvasHeight, f.drawX, f.drawY)
  }

  /** The match after a sequence of frames, whatever the paddles do. */
  function Play(s: MatchState, radius: real, b: Bounds, canvasWidth: real, canvasHeight: real,
                frames: seq<FrameInput>): MatchState
    decreases |frames|
  {
    if frames == [] then s
    else Play(FrameStep(s, radius, b, canvasWidth, canvasHeight, frames[0]),
              radius, b, canvasWidth, canvasHeight, frames[1..])
  }

  /** The invariant holds after any sequence of frames; in particular the speed
      never leaves [MinSpeed, MaxSpeed]. */
  lemma {:induction false} PlayPreservesInvariant(s: MatchState, radius: real, b: Bounds,
                                                  canvasWidth: real, canvasHeight: real, frames: seq<FrameInput>)
    requires MatchInvariant(s)
    ensures MatchInvariant(Play(s, radius, b, canvasWidth, canvasHeight, frames))
    ensures MinSpeed <= Play(s, radius, b, canvasWidth, canvasHeight, frames).ball.speed <= MaxSpeed
    decreases |frames|
  {
    if frames != [] {
      PlayPreservesInvariant(FrameStep(s, radius, b, canvasWidth, canvasHeight, frames[0]),
                             radius, b, canvasWidth, canvasHeight, frames[1..]);
    }
  }

  /** Because `scorePoint`'s player test is always false, player one's score never changes,
      whatever the ball does; a match started from 0 to 0 can only be won by
      player two. */
  lemma {:induction false} PlayerOneNeverScores(s: MatchState, radius: real, b: Bounds,
                                                canvasWidth: real, canvasHeight: real, frames: seq<FrameInput>)
    ensures Play(s, radius, b, canvasWidth, canvasHeight, frames).score.playerOne == s.score.playerOne
    ensures s.score.playerOne < WinScore ==>
              Winner(Play(s, radius, b, canvasWidth, canvasHeight, frames)) != PlayerOne
    decreases |frames|
  {
    if frames != [] {
      PlayerOneNeverScores(FrameStep(s, radius, b, canvasWidth, canvasHeight, frames[0]),
                           radius, b, canvasWidth, canvasHeight, frames[1..]);
    }
  }

  /** Points are only scored while a match runs, and a running match has no winner,
      so player two's score never passes WinScore and neither score ever drops. */
  lemma {:induction false} ScoreNeverPassesWinScore(s: MatchState, radius: real, b: Bounds,
                                                    canvasWidth: real, canvasHeight: real, frames: seq<FrameInput>)
    requires MatchInvariant(s) && s.score.playerTwo <= WinScore
    ensures var r := Play(s, radius, b, canvasWidth, canvasHeight, frames);
            s.score.playerTwo <= r.score.playerTwo <= WinScore && s.score.round <= r.score.round
    decreases |frames|
  {
    if frames != [] {
      ScoreNeverPassesWinScore(FrameStep(s, radius, b, canvasWidth, canvasHeight, frames[0]),
                               radius, b, canvasWidth, canvasHeight, frames[1..]);
    }
  }

  class Table {
    const canvasWidth: real
    const canvasHeight: real
    const leftPaddle: Paddle
    const rightPaddle: Paddle
    const ball: Ball
    const playerController: PlayerPaddleController
    const cpuController: CpuPaddleController
    const scoreBoard: ScoreBoard
    var isMatchRunning: bool

    /** The wiring the constructor sets up, and the invariant every method keeps. */
    ghost predicate Valid()
      reads this, ball, scoreBoard
    {
      leftPaddle != rightPaddle &&
      playerController.paddle == leftPaddle &&
      cpuController.paddle == rightPaddle && cpuController.ball == ball &&
      ball.Valid() && MatchInvariant(Match())
    }

    function Match(): MatchState
      reads this, ball, scoreBoard
    {
      MatchState(ball.State(),
                 Score(scoreBoard.playerOneScore, scoreBoard.playerTwoScore, scoreBoard.round),
                 isMatchRunning)
    }

    function CourtBounds(): Bounds
    {
      TableBounds(canvasWidth, canvasHeight)
    }

    /** The state `startMatch` leaves behind. */
    ghost predicate JustStarted(drawX: real, drawY: real)
      reads this, ball, scoreBoard, leftPaddle, rightPaddle
    {
      isMatchRunning &&
      Match().score == Score(0, 0, 1) &&
      ball.State() == SpawnedBall(canvasWidth, canvasHeight, drawX, drawY) &&
      leftPaddle.posX == leftPaddle.startPosX && leftPaddle.posY == leftPaddle.startPosY &&
      rightPaddle.posX == rightPaddle.startPosX && rightPaddle.posY == rightPaddle.startPosY
    }

    constructor (canvasWidth: real, canvasHeight: real)
      ensures Valid() && !isMatchRunning
      ensures this.canvasWidth == canvasWidth && this.canvasHeight == canvasHeight
      ensures fresh(leftPaddle) && fresh(rightPaddle) && fresh(ball) && fresh(scoreBoard)
      ensures fresh(playerController) && fresh(cpuController)
      ensures leftPaddle.posX == PaddleWidth && leftPaddle.slot == PlayerOne
      ensures rightPaddle.posX == canvasWidth - PaddleWidth - 12.0 && rightPaddle.slot == PlayerTwo
      ensures leftPaddle.posY == canvasHeight / 2.0 - PaddleHeight / 2.0 == rightPaddle.posY
      ensures leftPaddle.startPosX == leftPaddle.posX && leftPaddle.startPosY == leftPaddle.posY
      ensures rightPaddle.startPosX == rightPaddle.posX && rightPaddle.startPosY == rightPaddle.posY
      ensures leftPaddle.width == rightPaddle.width == PaddleWidth
      ensures leftPaddle.height == rightPaddle.height == PaddleHeight
      ensures ball.radius == BallRadius
      ensures ball.State() == BallState(canvasWidth / 2.0, canvasHeight / 2.0, 0, 0, MinSpeed)
      ensures Match().score == Score(0, 0, 0)
      ensures !playerController.isUpKeyPressed && !playerController.isDownKeyPressed
    {
      this.canvasWidth := canvasWidth;
      this.canvasHeight := canvasHeight;
      var left := new Paddle(PaddleWidth, canvasHeight / 2.0 - PaddleHeight / 2.0,
                             PaddleWidth, PaddleHeight, PlayerOne);
      // the right paddle keeps a fixed 12-pixel gap from the canvas's right edge
      var right := new Paddle(canvasWidth - PaddleWidth - 12.0, canvasHeight / 2.0 - PaddleHeight / 2.0,
                              PaddleWidth, PaddleHeight, PlayerTwo);
      var player := new PlayerPaddleController(left);
      var theBall := new Ball(BallRadius, canvasWidth / 2.0, canvasHeight / 2.0);
      var cpu := new CpuPaddleController(right, theBall);
      var board := new ScoreBoard();
      leftPaddle := left;
      rightPaddle := right;
      playerController := player;
      ball := theBall;
      cpuController := cpu;
      isMatchRunning := false;
      scoreBoard := board;
    }

    /** `_spawnBall`, with the two `Math.random()` draws as parameters. */
    method SpawnBall(drawX: real, drawY: real)
      modifies ball
      ensures ball.State() == SpawnedBall(canvasWidth, canvasHeight, drawX, drawY)
    {
      ball.vx := if drawX > 0.5 then 1 else -1;
      ball.vy := if drawY > 0.5 then 1 else -1;
      ball.posX := canvasWidth / 2.0;
      ball.posY := canvasHeight / 2.0;
      ball.SetSpeed(MinSpeed);
    }

    /** `scorePoint(slot)`; see ScoredPoint for why the slot is ignored. */
    method ScorePoint(slot: int, drawX: real, drawY: real)
      requires Valid()
      modifies this`isMatchRunning, scoreBoard, ball
      ensures Valid()
      ensures Match() == ScoredPoint(old(Match()), slot, canvasWidth, canvasHeight, drawX, drawY)
    {
      ScoredPointPreservesInvariant(Match(), slot, canvasWidth, canvasHeight, drawX, drawY);
      // the player test compares the slot with undefined: always false, so player two scores
      scoreBoard.playerTwoScore := scoreBoard.playerTwoScore + 1;

      if scoreBoard.Winner() != 0 {
        isMatchRunning := false;
      } else {
        scoreBoard.round := scoreBoard.round + 1;
        SpawnBall(drawX, drawY);
      }
    }

    /** `startMatch`, with the two spawn draws as parameters. */
    method StartMatch(drawX: real, drawY: real)
      requires Valid()
      modifies this`isMatchRunning, ball, scoreBoard, leftPaddle, rightPaddle
      ensures Valid() && JustStarted(drawX, drawY)
    {
      isMatchRunning := true;
      SpawnBall(drawX, drawY);
      scoreBoard.Reset();
      scoreBoard.round := 1;
      leftPaddle.Reset();
      rightPaddle.Reset();
    }

    /** `Ball.update`: the ball's move and collisions, the
        `scorePoint` call on leaving the court, then the acceleration. */
    method UpdateBall(dt: real, drawX: real, drawY: real)
      requires Valid()
      modifies this`isMatchRunning, scoreBoard, ball
      ensures Valid()
      ensures Match() == BallFrame(old(Match()), dt, ball.radius, CourtBounds(),
                                   leftPaddle.CollisionBox(), rightPaddle.CollisionBox(),
                                   canvasWidth, canvasHeight, drawX, drawY)
    {
      ghost var s := Match();
      var b, leftBox, rightBox := CourtBounds(), leftPaddle.CollisionBox(), rightPaddle.CollisionBox();
      ghost var moved := s.(ball := Advance(s.ball, dt, ball.radius, b, leftBox, rightBox));
      AdvanceKeepsDirections(s.ball, dt, ball.radius, b, leftBox, rightBox);
      BallFramePreservesInvariant(s, dt, ball.radius, b, leftBox, rightBox, canvasWidth, canvasHeight, drawX, drawY);

      var exit := ball.MoveAndCollide(dt, b, leftBox, rightBox);
      assert Match() == moved;
      if exit == LeftEdge {
        ScorePoint(PlayerTwo, drawX, drawY);
      } else if exit == RightEdge {
        ScorePoint(PlayerOne, drawX, drawY);
      }
      ghost var scored := Match();
      assert scored == match ExitSide(moved.ball.posX, b)
        case LeftEdge => ScoredPoint(moved, PlayerTwo, canvasWidth, canvasHeight, drawX, drawY)
        case RightEdge => ScoredPoint(moved, PlayerOne, canvasWidth, canvasHeight, drawX, drawY)
        case NoExit => moved;
      ball.Accelerate(dt);
      assert Match() == scored.(ball := Accelerated(scored.ball, dt));
    }

    /** `update(dt)`: nothing unless a match is running; otherwise the player's
        controller, the computer's controller and the ball, in that order. */
    method Update(dt: real, cpuDraw1: real, cpuDraw2: real, spawnDrawX: real, spawnDrawY: real)
      requires Valid()
      modifies this`isMatchRunning, scoreBoard, ball, leftPaddle`posY, rightPaddle`posY
      ensures Valid()
      ensures !old(isMatchRunning) ==> unchanged(this, ball, scoreBoard, leftPaddle, rightPaddle)
      ensures old(isMatchRunning) ==>
                leftPaddle.posY ==
                  MovedBy(PlayerMove(playerController.isUpKeyPressed, playerController.isDownKeyPressed),
                          old(leftPaddle.posY), leftPaddle.height, dt, CourtBounds())
      ensures old(isMatchRunning) ==>
                rightPaddle.posY ==
                  MovedBy(CpuMove(cpuDraw1, cpuDraw2,
                                  PredictChance(BallDistance(rightPaddle.posX, old(ball.posX)), Normalized(old(ball.speed))),
                                  BallDeltaY(old(rightPaddle.posY), rightPaddle.height, old(ball.posY))),
                          old(rightPaddle.posY), rightPaddle.height, dt, CourtBounds())
      ensures old(isMatchRunning) ==>
                Match() == BallFrame(old(Match()), dt, ball.radius, CourtBounds(),
                                     leftPaddle.CollisionBox(), rightPaddle.CollisionBox(),
                                     canvasWidth, canvasHeight, spawnDrawX, spawnDrawY)
    {
      if !isMatchRunning {
        return;
      }

      playerController.Update(dt, CourtBounds());
      cpuController.Update(dt, CourtBounds(), cpuDraw1, cpuDraw2);
      UpdateBall(dt, spawnDrawX, spawnDrawY);
    }
  }
}
