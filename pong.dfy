/** The game objects of Circular Pong as they change in place each frame:
    the Ball (position, velocity, speed), the Paddle (angle, width), the
    score and high score that main owns and Ball::Update changes through
    references, and the main loop's start flag. Every method is proved
    against the frame rules of module Rules.

    The values the C math library computes are passed in: `distance` and
    `length`, the square roots Ball::Update takes (each constrained by
    IsRoot), and `theta`, the atan2 angle in degrees (constrained only to
    atan2's range). Every random angle drawn by GetRandomValue is passed in
    as a Turn carrying the drawn degrees and their cosine and sine. */
module CircularPong {
  import opened Geometry
  import opened Rules

  class Ball {
    var x: real
    var y: real
    var speedX: real
    var speedY: real
    var radius: int
    var speed: real

    function Pos(): Vec reads this { Vec(x, y) }

    function Vel(): Vec reads this { Vec(speedX, speedY) }

    /** Radius 10, speed at least 5, and a velocity whose length is at
        least 5 and at most the speed: the ball never stops and never moves
        faster than its speed. */
    ghost predicate Valid()
      reads this
    {
      radius == BallRadius && speed >= InitialSpeed
      && InitialSpeed * InitialSpeed <= NormSq(Vel()) <= speed * speed
    }

    /** A new ball: radius 10, speed 5, launched from the centre. */
    constructor (launch: Turn)
      requires launch.Within(0, 359)
      ensures Valid()
      ensures speed == InitialSpeed && Pos() == Center && Vel() == Launch(launch, InitialSpeed)
    {
      radius := BallRadius;
      speed := InitialSpeed;
      new;
      Reset(launch);
    }

    /** Back to the centre with velocity `speed` along the drawn direction;
        the speed itself is kept. */
    method Reset(launch: Turn)
      requires radius == BallRadius && speed >= InitialSpeed
      requires launch.Within(0, 359)
      modifies this`x, this`y, this`speedX, this`speedY
      ensures Valid()
      ensures Pos() == Center && Vel() == Launch(launch, speed)
    {
      x := (ScreenWidth / 2) as real;
      y := (ScreenHeight / 2) as real;
      speedX := launch.cos * speed;
      speedY := launch.sin * speed;
    }

    /** The velocity response to a hit: mirror the velocity across the
        wall normal at `offset` (the ball's offset from the centre, of
        length `distance`), turn it by the drawn angle, scale it back to the
        current speed, then raise the speed by 0.2. `length` is the length
        of the velocity. */
    method Rebound(offset: Vec, distance: real, length: real, deflect: Turn)
      requires Valid() && deflect.Within(-10, 10)
      requires Crossing(distance) && IsRoot(distance, NormSq(offset))
      requires IsRoot(length, NormSq(Vel()))
      modifies this`speedX, this`speedY, this`speed
      ensures Valid()
      ensures length > 0.0
      ensures Vel() == Deflect(old(Vel()), offset, distance, deflect, length, old(speed))
      ensures NormSq(Vel()) == old(speed) * old(speed)
      ensures speed == old(speed) + SpeedStep
    {
      RootPositive(length, NormSq(Vel()));
      // the normal's length is the square root of the same sum as the distance
      var normalLength := distance;
      var normal := UnitNormal(offset, normalLength);
      var reflected := Reflect(Vel(), normal);
      var turned := Rotate(reflected, deflect.cos, deflect.sin);
      // reflection and rotation keep the length, so its square root is `length`
      var currentSpeed := length;
      var renormalised := Rescale(turned, currentSpeed, speed);
      speedX, speedY := renormalised.x, renormalised.y;
      speed := speed + SpeedStep;
    }

    /** The wall test of Ball::Update, once the ball has moved: if the ball
        reaches the wall it bounces off the paddle (hit) or goes back to the
        centre (miss), and the scoreboard is updated. `distance` is the
        ball's distance from the centre, `theta` its direction as atan2
        gives it in degrees, and `length` the length of the velocity.
        Returns the contact made. */
    method Collide(paddleAngle: int, paddleSize: int, board: Scoreboard,
                   distance: real, theta: real, length: real,
                   deflect: Turn, relaunch: Turn)
      returns (contact: Contact)
      requires Valid() && board.Valid()
      requires IsRoot(distance, NormSq(Sub(Pos(), Center)))
      requires -180.0 <= theta <= 180.0
      requires IsRoot(length, NormSq(Vel()))
      requires deflect.Within(-10, 10) && relaunch.Within(0, 359)
      modifies this, board
      ensures Valid() && board.Valid()
      ensures contact == Classify(distance, theta, paddleAngle, paddleSize)
      ensures speed == Accelerated(old(speed), contact)
      ensures board.Value() == Scored(old(board.Value()), contact)
      ensures board.saved == old(board.saved)
                             + if NewRecord(old(board.Value()), contact) then [board.highScore] else []
      ensures contact == Inside ==> Pos() == old(Pos()) && Vel() == old(Vel())
      ensures contact == Hit ==>
                Pos() == old(Pos())
                && Vel() == Deflect(old(Vel()), Sub(old(Pos()), Center), distance, deflect, length, old(speed))
      ensures contact == Miss ==> Pos() == Center && Vel() == Launch(relaunch, speed)
    {
      var offset := Sub(Pos(), Center);
      var distanceToCenter := distance;
      if distanceToCenter + radius as real > ArenaRadius {
        var ballAngle := theta;
        if ballAngle < 0.0 {
          ballAngle := ballAngle + 360.0;
        }
        var hitPaddle := paddleAngle as real - paddleSize as real / 2.0 <= ballAngle
                         && ballAngle <= paddleAngle as real + paddleSize as real / 2.0;
        if hitPaddle {
          Rebound(offset, distance, length, deflect);
          board.RecordHit();
          contact := Hit;
        } else {
          board.ClearScore();
          Reset(relaunch);
          contact := Miss;
        }
      } else {
        contact := Inside;
      }
    }

    /** One frame of the ball: move by the velocity, then the wall test.
        `distance`, `theta` and `length` are as in Collide, taken of the
        moved ball. */
    method Update(paddleAngle: int, paddleSize: int, board: Scoreboard,
                  distance: real, theta: real, length: real,
                  deflect: Turn, relaunch: Turn)
      returns (contact: Contact)
      requires Valid() && board.Valid()
      requires IsRoot(distance, NormSq(Sub(Add(Pos(), Vel()), Center)))
      requires -180.0 <= theta <= 180.0
      requires IsRoot(length, NormSq(Vel()))
      requires deflect.Within(-10, 10) && relaunch.Within(0, 359)
      modifies this, board
      ensures Valid() && board.Valid()
      ensures contact == Classify(distance, theta, paddleAngle, paddleSize)
      ensures speed == Accelerated(old(speed), contact)
      ensures board.Value() == Scored(old(board.Value()), contact)
      ensures board.saved == old(board.saved)
                             + if NewRecord(old(board.Value()), contact) then [board.highScore] else []
      ensures contact == Inside ==> Pos() == Add(old(Pos()), old(Vel())) && Vel() == old(Vel())
      ensures contact == Hit ==>
                Pos() == Add(old(Pos()), old(Vel()))
                && Vel() == Deflect(old(Vel()), Sub(Pos(), Center), distance, deflect, length, old(speed))
      ensures contact == Miss ==> Pos() == Center && Vel() == Launch(relaunch, speed)
    {
      x := x + speedX;
      y := y + speedY;
      contact := Collide(paddleAngle, paddleSize, board, distance, theta, length, deflect, relaunch);
    }
  }

  class Paddle {
    var angle: int
    var size: int

    constructor (startAngle: int)
      ensures angle == startAngle && size == PaddleSize
    {
      angle := startAngle;
      size := PaddleSize;
    }

    /** Turn by 6 degrees per held arrow key, then wrap into [0, 360].
        Only the angle changes. */
    method Update(keys: Keys)
      modifies this`angle
      ensures angle == PaddleStep(old(angle), keys)
    {
      if keys.left {
        angle := angle - PaddleTurn;
      }
      if keys.right {
        angle := angle + PaddleTurn;
      }
      if angle < 0 {
        angle := angle + FullTurn;
      }
      if angle > FullTurn {
        angle := angle - FullTurn;
      }
    }
  }

  /** The score and high score main keeps, and what it wrote to the
      high-score file during this session. */
  class Scoreboard {
    var score: int
    var highScore: int
    ghost var saved: seq<int>

    function Value(): Scores reads this { Scores(score, highScore) }

    /** The score is sane, and the file holds the current high score once
        anything has been written to it; what was written only grew. */
    ghost predicate Valid()
      reads this
    {
      Sane(Value()) && Ascending(saved)
      && (saved != [] ==> saved[|saved| - 1] == highScore)
    }

    /** Score 0 and the high score read at start-up. */
    constructor (loaded: int)
      ensures Valid() && Value() == Scores(0, loaded) && saved == []
    {
      score := 0;
      highScore := loaded;
      saved := [];
    }

    /** A paddle hit: one more point, and a new high score is taken and
        written to the file when the score passes it. */
    method RecordHit()
      requires Valid()
      modifies this
      ensures Valid()
      ensures Value() == Scored(old(Value()), Hit)
      ensures saved == old(saved) + if NewRecord(old(Value()), Hit) then [highScore] else []
    {
      score := score + 1;
      if score > highScore {
        highScore := score;
        saved := saved + [highScore];
      }
    }

    /** Score back to 0 (a miss, or the start of the game); the high score
        and the file are untouched. */
    method ClearScore()
      requires Valid()
      modifies this`score
      ensures Valid()
      ensures Value() == Scores(0, old(highScore))
    {
      score := 0;
    }
  }

  /** main's state across loop iterations. */
  class Game {
    const ball: Ball
    const paddle: Paddle
    const board: Scoreboard
    var started: bool

    ghost predicate Valid()
      reads this, ball, paddle, board
    {
      ball.Valid() && board.Valid() && paddle.size == PaddleSize && OnGrid(paddle.angle)
    }

    /** The state before the first frame: a fresh ball, the paddle at 270
        degrees, score 0 and the loaded high score, not started. */
    constructor (loadedHighScore: int, launch: Turn)
      requires launch.Within(0, 359)
      ensures Valid() && !started
      ensures fresh(ball) && fresh(paddle) && fresh(board)
      ensures paddle.angle == PaddleStart
      ensures board.Value() == Scores(0, loadedHighScore) && board.saved == []
      ensures ball.speed == InitialSpeed && ball.Pos() == Center
    {
      ball := new Ball(launch);
      paddle := new Paddle(PaddleStart);
      board := new Scoreboard(loadedHighScore);
      started := false;
    }

    /** The update part of one loop iteration. Before the start key nothing
        moves; the start key starts the game for good, zeroes the score and
        resets the ball; while playing the paddle turns and then the ball
        moves against the new paddle angle. `distance`, `theta` and `length`
        are the square roots and the atan2 angle Ball::Update takes of the
        moved ball, as in Ball.Update. */
    method Frame(space: bool, keys: Keys,
                 distance: real, theta: real, length: real,
                 deflect: Turn, launch: Turn)
      requires Valid()
      requires IsRoot(distance, NormSq(Sub(Add(ball.Pos(), ball.Vel()), Center)))
      requires -180.0 <= theta <= 180.0
      requires IsRoot(length, NormSq(ball.Vel()))
      requires deflect.Within(-10, 10) && launch.Within(0, 359)
      modifies this, ball, paddle, board
      ensures Valid()
      ensures started == (old(started) || space)
      ensures ball.speed >= old(ball.speed)
      ensures board.highScore >= old(board.highScore)
      ensures !old(started) && !space ==> unchanged(ball, paddle, board)
      ensures !old(started) && space ==>
                unchanged(paddle) && board.saved == old(board.saved)
                && board.Value() == Scores(0, old(board.highScore))
                && ball.speed == old(ball.speed)
                && ball.Pos() == Center && ball.Vel() == Launch(launch, ball.speed)
      ensures old(started) ==>
                paddle.angle == PaddleStep(old(paddle.angle), keys)
                && var c := Classify(distance, theta, paddle.angle, paddle.size);
                   board.Value() == Scored(old(board.Value()), c)
                   && ball.speed == Accelerated(old(ball.speed), c)
                   && board.saved == old(board.saved)
                      + if NewRecord(old(board.Value()), c) then [board.highScore] else []
    {
      if !started {
        if space {
          started := true;
          board.ClearScore();
          ball.Reset(launch);
        }
      } else {
        paddle.Update(keys);
        var _ := ball.Update(paddle.angle, paddle.size, board, distance, theta, length, deflect, launch);
      }
    }
  }
}
