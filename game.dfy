/**
  The game object: the paddles, the ball and the scores as mutable fields,
  updated in place by the frame step, the key handlers and the reset timer.
  Each method does what the corresponding code does, statement by
  statement, and is specified by the pure functions of Physics, Input and
  Runs.
 */
module PongGame {
  import opened Geometry
  import opened PongState
  import Physics
  import Input
  import Runs

  class Game {
    const field: Field
    var leftPaddle: Paddle
    var rightPaddle: Paddle
    var ball: Ball
    var leftScore: nat
    var rightScore: nat

    function State(): GameState
      reads this
    {
      GameState(leftPaddle, rightPaddle, ball, leftScore, rightScore)
    }

    /** The sizes and the paddles' columns are those the game was built with. */
    ghost predicate Valid()
      reads this
    {
      WellFormed(field, State())
    }

    /** Builds the state the script creates at load time for a canvas of the given size. */
    constructor (canvasWidth: nat, canvasHeight: nat)
      ensures field == Field(canvasWidth as real, canvasHeight as real)
      ensures State() == Initial(field)
      ensures Valid()
    {
      field := Field(canvasWidth as real, canvasHeight as real);
      var h := canvasHeight as real;
      leftPaddle := Paddle(GRID, h / 2.0 - PADDLE_HEIGHT / 2.0, GRID, PADDLE_HEIGHT, 0.0);
      rightPaddle := Paddle(canvasWidth as real - GRID * 2.0, h / 2.0 - PADDLE_HEIGHT / 2.0,
                            GRID, PADDLE_HEIGHT, 0.0);
      ball := Ball(canvasWidth as real / 2.0, h / 2.0, GRID, GRID, BALL_SPEED, -BALL_SPEED, false);
      leftScore, rightScore := 0, 0;
    }

    /** resetBall: recentre the ball, raise `resetting`, and serve in the given directions. */
    method ResetBall(scorer: Sign, r1: Sign, r2: Sign)
      modifies this
      ensures ball == Physics.Serve(field, old(ball), scorer, r1, r2)
      ensures leftPaddle == old(leftPaddle) && rightPaddle == old(rightPaddle)
      ensures leftScore == old(leftScore) && rightScore == old(rightScore)
    {
      ball := ball.(resetting := true);
      ball := ball.(x := field.width / 2.0);
      ball := ball.(y := field.height / 2.0);
      ball := ball.(dx := (scorer as real) * BALL_SPEED * (r1 as real));
      ball := ball.(dy := BALL_SPEED * (r2 as real));
    }

    /** The timer callback that resetBall schedules. */
    method EndReset()
      modifies this
      ensures State() == Runs.EndReset(old(State()))
    {
      ball := ball.(resetting := false);
    }

    /** Section 2 of the loop: each paddle moves by its velocity and is clamped between the walls. */
    method MovePaddles()
      modifies this
      ensures leftPaddle == Physics.MovePaddle(field, old(leftPaddle))
      ensures rightPaddle == Physics.MovePaddle(field, old(rightPaddle))
      ensures ball == old(ball) && leftScore == old(leftScore) && rightScore == old(rightScore)
    {
      leftPaddle := leftPaddle.(y := leftPaddle.y + leftPaddle.dy);
      rightPaddle := rightPaddle.(y := rightPaddle.y + rightPaddle.dy);
      leftPaddle := leftPaddle.(y := Max(GRID, Min(field.MaxPaddleY(), leftPaddle.y)));
      rightPaddle := rightPaddle.(y := Max(GRID, Min(field.MaxPaddleY(), rightPaddle.y)));
    }

    /** Sections 3 to 5 of the loop: the ball moves, then bounces off a wall and a paddle. */
    method MoveBall()
      modifies this
      ensures ball == Physics.BouncePaddles(Physics.BounceWalls(field, Physics.MoveBall(old(ball))),
                                            leftPaddle, rightPaddle)
      ensures leftPaddle == old(leftPaddle) && rightPaddle == old(rightPaddle)
      ensures leftScore == old(leftScore) && rightScore == old(rightScore)
    {
      ball := ball.(x := ball.x + ball.dx);
      ball := ball.(y := ball.y + ball.dy);

      if ball.y < GRID || ball.y + ball.height > field.height - GRID {
        ball := ball.(dy := ball.dy * -1.0);
      }

      if Collides(ball.Bounds(), leftPaddle.Bounds()) {
        ball := ball.(dx := ball.dx * -1.0);
        ball := ball.(x := leftPaddle.x + leftPaddle.width);
      } else if Collides(ball.Bounds(), rightPaddle.Bounds()) {
        ball := ball.(dx := ball.dx * -1.0);
        ball := ball.(x := rightPaddle.x - ball.width);
      }
    }

    /** Section 6 of the loop: a point when one of the ball's edges has crossed a side border and the ball is not resetting. */
    method Score(r1: Sign, r2: Sign)
      modifies this
      ensures State() == Physics.ScorePoint(field, old(State()), r1, r2)
    {
      if ball.x < 0.0 && !ball.resetting {
        rightScore := rightScore + 1;
        ResetBall(1, r1, r2);
      } else if ball.x + ball.width > field.width && !ball.resetting {
        leftScore := leftScore + 1;
        ResetBall(-1, r1, r2);
      }
    }

    /**
      The state-changing part of one pass of the animation loop. The winner
      it reports is what the end of the frame displays; it does not stop
      later frames.
     */
    method Step(r1: Sign, r2: Sign) returns (w: Winner)
      requires Valid()
      modifies this
      ensures Valid()
      ensures State() == Physics.Next(field, old(State()), r1, r2)
      ensures w == WinnerOf(leftScore, rightScore)
    {
      MovePaddles();
      MoveBall();
      Score(r1, r2);

      if leftScore >= WINNING_SCORE {
        w := Player1;
      } else if rightScore >= WINNING_SCORE {
        w := Player2;
      } else {
        w := NoWinner;
      }
    }

    /** The keydown handler. */
    method KeyDown(key: string)
      modifies this
      ensures State() == Input.OnKeyDown(old(State()), key)
    {
      if key == Input.LEFT_UP {
        leftPaddle := leftPaddle.(dy := -PADDLE_SPEED);
      } else if key == Input.LEFT_DOWN {
        leftPaddle := leftPaddle.(dy := PADDLE_SPEED);
      }
      if key == Input.RIGHT_UP {
        rightPaddle := rightPaddle.(dy := -PADDLE_SPEED);
      } else if key == Input.RIGHT_DOWN {
        rightPaddle := rightPaddle.(dy := PADDLE_SPEED);
      }
    }

    /** The keyup handler. */
    method KeyUp(key: string)
      modifies this
      ensures State() == Input.OnKeyUp(old(State()), key)
    {
      if key == Input.LEFT_UP || key == Input.LEFT_DOWN {
        leftPaddle := leftPaddle.(dy := 0.0);
      }
      if key == Input.RIGHT_UP || key == Input.RIGHT_DOWN {
        rightPaddle := rightPaddle.(dy := 0.0);
      }
    }
  }
}
