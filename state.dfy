/**
  The game's constants and its state: two paddles, the ball with its
  `resetting` flag, and the two scores, on a field whose size is read once
  from the canvas.
 */
module PongState {
  import opened Geometry

  /** Base grid unit: wall thickness, paddle width and ball size. */
  const GRID: real := 15.0
  const PADDLE_HEIGHT: real := GRID * 5.0
  const PADDLE_SPEED: real := 6.0
  const BALL_SPEED: real := 5.0
  const WINNING_SCORE: nat := 5

  /** The canvas size; constant for the whole game. */
  datatype Field = Field(width: real, height: real) {
    /** Lowest top edge a paddle may have without entering the bottom wall. */
    function MaxPaddleY(): real { height - GRID - PADDLE_HEIGHT }
  }

  /** A random or fixed direction factor, +1 or -1. */
  type Sign = s: int | s == 1 || s == -1 witness 1

  datatype Paddle = Paddle(x: real, y: real, width: real, height: real, dy: real) {
    function Bounds(): Box { Box(x, y, width, height) }
  }

  datatype Ball = Ball(x: real, y: real, width: real, height: real,
                       dx: real, dy: real, resetting: bool) {
    function Bounds(): Box { Box(x, y, width, height) }
  }

  datatype GameState = GameState(left: Paddle, right: Paddle, ball: Ball,
                                 leftScore: nat, rightScore: nat)

  datatype Winner = NoWinner | Player1 | Player2

  function Abs(v: real): real { if v < 0.0 then -v else v }

  /** The sizes and horizontal positions that nothing in the game ever changes. */
  ghost predicate WellFormed(f: Field, s: GameState) {
    && s.left.x == GRID && s.left.width == GRID && s.left.height == PADDLE_HEIGHT
    && s.right.x == f.width - GRID * 2.0 && s.right.width == GRID && s.right.height == PADDLE_HEIGHT
    && s.ball.width == GRID && s.ball.height == GRID
  }

  /** Both paddles lie between the top and the bottom wall. */
  ghost predicate PaddlesInBounds(f: Field, s: GameState) {
    && GRID <= s.left.y <= f.MaxPaddleY()
    && GRID <= s.right.y <= f.MaxPaddleY()
  }

  /** Paddles move at 0 or +-speed; the ball moves diagonally at +-speed on each axis. */
  ghost predicate SpeedsLegal(s: GameState) {
    && (s.left.dy == -PADDLE_SPEED || s.left.dy == 0.0 || s.left.dy == PADDLE_SPEED)
    && (s.right.dy == -PADDLE_SPEED || s.right.dy == 0.0 || s.right.dy == PADDLE_SPEED)
    && Abs(s.ball.dx) == BALL_SPEED && Abs(s.ball.dy) == BALL_SPEED
  }

  /** The state the script builds at load time. */
  function Initial(f: Field): (s: GameState)
    ensures WellFormed(f, s) && SpeedsLegal(s)
    ensures s.left.y + s.left.height / 2.0 == f.height / 2.0
    ensures s.right.y + s.right.height / 2.0 == f.height / 2.0
    ensures s.right.x + s.right.width == f.width - GRID
    ensures s.left.dy == 0.0 && s.right.dy == 0.0
    ensures s.ball.x == f.width / 2.0 && s.ball.y == f.height / 2.0
    ensures s.ball.dx == BALL_SPEED && s.ball.dy == -BALL_SPEED && !s.ball.resetting
    ensures s.leftScore == 0 && s.rightScore == 0
    ensures PaddlesInBounds(f, s) <==> f.height >= 105.0
  {
    GameState(
      Paddle(GRID, f.height / 2.0 - PADDLE_HEIGHT / 2.0, GRID, PADDLE_HEIGHT, 0.0),
      Paddle(f.width - GRID * 2.0, f.height / 2.0 - PADDLE_HEIGHT / 2.0, GRID, PADDLE_HEIGHT, 0.0),
      Ball(f.width / 2.0, f.height / 2.0, GRID, GRID, BALL_SPEED, -BALL_SPEED, false),
      0, 0)
  }

  /** The winner check at the end of a frame; Player 1 is examined first. */
  function WinnerOf(leftScore: nat, rightScore: nat): (w: Winner)
    ensures w == Player1 <==> leftScore >= WINNING_SCORE
    ensures w == Player2 <==> leftScore < WINNING_SCORE && rightScore >= WINNING_SCORE
    ensures w == NoWinner <==> leftScore < WINNING_SCORE && rightScore < WINNING_SCORE
  {
    if leftScore >= WINNING_SCORE then Player1
    else if rightScore >= WINNING_SCORE then Player2
    else NoWinner
  }
}
