/**
  The state-changing part of one animation frame, stage by stage: paddle
  integration and clamping, ball integration, wall bounce, paddle bounce,
  scoring and the ball reset that follows a point.
 */
module Physics {
  import opened Geometry
  import opened PongState

  /** A paddle moves by its velocity and is then clamped between the walls. */
  function MovePaddle(f: Field, p: Paddle): (r: Paddle)
    ensures r == p.(y := r.y)
    ensures r.y >= GRID
    ensures GRID <= f.MaxPaddleY() ==> r.y <= f.MaxPaddleY()
    ensures GRID <= p.y + p.dy <= f.MaxPaddleY() ==> r.y == p.y + p.dy
    ensures p.y + p.dy < GRID ==> r.y == GRID
    ensures GRID <= f.MaxPaddleY() < p.y + p.dy ==> r.y == f.MaxPaddleY()
    ensures f.MaxPaddleY() < GRID ==> r.y == GRID
  {
    var y := p.y + p.dy;
    p.(y := Max(GRID, Min(f.MaxPaddleY(), y)))
  }

  function MoveBall(b: Ball): Ball {
    b.(x := b.x + b.dx, y := b.y + b.dy)
  }

  /** The ball's top edge is above the top wall or its bottom edge below the bottom wall. */
  predicate HitsWall(f: Field, b: Ball) {
    b.y < GRID || b.y + b.height > f.height - GRID
  }

  /** A wall hit reverses the vertical velocity; the ball is not pushed back inside. */
  function BounceWalls(f: Field, b: Ball): (r: Ball)
    ensures r == b.(dy := r.dy)
    ensures HitsWall(f, b) ==> r.dy == -b.dy
    ensures !HitsWall(f, b) ==> r == b
  {
    if HitsWall(f, b) then b.(dy := b.dy * -1.0) else b
  }

  /**
    A hit on the left paddle reverses dx and puts the ball's left edge on the
    paddle's right edge; only when the left paddle is missed is the right
    paddle tested, and a hit there puts the ball's right edge on the
    paddle's left edge.
   */
  function BouncePaddles(b: Ball, lp: Paddle, rp: Paddle): (r: Ball)
    ensures r == b.(x := r.x, dx := r.dx)
    ensures Collides(b.Bounds(), lp.Bounds()) ==>
              r.x == lp.x + lp.width && r.dx == -b.dx
    ensures !Collides(b.Bounds(), lp.Bounds()) && Collides(b.Bounds(), rp.Bounds()) ==>
              r.x + r.width == rp.x && r.dx == -b.dx
    ensures !Collides(b.Bounds(), lp.Bounds()) && !Collides(b.Bounds(), rp.Bounds()) ==> r == b
  {
    if Collides(b.Bounds(), lp.Bounds()) then
      b.(dx := b.dx * -1.0).(x := lp.x + lp.width)
    else if Collides(b.Bounds(), rp.Bounds()) then
      b.(dx := b.dx * -1.0).(x := rp.x - b.width)
    else
      b
  }

  /** After the snap to a paddle's edge the ball no longer overlaps that paddle. */
  lemma SnapClearsOverlap(b: Ball, lp: Paddle, rp: Paddle)
    ensures Collides(b.Bounds(), lp.Bounds()) ==>
              !Collides(BouncePaddles(b, lp, rp).Bounds(), lp.Bounds())
    ensures !Collides(b.Bounds(), lp.Bounds()) && Collides(b.Bounds(), rp.Bounds()) ==>
              !Collides(BouncePaddles(b, lp, rp).Bounds(), rp.Bounds())
  {
  }

  /**
    resetBall: the ball is recentred, marked as resetting, and served with
    dx = scorer * speed * r1 and dy = speed * r2.
   */
  function Serve(f: Field, b: Ball, scorer: Sign, r1: Sign, r2: Sign): (r: Ball)
    ensures r.resetting
    ensures r.x == f.width / 2.0 && r.y == f.height / 2.0
    ensures r.width == b.width && r.height == b.height
    ensures Abs(r.dx) == BALL_SPEED && Abs(r.dy) == BALL_SPEED
    ensures r.dx > 0.0 <==> scorer * r1 == 1
    ensures r.dy > 0.0 <==> r2 == 1
  {
    var sr := scorer as real;
    var r1r := r1 as real;
    assert sr * BALL_SPEED * r1r == (scorer * r1) as real * BALL_SPEED;
    b.(resetting := true,
       x := f.width / 2.0,
       y := f.height / 2.0,
       dx := sr * BALL_SPEED * r1r,
       dy := BALL_SPEED * (r2 as real))
  }

  /** The ball's left edge has crossed the left border: a point for the right player. */
  predicate RightScores(b: Ball) {
    b.x < 0.0 && !b.resetting
  }

  /** The ball's right edge has crossed the right border: a point for the left player. */
  predicate LeftScores(f: Field, b: Ball) {
    b.x + b.width > f.width && !b.resetting
  }

  /**
    Scoring, gated by `resetting`: the left border is tested
    first, and a point is followed by resetBall with scorer +1 after a point
    for the right player and -1 after a point for the left player.
   */
  function ScorePoint(f: Field, s: GameState, r1: Sign, r2: Sign): (r: GameState)
    ensures r.left == s.left && r.right == s.right
    ensures r.rightScore != s.rightScore <==> RightScores(s.ball)
    ensures r.leftScore != s.leftScore <==> !RightScores(s.ball) && LeftScores(f, s.ball)
    ensures s.rightScore <= r.rightScore <= s.rightScore + 1
    ensures s.leftScore <= r.leftScore <= s.leftScore + 1
    ensures r.leftScore == s.leftScore || r.rightScore == s.rightScore
    ensures s.ball.resetting ==> r == s
    ensures r.rightScore != s.rightScore ==> r.ball == Serve(f, s.ball, 1, r1, r2)
    ensures r.leftScore != s.leftScore ==> r.ball == Serve(f, s.ball, -1, r1, r2)
    ensures r.leftScore == s.leftScore && r.rightScore == s.rightScore ==> r == s
  {
    if RightScores(s.ball) then
      s.(rightScore := s.rightScore + 1, ball := Serve(f, s.ball, 1, r1, r2))
    else if LeftScores(f, s.ball) then
      s.(leftScore := s.leftScore + 1, ball := Serve(f, s.ball, -1, r1, r2))
    else
      s
  }

  /** The ball as the scoring check sees it: moved and bounced, with the paddles already moved. */
  function BallAtScoring(f: Field, s: GameState): Ball {
    BouncePaddles(BounceWalls(f, MoveBall(s.ball)), MovePaddle(f, s.left), MovePaddle(f, s.right))
  }

  /** One frame of the game loop. The random serve directions are r1 and r2. */
  function Next(f: Field, s: GameState, r1: Sign, r2: Sign): (r: GameState)
    ensures r.left == s.left.(y := r.left.y) && r.right == s.right.(y := r.right.y)
    ensures r.left.y >= GRID && r.right.y >= GRID
    ensures GRID <= f.MaxPaddleY() ==> PaddlesInBounds(f, r)
    ensures r.ball.width == s.ball.width && r.ball.height == s.ball.height
    ensures WellFormed(f, s) ==> WellFormed(f, r)
    ensures SpeedsLegal(s) ==> SpeedsLegal(r)
    ensures s.leftScore <= r.leftScore <= s.leftScore + 1
    ensures s.rightScore <= r.rightScore <= s.rightScore + 1
    ensures r.leftScore == s.leftScore || r.rightScore == s.rightScore
    ensures s.ball.resetting ==>
              r.leftScore == s.leftScore && r.rightScore == s.rightScore && r.ball.resetting
    ensures r.ball.resetting <==>
              s.ball.resetting || r.leftScore != s.leftScore || r.rightScore != s.rightScore
    ensures r.rightScore != s.rightScore ==> BallAtScoring(f, s).x < 0.0
    ensures r.leftScore != s.leftScore ==>
              !(BallAtScoring(f, s).x < 0.0) && BallAtScoring(f, s).x + s.ball.width > f.width
  {
    var lp := MovePaddle(f, s.left);
    var rp := MovePaddle(f, s.right);
    var b := BouncePaddles(BounceWalls(f, MoveBall(s.ball)), lp, rp);
    ScorePoint(f, GameState(lp, rp, b, s.leftScore, s.rightScore), r1, r2)
  }
}
