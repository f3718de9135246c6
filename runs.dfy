/**
  Everything that can happen to the game, one event at a time: an animation
  frame, a key event, or the reset timer firing. Properties of whole runs
  are proved by induction on the list of events.
 */
module Runs {
  import opened PongState
  import opened Physics
  import opened Input

  /** Frame carries the two random signs resetBall would draw in that frame. */
  datatype Event = Frame(r1: Sign, r2: Sign) | KeyDown(key: string) | KeyUp(key: string) | ResetTimer

  /** The callback scheduled by resetBall: score immunity ends. */
  function EndReset(s: GameState): (r: GameState)
    ensures !r.ball.resetting
    ensures r.ball.(resetting := s.ball.resetting) == s.ball
    ensures r.left == s.left && r.right == s.right
    ensures r.leftScore == s.leftScore && r.rightScore == s.rightScore
  {
    s.(ball := s.ball.(resetting := false))
  }

  function Apply(f: Field, s: GameState, e: Event): GameState {
    match e
    case Frame(r1, r2) => Next(f, s, r1, r2)
    case KeyDown(key) => OnKeyDown(s, key)
    case KeyUp(key) => OnKeyUp(s, key)
    case ResetTimer => EndReset(s)
  }

  function Run(f: Field, s: GameState, es: seq<Event>): GameState
    decreases |es|
  {
    if es == [] then s else Run(f, Apply(f, s, es[0]), es[1..])
  }

  /** The number of animation frames in a list of events. */
  function Frames(es: seq<Event>): nat
    decreases |es|
  {
    if es == [] then 0 else (if es[0].Frame? then 1 else 0) + Frames(es[1..])
  }

  predicate NoTimer(es: seq<Event>) {
    forall i :: 0 <= i < |es| ==> !es[i].ResetTimer?
  }

  /** Scores never decrease, and together grow by at most one per frame. */
  lemma {:induction false} ScoresMonotone(f: Field, s: GameState, es: seq<Event>)
    ensures Run(f, s, es).leftScore >= s.leftScore
    ensures Run(f, s, es).rightScore >= s.rightScore
    ensures Run(f, s, es).leftScore + Run(f, s, es).rightScore <= s.leftScore + s.rightScore + Frames(es)
    decreases |es|
  {
    if es != [] {
      ScoresMonotone(f, Apply(f, s, es[0]), es[1..]);
    }
  }

  /**
    While the ball is resetting and the timer has not fired, no point is
    scored however many frames pass, and the ball stays in the resetting
    state: only the timer clears it.
   */
  lemma {:induction false} ResettingBlocksScoring(f: Field, s: GameState, es: seq<Event>)
    requires s.ball.resetting && NoTimer(es)
    ensures Run(f, s, es).leftScore == s.leftScore
    ensures Run(f, s, es).rightScore == s.rightScore
    ensures Run(f, s, es).ball.resetting
    decreases |es|
  {
    if es != [] {
      assert !es[0].ResetTimer?;
      ResettingBlocksScoring(f, Apply(f, s, es[0]), es[1..]);
    }
  }

  /** Without the timer, a resetting flag once raised is never lowered. */
  lemma {:induction false} OnlyTimerClearsResetting(f: Field, s: GameState, es: seq<Event>)
    requires NoTimer(es)
    ensures s.ball.resetting ==> Run(f, s, es).ball.resetting
    ensures Run(f, s, es).leftScore + Run(f, s, es).rightScore > s.leftScore + s.rightScore ==>
              Run(f, s, es).ball.resetting
    decreases |es|
  {
    if es != [] {
      var t := Apply(f, s, es[0]);
      assert !es[0].ResetTimer?;
      OnlyTimerClearsResetting(f, t, es[1..]);
      ScoresMonotone(f, t, es[1..]);
    }
  }

  /** Sizes and horizontal paddle positions never change. */
  lemma {:induction false} WellFormedPreserved(f: Field, s: GameState, es: seq<Event>)
    requires WellFormed(f, s)
    ensures WellFormed(f, Run(f, s, es))
    decreases |es|
  {
    if es != [] {
      WellFormedPreserved(f, Apply(f, s, es[0]), es[1..]);
    }
  }

  /** The clamp keeps both paddles between the walls on every run. */
  lemma {:induction false} PaddlesStayInBounds(f: Field, s: GameState, es: seq<Event>)
    requires GRID <= f.MaxPaddleY() && PaddlesInBounds(f, s)
    ensures PaddlesInBounds(f, Run(f, s, es))
    decreases |es|
  {
    if es != [] {
      PaddlesStayInBounds(f, Apply(f, s, es[0]), es[1..]);
    }
  }

  /** Paddle speeds stay in {-6, 0, 6}; the ball keeps speed 5 on each axis. */
  lemma {:induction false} SpeedsStayLegal(f: Field, s: GameState, es: seq<Event>)
    requires SpeedsLegal(s)
    ensures SpeedsLegal(Run(f, s, es))
    decreases |es|
  {
    if es != [] {
      if !es[0].Frame? && !es[0].ResetTimer? {
        KeysKeepSpeedsLegal(s, es[0].key);
      }
      SpeedsStayLegal(f, Apply(f, s, es[0]), es[1..]);
    }
  }

  /** What holds in every state reachable from the start of a game on a field at least 105 tall. */
  lemma ReachableInvariants(f: Field, es: seq<Event>)
    requires f.height >= 105.0
    ensures WellFormed(f, Run(f, Initial(f), es))
    ensures PaddlesInBounds(f, Run(f, Initial(f), es))
    ensures SpeedsLegal(Run(f, Initial(f), es))
    ensures Run(f, Initial(f), es).leftScore + Run(f, Initial(f), es).rightScore <= Frames(es)
  {
    WellFormedPreserved(f, Initial(f), es);
    PaddlesStayInBounds(f, Initial(f), es);
    SpeedsStayLegal(f, Initial(f), es);
    ScoresMonotone(f, Initial(f), es);
  }

  /** Once someone has won, somebody is still the winner later; a Player 1 win is final. */
  lemma WinnerPersists(f: Field, s: GameState, es: seq<Event>)
    requires WinnerOf(s.leftScore, s.rightScore) != NoWinner
    ensures WinnerOf(Run(f, s, es).leftScore, Run(f, s, es).rightScore) != NoWinner
    ensures WinnerOf(s.leftScore, s.rightScore) == Player1 ==>
              WinnerOf(Run(f, s, es).leftScore, Run(f, s, es).rightScore) == Player1
  {
    ScoresMonotone(f, s, es);
  }

  /**
    The winner check does not stop the game: after Player 2 has reached five
    points the next frame can still score for Player 1, and Player 1 is then
    reported instead.
   */
  lemma PlayContinuesAfterWin()
    ensures exists f: Field, s: GameState, r1: Sign, r2: Sign ::
              && WinnerOf(s.leftScore, s.rightScore) == Player2
              && Next(f, s, r1, r2).leftScore == s.leftScore + 1
              && WinnerOf(Next(f, s, r1, r2).leftScore, Next(f, s, r1, r2).rightScore) == Player1
  {
    var f := Field(600.0, 400.0);
    var s := GameState(
      Paddle(GRID, 100.0, GRID, PADDLE_HEIGHT, 0.0),
      Paddle(570.0, 100.0, GRID, PADDLE_HEIGHT, 0.0),
      Ball(590.0, 200.0, GRID, GRID, BALL_SPEED, BALL_SPEED, false),
      4, 5);
    assert !RightScores(BallAtScoring(f, s)) && LeftScores(f, BallAtScoring(f, s));
    assert Next(f, s, 1, 1).leftScore == 5;
  }
}
