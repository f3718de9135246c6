/**
  The keydown and keyup handlers: plain last-writer-wins assignments to a
  paddle's velocity. Keys are compared exactly, so "W" is not "w".
 */
module Input {
  import opened PongState

  const LEFT_UP: string := "w"
  const LEFT_DOWN: string := "s"
  const RIGHT_UP: string := "ArrowUp"
  const RIGHT_DOWN: string := "ArrowDown"

  predicate IsLeftKey(key: string) { key == LEFT_UP || key == LEFT_DOWN }

  predicate IsRightKey(key: string) { key == RIGHT_UP || key == RIGHT_DOWN }

  /** keydown: an up key sets its paddle's dy to -speed, a down key to +speed. */
  function OnKeyDown(s: GameState, key: string): (r: GameState)
    ensures r.ball == s.ball && r.leftScore == s.leftScore && r.rightScore == s.rightScore
    ensures r.left == s.left.(dy := r.left.dy) && r.right == s.right.(dy := r.right.dy)
    ensures key == LEFT_UP ==> r.left.dy == -PADDLE_SPEED && r.right == s.right
    ensures key == LEFT_DOWN ==> r.left.dy == PADDLE_SPEED && r.right == s.right
    ensures key == RIGHT_UP ==> r.right.dy == -PADDLE_SPEED && r.left == s.left
    ensures key == RIGHT_DOWN ==> r.right.dy == PADDLE_SPEED && r.left == s.left
    ensures !IsLeftKey(key) && !IsRightKey(key) ==> r == s
  {
    var left :=
      if key == LEFT_UP then s.left.(dy := -PADDLE_SPEED)
      else if key == LEFT_DOWN then s.left.(dy := PADDLE_SPEED)
      else s.left;
    var right :=
      if key == RIGHT_UP then s.right.(dy := -PADDLE_SPEED)
      else if key == RIGHT_DOWN then s.right.(dy := PADDLE_SPEED)
      else s.right;
    s.(left := left, right := right)
  }

  /** keyup: either key of a paddle stops that paddle, whichever way it was moving. */
  function OnKeyUp(s: GameState, key: string): (r: GameState)
    ensures r.ball == s.ball && r.leftScore == s.leftScore && r.rightScore == s.rightScore
    ensures r.left == s.left.(dy := r.left.dy) && r.right == s.right.(dy := r.right.dy)
    ensures IsLeftKey(key) ==> r.left.dy == 0.0 && r.right == s.right
    ensures IsRightKey(key) ==> r.right.dy == 0.0 && r.left == s.left
    ensures !IsLeftKey(key) && !IsRightKey(key) ==> r == s
  {
    var left := if IsLeftKey(key) then s.left.(dy := 0.0) else s.left;
    var right := if IsRightKey(key) then s.right.(dy := 0.0) else s.right;
    s.(left := left, right := right)
  }

  /** Two presses for the same paddle: the later one alone decides its velocity. */
  lemma LastKeyDownWins(s: GameState, first: string, second: string)
    requires (IsLeftKey(first) && IsLeftKey(second)) || (IsRightKey(first) && IsRightKey(second))
    ensures OnKeyDown(OnKeyDown(s, first), second) == OnKeyDown(s, second)
  {
  }

  /** Presses for different paddles do not interfere, in either order. */
  lemma PaddleKeysCommute(s: GameState, leftKey: string, rightKey: string)
    requires IsLeftKey(leftKey) && IsRightKey(rightKey)
    ensures OnKeyDown(OnKeyDown(s, leftKey), rightKey) == OnKeyDown(OnKeyDown(s, rightKey), leftKey)
  {
  }

  /**
    Holding "w", then pressing "s" and releasing "w" leaves the left paddle
    still, although "s" is still held: no set of held keys is kept.
   */
  lemma ReleaseStopsOppositeHeldKey(s: GameState)
    ensures OnKeyDown(OnKeyDown(s, LEFT_UP), LEFT_DOWN).left.dy == PADDLE_SPEED
    ensures OnKeyUp(OnKeyDown(OnKeyDown(s, LEFT_UP), LEFT_DOWN), LEFT_UP).left.dy == 0.0
  {
  }

  /** Key handlers keep paddle velocities among {-speed, 0, +speed}. */
  lemma KeysKeepSpeedsLegal(s: GameState, key: string)
    requires SpeedsLegal(s)
    ensures SpeedsLegal(OnKeyDown(s, key)) && SpeedsLegal(OnKeyUp(s, key))
  {
  }
}
