# Pong: a verified model of the frame update

`pong-game/pong.js` is a browser game for two players. Each player has a paddle, and there is one ball. On every animation frame the game does the following, in order:

1. Each paddle moves by its velocity and is clamped between the top and bottom walls.
2. The ball moves.
3. A wall hit reverses the ball's vertical velocity.
4. A paddle hit reverses its horizontal velocity and snaps the ball to the paddle's edge.
5. A ball whose left edge has crossed the left border, or whose right edge has crossed the right border, scores a point and is served again from the centre. The `resetting` flag blocks further points until a one-second timer clears it.
6. The winner check reports Player 1 or Player 2 once a score reaches 5.

Key presses set a paddle's velocity.

This project models that update in Dafny. Coordinates are exact `real`s, so the half-unit starting positions (`H/2 - 75/2`) are represented exactly.

- `Geometry` (geometry.dfy) holds the AABB test `Collides`.
- `PongState` (state.dfy) holds the constants, the entities as datatypes, the initial state and the winner check.
- `Physics` (physics.dfy) holds one pure function per stage of the frame and `Next`, the whole frame.
- `Input` (input.dfy) holds the key handlers as functions on the state.
- `Runs` (runs.dfy) holds runs: sequences of events (frames, key events, the reset timer). Properties over any number of frames are proved on runs by induction.
- `PongGame` (game.dfy) holds the class `Game`. Its fields mirror `leftPaddle`, `rightPaddle`, `ball`, `leftScore` and `rightScore`. Its methods do what the code does, statement by statement. Each method is specified by one of the pure functions above, e.g. `State() == Physics.Next(field, old(State()), r1, r2)`. So every lemma about `Next` and `Run` applies to a `Game`.

Two things the code does that are easy to misread, and that the model keeps:

- **No freeze after a win.** `loop` calls `requestAnimationFrame(loop)` first (line 91), and the `return` at lines 156 and 159 only skips the rest of that frame. Physics and scoring go on after a win, and a win by Player 2 can later be reported as a win by Player 1 (`Runs.PlayContinuesAfterWin`). The model has no "finished" phase.
- **Key release.** Releasing either key of a paddle stops it, even if the other key of that paddle is still held (`Input.ReleaseStopsOppositeHeldKey`).

## Model

| member | source | states |
|---|---|---|
| `Geometry.Collides` | pong-game/pong.js:54-59 | no contract; the four strict comparisons of `collides`, in the same order |
| `Geometry.CollidesSymmetric` | pong-game/pong.js:54-59 | the overlap test gives the same answer with its arguments swapped |
| `Geometry.SeparatedDoesNotCollide` | pong-game/pong.js:54-59 | boxes separated on either axis, including boxes that only touch along an edge, never collide, because every comparison is strict |
| `Geometry.CollidesIffInteriorsMeet` | pong-game/pong.js:54-59 | for boxes of positive size, the four-inequality test holds exactly when some point lies strictly inside both boxes |
| `PongState.Initial` | pong-game/pong.js:14-48 | both paddles are vertically centred and still; the left paddle is one grid from the left border and the right paddle's right edge is one grid from the right border; the ball is centred with velocity (5, -5) and is not resetting; both scores are 0; the paddles start between the walls exactly when the canvas is at least 105 tall |
| `PongState.WinnerOf` | pong-game/pong.js:154-160 | Player 1 exactly when the left score is at least 5, even if the right score is too; Player 2 exactly when the right score is at least 5 and the left score is below 5; otherwise no winner |
| `Physics.MovePaddle` | pong-game/pong.js:98-101 | only `y` changes; the new `y` is never below the top wall; it is never past `maxPaddleY` when `grid <= maxPaddleY`; it is `y + dy` when that is in range and the nearer bound otherwise |
| `Physics.MoveBall` | pong-game/pong.js:104-105 | no contract; the ball moves by `(dx, dy)` |
| `Physics.HitsWall` | pong-game/pong.js:108 | no contract; the top edge is above the top wall band or the bottom edge below the bottom one |
| `Physics.BounceWalls` | pong-game/pong.js:108-110 | a top or bottom wall hit negates `dy` and changes nothing else, and the ball is not moved back inside; without a hit the ball is unchanged |
| `Physics.BouncePaddles` | pong-game/pong.js:113-119 | a left-paddle hit negates `dx` and sets the ball's left edge to the paddle's right edge; only when the left paddle is missed can a right-paddle hit negate `dx` and set the ball's right edge to the paddle's left edge; otherwise the ball is unchanged; nothing but `x` and `dx` changes |
| `Physics.SnapClearsOverlap` | pong-game/pong.js:113-119 | after the snap, the ball no longer overlaps the paddle it hit |
| `Physics.Serve` | pong-game/pong.js:62-70 | after `resetBall`, the ball is at (W/2, H/2) and resetting, with its size kept; it has `abs(dx) == abs(dy) == 5`; `dx > 0` exactly when `scorer * r1 == 1`, and `dy > 0` exactly when `r2 == 1` |
| `Physics.RightScores` | pong-game/pong.js:122 | no contract; the ball's left edge is left of 0 and the ball is not resetting |
| `Physics.LeftScores` | pong-game/pong.js:125 | no contract; the ball's right edge is past the canvas width and the ball is not resetting |
| `Physics.ScorePoint` | pong-game/pong.js:122-128 | the right score changes exactly when the ball is left of 0 and not resetting; the left score changes exactly when that did not fire and the ball's right edge is past W while not resetting; each score grows by at most 1, at most one of them grows, and neither grows while resetting; a point serves with scorer +1 for a right point and -1 for a left point; without a point nothing changes |
| `Physics.Next` | pong-game/pong.js:97-128 | over one frame: only the paddles' `y` changes, and it stays between the walls when `grid <= maxPaddleY`; the ball keeps its size and its speed of 5 on each axis; the scores never decrease, at most one grows and only by 1, and neither changes while resetting; resetting is set only by a point; a right point needs the moved ball left of 0, and a left point needs the moved ball's right edge past W |
| `Input.OnKeyDown` | pong-game/pong.js:165-179 | `w` and `s` set the left paddle's `dy` to -6 and +6 and leave the right paddle alone; `ArrowUp` and `ArrowDown` do the same for the right paddle; any other key changes nothing; ball and scores are untouched |
| `Input.OnKeyUp` | pong-game/pong.js:181-191 | either key of a paddle sets that paddle's `dy` to 0 whatever its direction, and leaves the other paddle alone; any other key changes nothing |
| `Input.LastKeyDownWins` | pong-game/pong.js:165-179 | for two presses on the same paddle, the second alone decides the velocity |
| `Input.PaddleKeysCommute` | pong-game/pong.js:165-179 | presses for different paddles give the same state in either order |
| `Input.ReleaseStopsOppositeHeldKey` | pong-game/pong.js:165-191 | press `w`, press `s`, release `w`: the left paddle stops although `s` is still held |
| `Input.KeysKeepSpeedsLegal` | pong-game/pong.js:165-191 | key events keep every paddle velocity in {-6, 0, 6} |
| `Runs.EndReset` | pong-game/pong.js:71-73 | the timer callback clears `resetting` and changes nothing else |
| `Runs.ScoresMonotone` | pong-game/pong.js:122-128 | over any run the scores never decrease, and together they grow by at most the number of frames |
| `Runs.ResettingBlocksScoring` | pong-game/pong.js:122-128 | while the ball is resetting and the timer does not fire, no point is scored however many frames pass, even with the ball outside the field, and the ball stays resetting |
| `Runs.OnlyTimerClearsResetting` | pong-game/pong.js:62-73 | without the timer, a raised `resetting` flag is never lowered, and after any point in a run the ball is still resetting |
| `Runs.WellFormedPreserved` | pong-game/pong.js:98-128 | over any run the paddles' `x`, width and height, and the ball's size, never change |
| `Runs.PaddlesStayInBounds` | pong-game/pong.js:98-101 | when `grid <= maxPaddleY`, paddles that start between the walls stay there over any run |
| `Runs.SpeedsStayLegal` | pong-game/pong.js:104-128 | over any run the paddle velocities stay in {-6, 0, 6}, and the ball's velocity stays at 5 in magnitude on each axis |
| `Runs.ReachableInvariants` | pong-game/pong.js:14-48 | from the initial state on a canvas at least 105 tall, every reachable state keeps the geometry, has both paddles between the walls, has legal speeds, and has a score total no larger than the number of frames |
| `Runs.WinnerPersists` | pong-game/pong.js:154-160 | once there is a winner there is always one later; a Player 1 win stays a Player 1 win |
| `Runs.PlayContinuesAfterWin` | pong-game/pong.js:154-160 | there is a state where Player 2 has won and the next frame still scores for Player 1, who is then reported; the winner check does not stop later frames |
| `PongGame.Game.constructor` | pong-game/pong.js:14-48 | the new game is `Initial` for the canvas size, and `Valid` holds |
| `PongGame.Game.ResetBall` | pong-game/pong.js:62-74 | the ball becomes `Physics.Serve` of the old ball; paddles and scores are unchanged |
| `PongGame.Game.EndReset` | pong-game/pong.js:71-73 | the new state is `Runs.EndReset` of the old one |
| `PongGame.Game.MovePaddles` | pong-game/pong.js:98-101 | each paddle becomes `Physics.MovePaddle` of itself; ball and scores are unchanged |
| `PongGame.Game.MoveBall` | pong-game/pong.js:104-119 | the ball is moved, bounced off the walls and then off the paddles, as the `Physics` stages say; paddles and scores are unchanged |
| `PongGame.Game.Score` | pong-game/pong.js:122-128 | the new state is `Physics.ScorePoint` of the old one |
| `PongGame.Game.Step` | pong-game/pong.js:90-161 | one frame takes the state to `Physics.Next` of the old state and keeps `Valid`; the winner it returns is `WinnerOf` the new scores |
| `PongGame.Game.KeyDown` | pong-game/pong.js:165-179 | the new state is `Input.OnKeyDown` of the old one |
| `PongGame.Game.KeyUp` | pong-game/pong.js:181-191 | the new state is `Input.OnKeyUp` of the old one |

## Left out

- Canvas drawing: the background, paddles, ball, walls, net, score text and `displayWinner` (lines 77-86, 94-95, 131-151). These only paint the external 2D context and change no game state.
- Frame scheduling with `requestAnimationFrame` and the registration of the key listeners (lines 1-2, 91, 165, 181, 194). The caller invokes `Game.Step`, `Game.KeyDown` and `Game.KeyUp` instead; `Runs.Run` describes any interleaving of them.
- The real-time `setTimeout` delay of 1000 ms (lines 71-73). The timer is the separate method `Game.EndReset` (the event `ResetTimer` in runs). The model says nothing about when it fires. A run may fire it without a reset pending, which then changes nothing but the already-false flag.
- `Math.random` (lines 68-69). The two random signs are parameters `r1` and `r2` of each frame.
- Floating point. Coordinates are exact reals. JavaScript doubles hold the game's half-integer values exactly, so this changes nothing for integral canvas sizes; scores are unbounded naturals.
- Aliasing. Paddles and ball are values stored in the fields of `Game`. The source's objects are module-level constants that are never shared.
