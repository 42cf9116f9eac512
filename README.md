# Breakout game state machine

A model of the game logic of a single-page WebGL breakout game (`main.js`).
A paddle at the bottom of the clip-space square [-1, 1] x [-1, 1] returns a
point-sized ball into a 10 x 10 grid of blocks. Each destroyed block scores
10 points. Reaching exactly 100, 300 or 700 points speeds up the ball and
the paddle. When the ball leaves through the bottom edge the session ends,
and 3.5 s later the page returns to its home screen.

The model has six modules:

- `Layout` (layout.dfy) holds the grid constants, the palette, the block
  record and `FreshGrid`, the grid that `createBlocks` builds. It also
  proves that the column gap (0.201 > 0.2) and the row gap (0.101 > 0.1)
  keep the open boxes of different blocks disjoint.
- `Input` (input.dfy) is the key table. A key is held when its entry is
  `true`; a missing entry counts as released, as JavaScript's `undefined`
  does.
- `Effects` (effects.dfy) names the sounds played and the timed messages
  shown. The model records them in order and does not perform them.
- `Difficulty` (difficulty.dfy) is `updateScore` as a function `Award` on
  the scoring part of the state. It also defines `Paced`: the speeds are
  exactly what the thresholds reached so far have earned.
- `Physics` (physics.dfy) is one tick of `updateGame` as a function `Tick`
  on a `World` value, with its phases: paddle step, ball move, loss check and
  block scan. It holds the session invariants `WellFormed` and `Consistent`
  (score = 10 x destroyed blocks, and paced speeds) and the lemmas proving
  that every tick preserves them.
- `Session` (session.dfy) is the class `Game`. Its fields are the page's
  global variables, and the grid is an `array<Block>` whose records the scan
  overwrites in place. Its methods are the handlers. Every method is proved
  against the functions above, for example `State() == Tick(old(State()))`
  for `UpdateGame`.

Some consequences of the code that the model proves:

- The block scan does not stop at the first hit, but on this layout it
  destroys at most one block per tick (`Physics.AtMostOneStrike`).
- Scores move in steps of 10 from 0, so no threshold can be stepped over.
  Each threshold therefore fires at most once per session, exactly when the
  score reaches it, and the speeds always equal base + the increments of the
  thresholds reached so far (`Physics.TickKeepsConsistent`).
- The paddle's range test comes before its step, so the paddle can end one
  step past +-0.8 and never gets further (`Physics.PaddleStep`).
- The game-over callback runs the reset path 3.5 s after the loss, whatever
  happened meanwhile. If Play was pressed within those 3.5 s, the callback
  resets that new session too. `isGameRunning` stays `true` and
  `gameStarted` becomes `false`, so the new session waits for the space key
  again (`Session.Game.GameOverTimeout`).

## Model

| member | source | states |
|---|---|---|
| Layout.ExpectedBlock | main.js:75-78 | the block placed at (row, col) is centred at x = -0.9 + 0.201*col, y = 1 - 0.101*row, intact, with palette colour (row+col) % 6 |
| Layout.FreshGrid | main.js:71-81 | the grid has rows*cols = 100 blocks in row-major order; block i is the one placed at (i / 10, i % 10), and none is hit |
| Layout.GridSlot | main.js:73-78 | block row*10+col is at x = -1 + 0.201*col + 0.1, y = 1 - 0.101*row, with colour (row+col) % 6 of the palette, not hit |
| Layout.FreshGridUnhit | main.js:78 | a fresh grid has no destroyed block and lies on the grid layout |
| Layout.SameCell | main.js:75-76 | a point strictly inside the boxes of the blocks placed at two cells means the two cells are the same |
| Layout.SlotsDisjoint | main.js:290-294 | no point is strictly inside (±0.1, ±0.05) two distinct blocks of the grid |
| Input.Released | main.js:233-235 | clearing keeps the same set of keys and makes every one of them released |
| Difficulty.Increment | main.js:183 | the ball speed increment at a threshold is positive, between 0.005 and 0.0075 |
| Difficulty.Boost | main.js:184-185 | a nonzero speed keeps its sign and its magnitude grows by the increment; a zero speed becomes -increment |
| Difficulty.Award | main.js:174-194 | the score always rises by the points; exactly when the new score is 100, 300 or 700, both ball speeds keep their sign and gain 0.005, 0.006 or 0.0075 in magnitude, the paddle speed gains 0.01, every key is released and the level message and sound are emitted; otherwise nothing else changes |
| Difficulty.AwardKeepsPace | main.js:174-194 | from paced speeds and a score that is a multiple of 10, awarding one block keeps the speeds equal to what the thresholds reached have earned |
| Physics.PaddleStep | main.js:265-266 | with no arrow held the paddle stays; ArrowLeft alone moves it left by exactly paddleSpeed iff x > -0.8; ArrowRight alone moves it right iff x < 0.8; with both held the left step comes first and the right test sees the moved x, so the paddle ends at x + speed when x <= -0.8, at x when x - speed < 0.8, else at x - speed; the range ±(0.8 + speed) is never left |
| Physics.Move | main.js:268-280 | the ball advances by exactly its velocity; speed magnitudes are unchanged; the horizontal speed reverses iff the ball is beyond a side wall; the vertical speed reverses iff the ball is above the ceiling or strictly inside the paddle box |
| Physics.Strike | main.js:290-296 | a block keeps its place and colour; it becomes hit iff it was hit already or strictly contains the ball point; a hit block never changes again |
| Physics.OnBlockHit | main.js:295-298 | a block hit adds 10 points, reverses the vertical direction, keeps the horizontal one, releases the keys iff a threshold is reached, and ends with the block sound after the earlier effects |
| Physics.Scan | main.js:289-300 | the scan visits every block in order: each block becomes its Strike, and the score rises by exactly 10 per newly destroyed block |
| Physics.ScanHitCount | main.js:289-300 | the number of destroyed blocks after the scan is the number before plus the blocks the scan struck |
| Physics.ScanSpeeds | main.js:289-300 | through the scan the horizontal direction is kept; the vertical direction reverses once per struck block; no speed and not the paddle speed shrinks |
| Physics.ScanKeepsPace | main.js:289-300 | starting from paced speeds, the scan's scoring keeps them paced |
| Physics.NoStrikes | main.js:290-294 | a scan in which no block is struck scores nothing |
| Physics.AtMostOneStrike | main.js:289-300 | over blocks on the grid layout, one scan destroys at most one block |
| Physics.Tick | main.js:262-301 | a tick is the identity unless running and started, else the paddle-and-ball phase followed by the loss-or-scan phase; it never starts or restarts a session and keeps the number of blocks |
| Physics.TickEffect | main.js:262-301 | the tick changes nothing unless running and started; otherwise the paddle takes its control step, the ball advances by its velocity, the session stops exactly when the ball is below -1, and each block is struck iff the ball is still in play |
| Physics.TickLoss | main.js:282-287 | when the ball drops below -1 the session stops, and blocks, score, paddle speed and keys are untouched; the game-over sound and message follow the paddle effects |
| Physics.TickKeepsWellFormed | main.js:262-301 | a tick keeps the grid layout, the paddle within one step of ±0.8 and all speeds at or above their start value |
| Physics.TickScores | main.js:289-300 | a tick never un-destroys a block and destroys at most one; it adds exactly 10 points per block it destroys, so the score never falls |
| Physics.TickBlockBounce | main.js:295 | with the ball in play, the tick reverses the vertical direction left by the wall and paddle checks iff it destroys a block |
| Physics.TickKeepsConsistent | main.js:262-301 | a tick keeps score = 10 x destroyed blocks, and keeps the speeds equal to what the thresholds reached have earned |
| Session.Reset | main.js:218-230 | after a reset: ball at (0, -0.8) with speeds (0.01, 0.01), paddle at 0 with speed 0.01, score 0, not started, a fresh grid, the same keys all released; the state is consistent |
| Session.Game.constructor | main.js:55-90 | the page starts with a fresh grid, the start values of ball, paddle and score, an empty key table, idle and not started |
| Session.Game.CreateBlocks | main.js:71-81 | the nested loops leave a new array holding exactly the fresh grid |
| Session.Game.ClearKeys | main.js:233-235 | the loop over the keys leaves the key table with the same keys, all released |
| Session.Game.UpdateScore | main.js:174-194 | the scoring fields change exactly as Award says, the nested key clearing included |
| Session.Game.UpdateGame | main.js:262-301 | the new state is Tick of the old one; the grid array is the same object; the structural and session invariants are kept |
| Session.Game.Advance | main.js:265-300 | past the guard, the new state is Tick of the old one |
| Session.Game.Integrate | main.js:265-280 | the paddle and ball phase of a tick |
| Session.Game.Settle | main.js:282-300 | the loss check, or else the block scan, of a tick |
| Session.Game.MovePaddle | main.js:265-266 | the paddle moves as PaddleStep says |
| Session.Game.MoveBall | main.js:268-280 | the ball moves as Move says; the paddle sound is emitted iff the ball is inside the paddle box |
| Session.Game.ScanBlocks | main.js:289-300 | the in-place scan leaves the array and the scoring fields exactly as Scan says |
| Session.Game.VisitBlock | main.js:290-299 | only block i changes, into its Strike; a hit reverses the vertical speed, awards 10 and plays the block sound, and a miss changes nothing |
| Session.Game.GameLoop | main.js:350-355 | the loop asks to be scheduled again iff it found the game running; the state advances by one tick; the invariants are kept |
| Session.Game.ResetGame | main.js:218-230 | the new state is Reset of the old one, with a new grid array |
| Session.Game.GoToHomePage | main.js:238-246 | the state part of going home is a reset |
| Session.Game.Play | main.js:197-208 | Play leaves a reset, consistent state that is running and not started, and the loop scheduled |
| Session.Game.Quit | main.js:212-215 | Quit leaves a reset, consistent state that is neither running nor started |
| Session.Game.GameOverTimeout | main.js:252-258 | the callback 3.5 s after a loss resets the state and leaves the running flag as it finds it |
| Session.Game.KeyDown | main.js:93-99 | the key becomes held; the game becomes started iff it already was, or the key is space and the game is running; the invariants are kept |
| Session.Game.KeyUp | main.js:101-103 | the key becomes released and nothing else changes |

## Left out

- WebGL context, buffers, shaders and all drawing (`drawPaddle`, `drawBall`, `drawBlock`, `renderGame`). These are foreign graphics calls.
- `createCircleVertices`: trigonometry that exists only to draw the ball.
- Audio playback and `playSound`: each sound is recorded as an `Effect` in the order it is played, and is not performed.
- DOM text and visibility changes (score text, panels, start message). The level and game-over messages are recorded as effects. The 2000 ms hide of the level message is dropped.
- The `setTimeout` of the game-over message: the 3500 ms callback is the method `GameOverTimeout`, which the environment calls at some later point.
- `requestAnimationFrame` scheduling: `GameLoop` returns whether it would schedule itself again. Key events are method calls between ticks.
- IEEE-754 rounding: coordinates and speeds are exact reals. Boundary cases that depend on rounding (such as whether repeated 0.01 steps land exactly on -0.8) are not modelled.
- The nested `clearKeys` inside `updateScore` and the top-level one behave the same; both are modelled by the single method `Session.Game.ClearKeys` and the function `Input.Released`.
- The iteration order of `for...in` over the key table is not modelled: `ClearKeys` releases the keys in an arbitrary order, which gives the same final table.
