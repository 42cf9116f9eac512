/**
 * The game object: the module-level state of the game as fields, and its
 * handlers (grid creation, scoring, the tick, the loop guard, reset, the
 * Play and Quit buttons, the keyboard and the game-over callback) as methods.
 */
module Session {
  import opened Layout
  import opened Input
  import opened Effects
  import opened Difficulty
  import opened Physics

  const StartBallY: real := -0.8

  /**
   * The state `resetGame` leaves: ball and paddle back at the start with the
   * initial speeds, a fresh grid, score 0, not started, every key released.
   * The running flag and the effects already emitted are left as they were.
   */
  function Reset(w: World): (r: World)
    ensures r.blocks == FreshGrid() && HitCount(r.blocks) == 0
    ensures r.paddleX == 0.0 && r.ballX == 0.0 && r.ballY == StartBallY
    ensures r.progress.ballSpeedX == BaseSpeed && r.progress.ballSpeedY == BaseSpeed
    ensures r.progress.paddleSpeed == BaseSpeed && r.progress.score == 0
    ensures r.progress.keys.Keys == w.progress.keys.Keys && forall k :: !Held(r.progress.keys, k)
    ensures r.progress.effects == w.progress.effects
    ensures r.running == w.running && !r.started
    ensures Consistent(r)
  {
    FreshGridUnhit();
    World(FreshGrid(), 0.0, 0.0, StartBallY,
          Progress(BaseSpeed, BaseSpeed, BaseSpeed, 0, Released(w.progress.keys), w.progress.effects),
          w.running, false)
  }

  class Game {
    var blocks: array<Block>
    var paddleX: real
    var paddleSpeed: real
    var keys: KeyMap
    var ballX: real
    var ballY: real
    var ballSpeedX: real
    var ballSpeedY: real
    var score: int
    var isGameRunning: bool
    var gameStarted: bool
    /** Sounds played and messages shown, in order. */
    var effects: seq<Effect>

    ghost function CurrentProgress(): Progress
      reads this
    {
      Progress(ballSpeedX, ballSpeedY, paddleSpeed, score, keys, effects)
    }

    ghost function State(): World
      reads this, blocks
    {
      World(blocks[..], paddleX, ballX, ballY, CurrentProgress(), isGameRunning, gameStarted)
    }

    ghost predicate Valid()
      reads this, blocks
    {
      WellFormed(State())
    }

    /** The state at page load: a fresh grid, everything at its start value, idle. */
    constructor ()
      ensures fresh(blocks) && Valid() && Consistent(State())
      ensures State() == World(FreshGrid(), 0.0, 0.0, StartBallY,
                               Progress(BaseSpeed, BaseSpeed, BaseSpeed, 0, map[], []),
                               false, false)
    {
      blocks := new Block[0];
      paddleX, paddleSpeed := 0.0, 0.01;
      keys := map[];
      ballX, ballY := 0.0, -0.8;
      ballSpeedX, ballSpeedY := 0.01, 0.01;
      score := 0;
      isGameRunning, gameStarted := false, false;
      effects := [];
      new;
      CreateBlocks();
      FreshGridUnhit();
    }

    /** `createBlocks`: a new grid of Rows x Cols intact blocks, filled row by row. */
    method CreateBlocks()
      modifies this`blocks
      ensures fresh(blocks)
      ensures blocks[..] == FreshGrid()
    {
      var grid := new Block[Rows * Cols];
      var row := 0;
      while row < Rows
        invariant 0 <= row <= Rows
        invariant forall i :: 0 <= i < row * Cols ==> grid[i] == FreshGrid()[i]
      {
        var col := 0;
        while col < Cols
          invariant 0 <= col <= Cols
          invariant forall i :: 0 <= i < row * Cols + col ==> grid[i] == FreshGrid()[i]
        {
          var x := -1.0 + (BlockWidth + SpacingX) * (col as real) + BlockWidth / 2.0;
          var y := 1.0 - (BlockHeight + SpacingY) * (row as real);
          var colorIndex := (row + col) % |Palette|;
          GridSlot(row, col);
          // the push of the source lands at index row * Cols + col
          grid[row * Cols + col] := Block(x, y, false, Palette[colorIndex]);
          col := col + 1;
        }
        row := row + 1;
      }
      blocks := grid;
    }

    /** `clearKeys`: every key in the table becomes released; no key is added or removed. */
    method ClearKeys()
      modifies this`keys
      ensures keys == Released(old(keys))
    {
      var pending := keys.Keys;
      while pending != {}
        invariant pending <= keys.Keys
        invariant keys.Keys == old(keys).Keys
        invariant forall k :: k in keys && k !in pending ==> !keys[k]
        decreases pending
      {
        var k :| k in pending;
        keys := keys[k := false];
        pending := pending - {k};
      }
    }

    /** `updateScore(points)`. */
    method UpdateScore(points: int)
      modifies this`score, this`ballSpeedX, this`ballSpeedY, this`paddleSpeed, this`keys, this`effects
      ensures CurrentProgress() == Award(old(CurrentProgress()), points)
    {
      score := score + points;
      if score == 100 || score == 300 || score == 700 {
        effects := effects + [LevelMessage, DifficultyUpSound];
        var speedIncrement := if score == 100 then 0.005 else if score == 300 then 0.006 else 0.0075;
        ballSpeedX := ballSpeedX + (if ballSpeedX > 0.0 then speedIncrement else -speedIncrement);
        ballSpeedY := ballSpeedY + (if ballSpeedY > 0.0 then speedIncrement else -speedIncrement);
        paddleSpeed := paddleSpeed + 0.01;
        ClearKeys();
      }
    }

    /** `updateGame`: one tick, in the order of the source. */
    method UpdateGame()
      requires Valid()
      modifies this, blocks
      ensures blocks == old(blocks)
      ensures State() == Tick(old(State()))
      ensures Valid()
      ensures old(Consistent(State())) ==> Consistent(State())
    {
      ghost var w := State();
      TickKeepsWellFormed(w);
      if Consistent(w) {
        TickKeepsConsistent(w);
      }
      if !isGameRunning || !gameStarted {
        return;
      }
      Advance();
    }

    /** The part of `updateGame` past its guard. */
    method Advance()
      requires Active(State())
      modifies blocks, this`paddleX, this`ballX, this`ballY, this`ballSpeedX, this`ballSpeedY,
               this`paddleSpeed, this`score, this`keys, this`effects, this`isGameRunning
      ensures State() == Tick(old(State()))
    {
      ghost var w := State();
      Integrate();
      Settle();
    }

    /** The paddle step and the ball's move, wall bounces and paddle bounce. */
    method Integrate()
      modifies this`paddleX, this`ballX, this`ballY, this`ballSpeedX, this`ballSpeedY, this`effects
      ensures State() == Integrated(old(State()))
    {
      ghost var w := State();
      MovePaddle();
      MoveBall();
      assert paddleX == SteppedPaddle(w);
      assert Ball(ballX, ballY, ballSpeedX, ballSpeedY) == MovedBall(w);
    }

    /** The loss check and, while the ball is in play, the block scan. */
    method Settle()
      modifies blocks, this`ballSpeedX, this`ballSpeedY, this`paddleSpeed, this`score, this`keys,
               this`effects, this`isGameRunning
      ensures State() == Settled(old(State()))
    {
      if ballY < -1.0 {
        isGameRunning := false;
        effects := effects + [GameOverSound, GameOverMessage];
        return;
      }
      ScanBlocks();
    }

    /** The paddle-control lines at the start of `updateGame`. */
    method MovePaddle()
      modifies this`paddleX
      ensures paddleX == PaddleStep(old(paddleX), paddleSpeed, keys)
    {
      if Held(keys, ArrowLeft) && paddleX > -0.8 {
        paddleX := paddleX - paddleSpeed;
      }
      if Held(keys, ArrowRight) && paddleX < 0.8 {
        paddleX := paddleX + paddleSpeed;
      }
    }

    /** Ball integration, wall reflection and the paddle check of `updateGame`. */
    method MoveBall()
      modifies this`ballX, this`ballY, this`ballSpeedX, this`ballSpeedY, this`effects
      ensures Ball(ballX, ballY, ballSpeedX, ballSpeedY) ==
                Move(Ball(old(ballX), old(ballY), old(ballSpeedX), old(ballSpeedY)), paddleX)
      ensures effects == old(effects) + if OnPaddle(ballX, ballY, paddleX) then [PaddleHitSound] else []
    {
      ballX := ballX + ballSpeedX;
      ballY := ballY + ballSpeedY;

      if ballX > 1.0 || ballX < -1.0 {
        ballSpeedX := -ballSpeedX;
      }
      if ballY > 1.0 {
        ballSpeedY := -ballSpeedY;
      }

      if ballY < PaddleY + 0.05 && ballY > PaddleY - 0.05 &&
         ballX > paddleX - 0.2 && ballX < paddleX + 0.2
      {
        ballSpeedY := -ballSpeedY;
        effects := effects + [PaddleHitSound];
      }
    }

    /** The `forEach` over the blocks at the end of `updateGame`. */
    method ScanBlocks()
      modifies blocks, this`ballSpeedX, this`ballSpeedY, this`paddleSpeed, this`score, this`keys, this`effects
      ensures blocks[..] == Scan(old(blocks[..]), ballX, ballY, old(CurrentProgress())).blocks
      ensures CurrentProgress() == Scan(old(blocks[..]), ballX, ballY, old(CurrentProgress())).progress
    {
      ghost var bs, p0 := blocks[..], CurrentProgress();
      var i := 0;
      while i < blocks.Length
        invariant 0 <= i <= blocks.Length
        invariant forall k :: 0 <= k < i ==> blocks[k] == Strike(bs[k], ballX, ballY)
        invariant forall k :: i <= k < blocks.Length ==> blocks[k] == bs[k]
        invariant CurrentProgress() == Scan(bs[..i], ballX, ballY, p0).progress
      {
        ScanStep(bs, i, ballX, ballY, p0);
        VisitBlock(i);
        i := i + 1;
      }
      assert bs[..blocks.Length] == bs;
    }

    /** The body of that `forEach`, for block `i`: a hit reverses the ball, destroys the block and scores it. */
    method VisitBlock(i: nat)
      requires i < blocks.Length
      modifies blocks, this`ballSpeedX, this`ballSpeedY, this`paddleSpeed, this`score, this`keys, this`effects
      ensures blocks[..] == old(blocks[..])[i := Strike(old(blocks[i]), ballX, ballY)]
      ensures CurrentProgress() ==
                if Struck(old(blocks[i]), ballX, ballY) then OnBlockHit(old(CurrentProgress()))
                else old(CurrentProgress())
    {
      var block := blocks[i];
      if !block.hit &&
         ballX > block.x - 0.1 && ballX < block.x + 0.1 &&
         ballY > block.y - 0.05 && ballY < block.y + 0.05
      {
        ballSpeedY := -ballSpeedY;
        blocks[i] := block.(hit := true);
        UpdateScore(10);
        effects := effects + [BlockHitSound];
      }
    }

    /** `gameLoop`: one tick while running; it asks to be called again exactly when it found the game running. */
    method GameLoop() returns (reschedule: bool)
      requires Valid()
      modifies this, blocks
      ensures blocks == old(blocks)
      ensures reschedule == old(isGameRunning)
      ensures State() == Tick(old(State()))
      ensures Valid()
      ensures old(Consistent(State())) ==> Consistent(State())
    {
      if !isGameRunning {
        return false;
      }
      UpdateGame();
      return true;
    }

    /** `resetGame`. */
    method ResetGame()
      modifies this
      ensures fresh(blocks)
      ensures State() == Reset(old(State()))
      ensures Valid()
    {
      ballX := 0.0;
      ballY := -0.8;
      paddleX := 0.0;
      ballSpeedX := 0.01;
      ballSpeedY := 0.01;
      paddleSpeed := 0.01;
      score := 0;
      gameStarted := false;
      CreateBlocks();
      ClearKeys();
    }

    /** `goToHomePage`, without its panel changes. */
    method GoToHomePage()
      modifies this
      ensures fresh(blocks)
      ensures State() == Reset(old(State()))
      ensures Valid()
    {
      ResetGame();
    }

    /** The Play button: a fresh session, running and waiting for the space key. */
    method Play() returns (reschedule: bool)
      modifies this
      ensures fresh(blocks)
      ensures State() == Reset(old(State()).(running := true))
      ensures Valid() && Consistent(State())
      ensures isGameRunning && !gameStarted && reschedule
    {
      isGameRunning := true;
      gameStarted := false;
      ResetGame();
      reschedule := GameLoop();
    }

    /** The Quit button: back to idle with a reset state. */
    method Quit()
      modifies this
      ensures fresh(blocks)
      ensures State() == Reset(old(State()).(running := false))
      ensures Valid() && Consistent(State())
      ensures !isGameRunning && !gameStarted
    {
      isGameRunning := false;
      GoToHomePage();
    }

    /** The callback 3500 ms after a game over: back home, the running flag untouched. */
    method GameOverTimeout()
      modifies this
      ensures fresh(blocks)
      ensures State() == Reset(old(State()))
      ensures Valid() && Consistent(State())
    {
      GoToHomePage();
    }

    /** A key press: the key becomes held; space starts a running, not yet started game. */
    method KeyDown(key: string)
      modifies this`keys, this`gameStarted
      ensures keys == old(keys)[key := true]
      ensures gameStarted == (old(gameStarted) || (key == Space && isGameRunning))
      ensures old(Valid()) ==> Valid()
      ensures old(Consistent(State())) ==> Consistent(State())
    {
      keys := keys[key := true];
      if key == " " && isGameRunning && !gameStarted {
        gameStarted := true;
      }
    }

    /** A key release. */
    method KeyUp(key: string)
      modifies this`keys
      ensures keys == old(keys)[key := false]
      ensures old(Valid()) ==> Valid()
      ensures old(Consistent(State())) ==> Consistent(State())
    {
      keys := keys[key := false];
    }
  }
}
