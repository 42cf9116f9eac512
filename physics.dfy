/**
 * One simulation tick (`updateGame`): paddle control, ball integration, wall
 * and paddle reflection, the loss check, and the scan over the blocks.
 */
module Physics {
  import opened Layout
  import opened Input
  import opened Effects
  import opened Difficulty

  const PaddleY: real := -0.9
  /** The paddle steps only while its centre is strictly inside (-PaddleLimit, PaddleLimit). */
  const PaddleLimit: real := 0.8
  const PaddleHalfWidth: real := 0.2
  const PaddleHalfHeight: real := 0.05

  /**
   * Paddle control: a step left when ArrowLeft is held and the paddle is right
   * of -0.8, then a step right when ArrowRight is held and the paddle is left
   * of 0.8. The test precedes the step, so the paddle may end one step past
   * the limit, and never gets further.
   */
  function PaddleStep(x: real, speed: real, keys: KeyMap): (nx: real)
    ensures !Held(keys, ArrowLeft) && !Held(keys, ArrowRight) ==> nx == x
    ensures Held(keys, ArrowLeft) && !Held(keys, ArrowRight) ==>
              nx == if x > -PaddleLimit then x - speed else x
    ensures Held(keys, ArrowRight) && !Held(keys, ArrowLeft) ==>
              nx == if x < PaddleLimit then x + speed else x
    ensures Held(keys, ArrowLeft) && Held(keys, ArrowRight) ==>
              nx == if x <= -PaddleLimit then x + speed
                    else if x - speed < PaddleLimit then x
                    else x - speed
    ensures speed >= 0.0 && -PaddleLimit - speed <= x <= PaddleLimit + speed ==>
              -PaddleLimit - speed <= nx <= PaddleLimit + speed
  {
    var x1 := if Held(keys, ArrowLeft) && x > -PaddleLimit then x - speed else x;
    if Held(keys, ArrowRight) && x1 < PaddleLimit then x1 + speed else x1
  }

  datatype Ball = Ball(x: real, y: real, vx: real, vy: real)

  /** The ball point lies strictly inside the paddle's box. */
  predicate OnPaddle(x: real, y: real, paddleX: real)
  {
    y < PaddleY + PaddleHalfHeight && y > PaddleY - PaddleHalfHeight &&
    x > paddleX - PaddleHalfWidth && x < paddleX + PaddleHalfWidth
  }

  /**
   * Ball integration and reflection: one explicit Euler step, then the
   * horizontal speed reverses beyond a side wall, and the vertical speed
   * reverses above the ceiling and again inside the paddle's box.
   */
  function Move(b: Ball, paddleX: real): (r: Ball)
    ensures r.x == b.x + b.vx && r.y == b.y + b.vy
    ensures Abs(r.vx) == Abs(b.vx) && Abs(r.vy) == Abs(b.vy)
    ensures b.vx != 0.0 ==> (r.vx != b.vx <==> r.x > 1.0 || r.x < -1.0)
    ensures b.vy != 0.0 ==> (r.vy != b.vy <==> r.y > 1.0 || OnPaddle(r.x, r.y, paddleX))
  {
    var x, y := b.x + b.vx, b.y + b.vy;
    var vx := if x > 1.0 || x < -1.0 then -b.vx else b.vx;
    var vy := if y > 1.0 then -b.vy else b.vy;
    Ball(x, y, vx, if OnPaddle(x, y, paddleX) then -vy else vy)
  }

  /** The scan destroys this block: it is intact and contains the ball point. */
  predicate Struck(b: Block, px: real, py: real)
  {
    !b.hit && Contains(b, px, py)
  }

  /** The block after the scan has visited it. */
  function Strike(b: Block, px: real, py: real): (r: Block)
    ensures SameSlot(r, b)
    ensures r.hit == (b.hit || Contains(b, px, py))
    ensures b.hit ==> r == b
  {
    if Struck(b, px, py) then b.(hit := true) else b
  }

  /** Number of blocks of `bs` the scan destroys. */
  function NewHits(bs: seq<Block>, px: real, py: real): (n: nat)
    ensures n <= |bs|
  {
    if bs == [] then 0
    else NewHits(bs[..|bs| - 1], px, py) + (if Struck(bs[|bs| - 1], px, py) then 1 else 0)
  }

  /** A block hit: reverse the vertical speed, score it, play its sound. */
  function OnBlockHit(p: Progress): (r: Progress)
    ensures r.score == p.score + PointsPerBlock
    ensures p.ballSpeedY != 0.0 ==> (r.ballSpeedY > 0.0 <==> p.ballSpeedY < 0.0)
    ensures p.ballSpeedX != 0.0 ==> (r.ballSpeedX > 0.0 <==> p.ballSpeedX > 0.0)
    ensures Abs(r.ballSpeedX) >= Abs(p.ballSpeedX) && Abs(r.ballSpeedY) >= Abs(p.ballSpeedY)
    ensures r.paddleSpeed >= p.paddleSpeed
    ensures r.keys == if IsThreshold(r.score) then Released(p.keys) else p.keys
    ensures |r.effects| > |p.effects| && r.effects[..|p.effects|] == p.effects
    ensures r.effects[|r.effects| - 1] == BlockHitSound
  {
    var q := Award(p.(ballSpeedY := -p.ballSpeedY), PointsPerBlock);
    q.(effects := q.effects + [BlockHitSound])
  }

  datatype Sweep = Sweep(blocks: seq<Block>, progress: Progress)

  /**
   * The scan over the blocks, in order, without stopping at the first hit.
   * Whether a block is destroyed depends only on that block and the ball
   * point; each hit scores exactly one block's worth.
   */
  function Scan(bs: seq<Block>, px: real, py: real, p: Progress): (s: Sweep)
    ensures |s.blocks| == |bs|
    ensures forall k :: 0 <= k < |bs| ==> s.blocks[k] == Strike(bs[k], px, py)
    ensures s.progress.score == p.score + PointsPerBlock * NewHits(bs, px, py)
    decreases |bs|
  {
    if bs == [] then Sweep([], p)
    else
      var s := Scan(bs[..|bs| - 1], px, py, p);
      var b := bs[|bs| - 1];
      if Struck(b, px, py) then Sweep(s.blocks + [b.(hit := true)], OnBlockHit(s.progress))
      else Sweep(s.blocks + [b], s.progress)
  }

  /** Extending the scanned prefix by one block visits that block. */
  lemma ScanStep(bs: seq<Block>, n: nat, px: real, py: real, p: Progress)
    requires n < |bs|
    ensures Scan(bs[..n + 1], px, py, p).progress ==
              if Struck(bs[n], px, py) then OnBlockHit(Scan(bs[..n], px, py, p).progress)
              else Scan(bs[..n], px, py, p).progress
  {
    assert bs[..n + 1][..n] == bs[..n];
  }

  /** The scan destroys exactly the blocks it counts. */
  lemma {:induction false} ScanHitCount(bs: seq<Block>, px: real, py: real, p: Progress)
    ensures HitCount(Scan(bs, px, py, p).blocks) == HitCount(bs) + NewHits(bs, px, py)
  {
    if bs != [] {
      var n := |bs| - 1;
      ScanHitCount(bs[..n], px, py, p);
      var s := Scan(bs, px, py, p).blocks;
      assert s[..n] == Scan(bs[..n], px, py, p).blocks;
    }
  }

  /**
   * Through the scan the horizontal direction is kept, the vertical one
   * reverses once per hit, and neither speed nor the paddle speed shrinks.
   */
  lemma {:induction false} ScanSpeeds(bs: seq<Block>, px: real, py: real, p: Progress)
    requires p.ballSpeedX != 0.0 && p.ballSpeedY != 0.0
    ensures var q := Scan(bs, px, py, p).progress;
      (q.ballSpeedX > 0.0 <==> p.ballSpeedX > 0.0) &&
      (q.ballSpeedY > 0.0 <==> (p.ballSpeedY > 0.0 <==> NewHits(bs, px, py) % 2 == 0)) &&
      Abs(q.ballSpeedX) >= Abs(p.ballSpeedX) &&
      Abs(q.ballSpeedY) >= Abs(p.ballSpeedY) &&
      q.paddleSpeed >= p.paddleSpeed
  {
    if bs != [] {
      var n := |bs| - 1;
      ScanSpeeds(bs[..n], px, py, p);
      var q := Scan(bs[..n], px, py, p).progress;
      if Struck(bs[n], px, py) {
        assert Scan(bs, px, py, p).progress == OnBlockHit(q);
        var h := NewHits(bs[..n], px, py);
        assert NewHits(bs, px, py) == h + 1;
        assert q.ballSpeedY != 0.0 && (OnBlockHit(q).ballSpeedY > 0.0 <==> q.ballSpeedY < 0.0);
        assert (h + 1) % 2 == 0 <==> h % 2 != 0;
      } else {
        assert Scan(bs, px, py, p).progress == q;
        assert NewHits(bs, px, py) == NewHits(bs[..n], px, py);
      }
    }
  }

  /** Starting from paced speeds, the scan keeps them paced. */
  lemma {:induction false} ScanKeepsPace(bs: seq<Block>, px: real, py: real, p: Progress)
    requires Paced(p)
    ensures Paced(Scan(bs, px, py, p).progress)
  {
    if bs != [] {
      var n := |bs| - 1;
      ScanKeepsPace(bs[..n], px, py, p);
      var q := Scan(bs[..n], px, py, p).progress;
      if Struck(bs[n], px, py) {
        AwardKeepsPace(q.(ballSpeedY := -q.ballSpeedY));
      }
    }
  }

  /** A scan over blocks none of which is struck destroys nothing. */
  lemma {:induction false} NoStrikes(bs: seq<Block>, px: real, py: real)
    requires forall k :: 0 <= k < |bs| ==> !Struck(bs[k], px, py)
    ensures NewHits(bs, px, py) == 0
  {
    if bs != [] {
      NoStrikes(bs[..|bs| - 1], px, py);
    }
  }

  /** On the grid's layout, one scan destroys at most one block. */
  lemma {:induction false} AtMostOneStrike(bs: seq<Block>, px: real, py: real)
    requires OnGrid(bs)
    ensures NewHits(bs, px, py) <= 1
  {
    if bs != [] {
      var n := |bs| - 1;
      assert OnGrid(bs[..n]);
      AtMostOneStrike(bs[..n], px, py);
      if Struck(bs[n], px, py) {
        forall k | 0 <= k < n
          ensures !Struck(bs[..n][k], px, py)
        {
          if Contains(bs[k], px, py) {
            SlotsDisjoint(k, n, px, py);
          }
        }
        NoStrikes(bs[..n], px, py);
      }
    }
  }

  /** Everything one tick reads and writes. */
  datatype World = World(
    blocks: seq<Block>,
    paddleX: real,
    ballX: real,
    ballY: real,
    progress: Progress,
    running: bool,
    started: bool)

  /** The simulation advances only while running and started. */
  predicate Active(w: World)
  {
    w.running && w.started
  }

  /** The paddle position after the control step of a tick. */
  function SteppedPaddle(w: World): real
  {
    PaddleStep(w.paddleX, w.progress.paddleSpeed, w.progress.keys)
  }

  /** The ball after integration and the wall and paddle checks of a tick. */
  function MovedBall(w: World): Ball
  {
    Move(Ball(w.ballX, w.ballY, w.progress.ballSpeedX, w.progress.ballSpeedY), SteppedPaddle(w))
  }

  /** The progress after the wall and paddle checks, before the loss check and the scan. */
  function Bounced(w: World): Progress
  {
    var m := MovedBall(w);
    w.progress.(
      ballSpeedX := m.vx, ballSpeedY := m.vy,
      effects := w.progress.effects + (if OnPaddle(m.x, m.y, SteppedPaddle(w)) then [PaddleHitSound] else []))
  }

  /** A running tick's first phase: the paddle step and the ball's move and bounces. */
  function Integrated(w: World): World
  {
    var m := MovedBall(w);
    w.(paddleX := SteppedPaddle(w), ballX := m.x, ballY := m.y, progress := Bounced(w))
  }

  /** A running tick's second phase: game over below the bottom edge, else the block scan. */
  function Settled(v: World): World
  {
    if v.ballY < -1.0 then
      v.(progress := v.progress.(effects := v.progress.effects + [GameOverSound, GameOverMessage]),
         running := false)
    else
      var s := Scan(v.blocks, v.ballX, v.ballY, v.progress);
      v.(blocks := s.blocks, progress := s.progress)
  }

  /**
   * The state after one call of `updateGame`: nothing unless the session is
   * running and started, else the two phases in turn. A tick never starts a
   * session, never restarts a stopped one, and keeps the number of blocks.
   */
  function Tick(w: World): (r: World)
    ensures !Active(w) ==> r == w
    ensures r.started == w.started && (r.running ==> w.running)
    ensures |r.blocks| == |w.blocks|
  {
    if !Active(w) then w else Settled(Integrated(w))
  }

  /**
   * A tick does nothing unless the session is running and started. Otherwise
   * the paddle takes its control step, the ball advances by exactly its
   * velocity, the session stops exactly when the ball is below -1, and each
   * block is destroyed iff the ball is still in play, the block is intact and
   * contains the ball point; a destroyed block stays as it was.
   */
  lemma TickEffect(w: World)
    ensures !Active(w) ==> Tick(w) == w
    ensures Tick(w).started == w.started && |Tick(w).blocks| == |w.blocks|
    ensures Active(w) ==>
              Tick(w).paddleX == PaddleStep(w.paddleX, w.progress.paddleSpeed, w.progress.keys) &&
              Tick(w).ballX == w.ballX + w.progress.ballSpeedX &&
              Tick(w).ballY == w.ballY + w.progress.ballSpeedY &&
              (Tick(w).running <==> Tick(w).ballY >= -1.0)
    ensures forall k :: 0 <= k < |w.blocks| ==>
              Tick(w).blocks[k] ==
                if Active(w) && Tick(w).running then Strike(w.blocks[k], Tick(w).ballX, Tick(w).ballY)
                else w.blocks[k]
  {
  }

  /**
   * When the ball leaves through the bottom, the session stops and nothing
   * the scan would touch changes: no block, no score, no paddle speed, no key.
   */
  lemma TickLoss(w: World)
    requires Active(w) && Tick(w).ballY < -1.0
    ensures !Tick(w).running
    ensures Tick(w).blocks == w.blocks
    ensures Tick(w).progress.score == w.progress.score
    ensures Tick(w).progress.paddleSpeed == w.progress.paddleSpeed
    ensures Tick(w).progress.keys == w.progress.keys
    ensures Tick(w).progress.effects == Bounced(w).effects + [GameOverSound, GameOverMessage]
  {
  }

  /** While the ball stays in play, a tick is the scan from the bounced state. */
  lemma TickInPlay(w: World)
    requires Active(w) && MovedBall(w).y >= -1.0
    ensures var s := Scan(w.blocks, MovedBall(w).x, MovedBall(w).y, Bounced(w));
      Tick(w) == World(s.blocks, SteppedPaddle(w), MovedBall(w).x, MovedBall(w).y, s.progress, true, w.started)
  {
  }

  /** When the ball leaves through the bottom, the tick stops the session before the scan. */
  lemma TickLost(w: World)
    requires Active(w) && MovedBall(w).y < -1.0
    ensures Tick(w) == World(w.blocks, SteppedPaddle(w), MovedBall(w).x, MovedBall(w).y,
                             Bounced(w).(effects := Bounced(w).effects + [GameOverSound, GameOverMessage]),
                             false, w.started)
  {
  }

  /**
   * The structural invariant: the grid keeps its layout, the paddle is never
   * more than one step past +-0.8, and no speed drops below its start value.
   */
  predicate WellFormed(w: World)
  {
    |w.blocks| == Rows * Cols && OnGrid(w.blocks) &&
    w.progress.paddleSpeed >= BaseSpeed &&
    -PaddleLimit - w.progress.paddleSpeed <= w.paddleX <= PaddleLimit + w.progress.paddleSpeed &&
    Abs(w.progress.ballSpeedX) >= BaseSpeed && Abs(w.progress.ballSpeedY) >= BaseSpeed
  }

  /**
   * The session invariant: the score is one block's worth per destroyed
   * block, and the speeds are those its thresholds have earned.
   */
  predicate Consistent(w: World)
  {
    WellFormed(w) &&
    w.progress.score == PointsPerBlock * HitCount(w.blocks) &&
    Paced(w.progress)
  }

  lemma TickKeepsWellFormed(w: World)
    requires WellFormed(w)
    ensures WellFormed(Tick(w))
  {
    if Active(w) {
      var m := MovedBall(w);
      if m.y < -1.0 {
        TickLost(w);
      } else {
        TickInPlay(w);
        ScanSpeeds(w.blocks, m.x, m.y, Bounced(w));
      }
    }
  }

  /**
   * Each tick adds to the score exactly one block's worth per block it
   * destroys, and destroys at most one block.
   */
  lemma TickScores(w: World)
    requires WellFormed(w)
    ensures HitCount(w.blocks) <= HitCount(Tick(w).blocks) <= HitCount(w.blocks) + 1
    ensures w.progress.score <= Tick(w).progress.score
    ensures Tick(w).progress.score ==
              w.progress.score + PointsPerBlock * (HitCount(Tick(w).blocks) - HitCount(w.blocks))
  {
    if Active(w) {
      var m := MovedBall(w);
      if m.y < -1.0 {
        TickLost(w);
      } else {
        TickInPlay(w);
        ScanHitCount(w.blocks, m.x, m.y, Bounced(w));
        AtMostOneStrike(w.blocks, m.x, m.y);
      }
    }
  }

  /**
   * While the ball stays in play, the tick reverses the vertical direction
   * left by the wall and paddle checks exactly when it destroys a block.
   */
  lemma TickBlockBounce(w: World)
    requires WellFormed(w) && Active(w) && MovedBall(w).y >= -1.0
    ensures Tick(w).progress.ballSpeedY > 0.0 <==>
              (MovedBall(w).vy > 0.0 <==> HitCount(Tick(w).blocks) == HitCount(w.blocks))
  {
    var m, p := MovedBall(w), Bounced(w);
    TickInPlay(w);
    ScanHitCount(w.blocks, m.x, m.y, p);
    AtMostOneStrike(w.blocks, m.x, m.y);
    assert p.ballSpeedY == m.vy && Abs(m.vx) >= BaseSpeed && Abs(m.vy) >= BaseSpeed;
    ScanSpeeds(w.blocks, m.x, m.y, p);
    var n := NewHits(w.blocks, m.x, m.y);
    assert n == 0 || n == 1;
  }

  /** Within a session the score stays one block's worth per destroyed block, and the speeds stay paced. */
  lemma TickKeepsConsistent(w: World)
    requires Consistent(w)
    ensures Consistent(Tick(w))
  {
    TickKeepsWellFormed(w);
    TickScores(w);
    if Active(w) {
      var m := MovedBall(w);
      if m.y < -1.0 {
        TickLost(w);
      } else {
        TickInPlay(w);
        ScanKeepsPace(w.blocks, m.x, m.y, Bounced(w));
      }
    }
  }
}
