/**
 * Score and difficulty: `updateScore` adds points and, when the new score is
 * exactly one of the thresholds, speeds up the ball and the paddle and
 * releases every held key.
 */
module Difficulty {
  import opened Input
  import opened Effects

  const PointsPerBlock: int := 10
  /** Initial ball speed on each axis, and initial paddle speed. */
  const BaseSpeed: real := 0.01
  /** What each escalation adds to the paddle speed. */
  const PaddleSpeedStep: real := 0.01

  predicate IsThreshold(score: int)
  {
    score == 100 || score == 300 || score == 700
  }

  /** Ball speed increment applied on reaching a threshold: 0.005, 0.006 or 0.0075. */
  function Increment(score: int): (inc: real)
    requires IsThreshold(score)
    ensures 0.005 <= inc <= 0.0075
  {
    if score == 100 then 0.005 else if score == 300 then 0.006 else 0.0075
  }

  /** What reaching `score` adds to the ball speed magnitude. */
  function Gain(score: int): real
  {
    if IsThreshold(score) then Increment(score) else 0.0
  }

  function Abs(v: real): real
  {
    if v < 0.0 then -v else v
  }

  /** `v += (v > 0 ? inc : -inc)`: a nonzero speed keeps its sign and gains `inc` in magnitude. */
  function Boost(v: real, inc: real): (r: real)
    requires inc > 0.0
    ensures v != 0.0 ==> (r > 0.0 <==> v > 0.0) && Abs(r) == Abs(v) + inc
    ensures v == 0.0 ==> r == -inc
  {
    if v > 0.0 then v + inc else v - inc
  }

  /** The part of the game state that `updateScore` reads and writes. */
  datatype Progress = Progress(
    ballSpeedX: real,
    ballSpeedY: real,
    paddleSpeed: real,
    score: int,
    keys: KeyMap,
    effects: seq<Effect>)

  /** The state after `updateScore(points)`. */
  function Award(p: Progress, points: int): (r: Progress)
    ensures r.score == p.score + points
    ensures p.ballSpeedX != 0.0 ==>
              (r.ballSpeedX > 0.0 <==> p.ballSpeedX > 0.0) &&
              Abs(r.ballSpeedX) == Abs(p.ballSpeedX) + Gain(r.score)
    ensures p.ballSpeedY != 0.0 ==>
              (r.ballSpeedY > 0.0 <==> p.ballSpeedY > 0.0) &&
              Abs(r.ballSpeedY) == Abs(p.ballSpeedY) + Gain(r.score)
    ensures r.paddleSpeed == p.paddleSpeed + (if IsThreshold(r.score) then PaddleSpeedStep else 0.0)
    ensures r.keys == if IsThreshold(r.score) then Released(p.keys) else p.keys
    ensures r.effects == p.effects + (if IsThreshold(r.score) then [LevelMessage, DifficultyUpSound] else [])
    ensures !IsThreshold(r.score) ==> r == p.(score := p.score + points)
  {
    var score := p.score + points;
    if IsThreshold(score) then
      var inc := Increment(score);
      Progress(Boost(p.ballSpeedX, inc), Boost(p.ballSpeedY, inc),
               p.paddleSpeed + PaddleSpeedStep, score, Released(p.keys),
               p.effects + [LevelMessage, DifficultyUpSound])
    else
      p.(score := score)
  }

  /** Total ball speed increment earned by the thresholds `score` has reached. */
  function Bonus(score: int): real
  {
    (if score >= 100 then Increment(100) else 0.0) +
    (if score >= 300 then Increment(300) else 0.0) +
    (if score >= 700 then Increment(700) else 0.0)
  }

  /** Number of thresholds `score` has reached. */
  function Levels(score: int): nat
  {
    (if score >= 100 then 1 else 0) +
    (if score >= 300 then 1 else 0) +
    (if score >= 700 then 1 else 0)
  }

  /**
   * Speeds are exactly what the thresholds reached so far have made them:
   * every threshold at or below the score has fired once, none above it has.
   */
  predicate Paced(p: Progress)
  {
    p.score >= 0 && p.score % PointsPerBlock == 0 &&
    Abs(p.ballSpeedX) == BaseSpeed + Bonus(p.score) &&
    Abs(p.ballSpeedY) == BaseSpeed + Bonus(p.score) &&
    p.paddleSpeed == BaseSpeed + PaddleSpeedStep * (Levels(p.score) as real)
  }

  /**
   * Scores move in steps of one block's worth from a multiple of it, so no
   * threshold is stepped over: awarding a block keeps the speeds paced.
   */
  lemma AwardKeepsPace(p: Progress)
    requires Paced(p)
    ensures Paced(Award(p, PointsPerBlock))
  {
    var s := p.score + PointsPerBlock;
    assert s % PointsPerBlock == 0;
    if IsThreshold(s) {
      assert Bonus(s) == Bonus(p.score) + Increment(s);
      assert Levels(s) == Levels(p.score) + 1;
    } else {
      assert Bonus(s) == Bonus(p.score);
      assert Levels(s) == Levels(p.score);
    }
  }
}
