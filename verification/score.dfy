/** The score: a real accumulator driven by elapsed time, and the best score
    kept in persistent storage as a whole number. */
module Scores {

  /** Points per millisecond of play. */
  const PointsPerMs: real := 0.01

  function Max(a: int, b: int): int { if a >= b then a else b }

  /** The stored best after `setHighScore`: the floor of the score is written
      only when the score beats what is stored. */
  function HighScoreAfter(stored: int, score: real): (r: int)
    ensures r == Max(stored, score.Floor)
    ensures r >= stored
    ensures r != stored ==> r == score.Floor && score > stored as real
  {
    if score > stored as real then score.Floor else stored
  }

  /** Over any sequence of frames with non-negative deltas the score does not
      decrease. */
  function Accumulated(score: real, deltas: seq<real>): (r: real)
    requires forall i :: 0 <= i < |deltas| ==> deltas[i] >= 0.0
    ensures r >= score
    decreases |deltas|
  {
    if deltas == [] then score else Accumulated(score + deltas[0] * PointsPerMs, deltas[1..])
  }

  class Score {
    var score: real
    /** The persisted best score, as the caller reads it from storage (an empty store reads as 0). */
    var storedHighScore: int

    constructor (storedHighScore: int)
      ensures score == 0.0
      ensures this.storedHighScore == storedHighScore
    {
      score := 0.0;
      this.storedHighScore := storedHighScore;
    }

    method Update(frameTimeDelta: real)
      modifies this`score
      ensures score == old(score) + frameTimeDelta * PointsPerMs
      ensures frameTimeDelta >= 0.0 ==> score >= old(score)
    {
      score := score + frameTimeDelta * 0.01;
    }

    method Reset()
      modifies this`score
      ensures score == 0.0
    {
      score := 0.0;
    }

    /** Writes the floor of the score if it beats the stored best; the score
        itself is untouched. */
    method SetHighScore()
      modifies this`storedHighScore
      ensures storedHighScore == HighScoreAfter(old(storedHighScore), score)
      ensures storedHighScore >= old(storedHighScore)
      ensures score <= old(storedHighScore) as real ==> storedHighScore == old(storedHighScore)
    {
      var highScore := storedHighScore;
      if score > highScore as real {
        storedHighScore := score.Floor;
      }
    }

    method GetScore() returns (s: real)
      ensures s == score
    {
      s := score;
    }
  }
}
