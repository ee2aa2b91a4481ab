/** Scoring of a round (apps/guess/src/lib/scoring.ts). */
module Scoring {

  const SCORE_CURVE: seq<int> := [100, 75, 55, 35, 20]
  const WRONG_GUESS_PENALTY := 10
  const MAX_WRONG_GUESSES := 3
  const MAX_HINTS_REVEALED := 5

  datatype Score = Points(points: int) | RangeError

  function BaseScoreForHints(hints: int): Score {
    if hints < 1 || hints > MAX_HINTS_REVEALED then RangeError
    else Points(SCORE_CURVE[hints - 1])
  }

  function NetScoreForRound(hints: int, wrong: int): Score {
    if wrong < 0 then RangeError
    else
      match BaseScoreForHints(hints)
      case RangeError => RangeError
      case Points(base) =>
        var net := base - wrong * WRONG_GUESS_PENALTY;
        Points(if net < 0 then 0 else net)
  }

  predicate IsRoundExhausted(wrong: int) {
    wrong >= MAX_WRONG_GUESSES
  }

  /** Before a round is exhausted the floor at 0 is never reached. */
  lemma FloorIsNeverReached(hints: int, wrong: int)
    requires 1 <= hints <= MAX_HINTS_REVEALED && 0 <= wrong && !IsRoundExhausted(wrong)
    ensures NetScoreForRound(hints, wrong) == Points(SCORE_CURVE[hints - 1] - 10 * wrong)
    ensures 0 <= NetScoreForRound(hints, wrong).points <= 100
  {
    assert SCORE_CURVE[hints - 1] >= 20;
  }

  /** No more hints and no more wrong guesses never score less, and score the same only if both are the same. */
  lemma BetterRoundScoresMore(hints: int, wrong: int, moreHints: int, moreWrong: int)
    requires 1 <= hints <= moreHints <= MAX_HINTS_REVEALED && 0 <= wrong <= moreWrong && !IsRoundExhausted(moreWrong)
    ensures NetScoreForRound(hints, wrong).points >= NetScoreForRound(moreHints, moreWrong).points
    ensures NetScoreForRound(hints, wrong) == NetScoreForRound(moreHints, moreWrong)
       <==> hints == moreHints && wrong == moreWrong
  {
    FloorIsNeverReached(hints, wrong);
    FloorIsNeverReached(moreHints, moreWrong);
    CurveFalls(hints - 1, moreHints - 1);
  }

  lemma {:induction false} CurveFalls(i: int, j: int)
    requires 0 <= i <= j < |SCORE_CURVE|
    ensures i < j ==> SCORE_CURVE[j] < SCORE_CURVE[i]
    decreases j
  {
    if i < j {
      CurveFalls(i, j - 1);
    }
  }
}
