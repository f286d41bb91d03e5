/** The difficulty controller's retuning of the AI dead zone after a goal. */
module PongDifficulty {

  function Abs(n: int): nat {
    if n < 0 then -n else n
  }

  /** Upper bound of the AI dead zone: half the paddle height, less 0.75 per ball. */
  function TargetRangeCap(paddleHeight: real, ballCount: nat): real {
    paddleHeight / 2.0 - 0.75 * (ballCount as real)
  }

  /** The new `targetRange`: shrink it by the score difference when the human
      leads or draws, widen it by the difference when the AI leads, then
      raise it to at least 2 and lower it to at most the cap, in that order.
      Both branches amount to subtracting the human's lead. */
  function AdjustedTargetRange(targetRange: real, humanScore: int, aiScore: int,
                               paddleHeight: real, ballCount: nat): (r: real)
    ensures r <= TargetRangeCap(paddleHeight, ballCount)
    ensures TargetRangeCap(paddleHeight, ballCount) >= 2.0 ==> r >= 2.0
    ensures var moved := targetRange - (humanScore - aiScore) as real;
      2.0 <= moved <= TargetRangeCap(paddleHeight, ballCount) ==> r == moved
    ensures var moved := targetRange - (humanScore - aiScore) as real;
      moved > TargetRangeCap(paddleHeight, ballCount) || TargetRangeCap(paddleHeight, ballCount) < 2.0 ==>
        r == TargetRangeCap(paddleHeight, ballCount)
    ensures var moved := targetRange - (humanScore - aiScore) as real;
      moved < 2.0 <= TargetRangeCap(paddleHeight, ballCount) ==> r == 2.0
  {
    var step := Abs(humanScore - aiScore) as real;
    var moved := if humanScore >= aiScore then targetRange - step else targetRange + step;
    var floored := if moved < 2.0 then 2.0 else moved;
    if floored > TargetRangeCap(paddleHeight, ballCount) then
      TargetRangeCap(paddleHeight, ballCount)
    else
      floored
  }

  /** Feedback direction: the larger the human's lead, the narrower (harder)
      the AI's dead zone, all else equal. */
  lemma TargetRangeMonotone(targetRange: real, h1: int, a1: int, h2: int, a2: int,
                            paddleHeight: real, ballCount: nat)
    requires h1 - a1 <= h2 - a2
    ensures AdjustedTargetRange(targetRange, h2, a2, paddleHeight, ballCount)
         <= AdjustedTargetRange(targetRange, h1, a1, paddleHeight, ballCount)
  {
  }

  /** With the game's paddle height and at most seven balls the cap is at
      least 7.25, so the dead zone always ends up inside `[2, cap]`. */
  lemma TargetRangeInWindow(targetRange: real, humanScore: int, aiScore: int, ballCount: nat)
    requires ballCount <= 7
    ensures var r := AdjustedTargetRange(targetRange, humanScore, aiScore, 25.0, ballCount);
      2.0 <= r <= TargetRangeCap(25.0, ballCount)
  {
  }
}
