/** The computer opponent: choosing which ball to follow among several, and
    steering the paddle towards it outside a dead zone of half-width
    `targetRange`. */
module PongAI {
  import opened PongEntities

  /** Horizontal distance still to cover from the ball to the paddle: `paddle.x - ball.x`. */
  function Gap(paddle: Paddle, ball: Ball): real {
    paddle.body.x - ball.body.x
  }

  /** Index `k` is the ball the AI follows: the first ball, unless some ball
      moving towards the AI (`dx > 0`) is strictly closer than the first one,
      in which case the closest such ball, the earliest on a tie. */
  predicate IsClosestBall(paddle: Paddle, balls: seq<Ball>, k: nat) {
    && k < |balls|
    && (k == 0 || (balls[k].body.dx > 0.0 && Gap(paddle, balls[k]) < Gap(paddle, balls[0])))
    && (forall j :: 0 <= j < |balls| && balls[j].body.dx > 0.0 ==> Gap(paddle, balls[k]) <= Gap(paddle, balls[j]))
    && (forall j :: 0 <= j < k && balls[j].body.dx > 0.0 ==> Gap(paddle, balls[k]) < Gap(paddle, balls[j]))
  }

  /** The selection loop: scan every ball, skip the ones moving away, and
      keep a ball only if it is strictly closer than the best so far, which
      starts as the first ball whatever its direction. */
  method FindClosestBall(paddle: Paddle, balls: seq<Ball>) returns (k: nat)
    requires |balls| > 0
    ensures IsClosestBall(paddle, balls, k)
  {
    k := 0;
    var minDist := Gap(paddle, balls[0]);
    for i := 0 to |balls|
      invariant k < |balls| && minDist == Gap(paddle, balls[k])
      invariant k == 0 || (balls[k].body.dx > 0.0 && minDist < Gap(paddle, balls[0]))
      invariant forall j :: 0 <= j < i && balls[j].body.dx > 0.0 ==> minDist <= Gap(paddle, balls[j])
      invariant forall j :: 0 <= j < k && balls[j].body.dx > 0.0 ==> minDist < Gap(paddle, balls[j])
    {
      if balls[i].body.dx <= 0.0 {
        continue;
      }
      if Gap(paddle, balls[i]) < minDist {
        minDist := Gap(paddle, balls[i]);
        k := i;
      }
    }
  }

  /** The selection rule picks one ball: two indices that both satisfy it are equal. */
  lemma ClosestBallUnique(paddle: Paddle, balls: seq<Ball>, k1: nat, k2: nat)
    requires IsClosestBall(paddle, balls, k1) && IsClosestBall(paddle, balls, k2)
    ensures k1 == k2
  {
  }

  /** When no ball is moving towards the AI, it follows the first ball. */
  lemma ClosestBallDefault(paddle: Paddle, balls: seq<Ball>, k: nat)
    requires IsClosestBall(paddle, balls, k)
    requires forall j :: 0 <= j < |balls| ==> balls[j].body.dx <= 0.0
    ensures k == 0
  {
  }

  /** The vertical direction the AI paddle takes towards `target`. With a
      single ball moving away (`dx < 0`) it holds still; otherwise it moves up
      when the target is more than `targetRange` above it, down when more
      than `targetRange` below it, and holds still inside that dead zone. */
  function AiDirection(paddle: Paddle, target: Ball, ballCount: nat): (dy: real)
    ensures dy == -1.0 || dy == 0.0 || dy == 1.0
    ensures ballCount == 1 && target.body.dx < 0.0 ==> dy == 0.0
    ensures !(ballCount == 1 && target.body.dx < 0.0) && paddle.targetRange >= 0.0 ==>
      && (dy == -1.0 <==> paddle.body.y - paddle.targetRange > target.body.y)
      && (dy == 1.0 <==> paddle.body.y + paddle.targetRange < target.body.y)
    ensures paddle.targetRange >= 0.0 ==>
      && (dy == -1.0 ==> target.body.y < paddle.body.y)
      && (dy == 1.0 ==> target.body.y > paddle.body.y)
  {
    if ballCount == 1 && target.body.dx < 0.0 then
      0.0
    else if paddle.body.y - paddle.targetRange > target.body.y then
      -1.0
    else if paddle.body.y + paddle.targetRange < target.body.y then
      1.0
    else
      0.0
  }
}
