/** The game world and its per-frame steps: serving, round reset, paddle
    and ball updates, scoring, and the difficulty controller that adds balls
    and retunes the AI after every goal. */
module PongWorld {
  import opened PongEntities
  import opened PongPhysics
  import opened PongAI
  import opened PongDifficulty

  /** Player 0 is the human (left paddle), player 1 the computer (right paddle). */
  type PlayerIndex = i: int | 0 <= i < 2

  // Starting positions, from the canvas size
  function HumanStartX(): real { 0.0 + PaddleWidth }
  function AiStartX(canvasWidth: real): real { canvasWidth - PaddleWidth * 2.0 }
  function PaddleStartY(canvasHeight: real): real { canvasHeight / 2.0 - PaddleHeight / 2.0 }
  function BallStartX(canvasWidth: real): real { canvasWidth / 2.0 - BallWidth / 2.0 }
  function BallStartY(canvasHeight: real): real { canvasHeight / 2.0 - BallHeight / 2.0 }

  /** A paddle with the game's dimensions, speed and start, moving only vertically. */
  predicate PaddleShaped(p: Paddle, startX: real, startY: real, speed: real) {
    && p.body.width == PaddleWidth && p.body.height == PaddleHeight
    && p.body.speed == speed
    && p.body.dx == 0.0
    && (p.body.dy == -1.0 || p.body.dy == 0.0 || p.body.dy == 1.0)
    && p.body.startX == startX && p.body.startY == startY
  }

  /** The ball at position `index`: the game's dimensions and start, a speed
      within the range damping keeps it in, and the `index`-th colour taken
      from the end of the palette. */
  predicate BallShaped(b: Ball, index: nat, startX: real, startY: real) {
    && b.body.width == BallWidth && b.body.height == BallHeight
    && b.body.startX == startX && b.body.startY == startY
    && MinBallSpeed <= b.body.speed <= BallSpeed
    && b.color as int == PaletteSize - 1 - index
  }

  /** Exactly two paddles: the human's on the left, the AI's on the right,
      whose dead zone is at least 2 wide on each side. */
  predicate PaddlesShaped(paddles: seq<Paddle>, canvasWidth: real, canvasHeight: real) {
    && |paddles| == 2
    && PaddleShaped(paddles[0], HumanStartX(), PaddleStartY(canvasHeight), PcSpeed)
    && PaddleShaped(paddles[1], AiStartX(canvasWidth), PaddleStartY(canvasHeight), AiSpeed)
    && paddles[1].targetRange >= 2.0
  }

  /** Between one and seven balls, one palette colour used per ball. */
  predicate BallsShaped(balls: seq<Ball>, paletteLeft: nat, canvasWidth: real, canvasHeight: real) {
    && 1 <= |balls| <= MaxNumberOfBalls
    && |balls| + paletteLeft == PaletteSize
    && forall j :: 0 <= j < |balls| ==> BallShaped(balls[j], j, BallStartX(canvasWidth), BallStartY(canvasHeight))
  }

  /** Number of balls among the first `n` of `bs` that are fast enough to be
      damped (each of them consumes one random draw when speeds are adjusted). */
  function FastBefore(bs: seq<Ball>, n: nat): (count: nat)
    requires n <= |bs|
    ensures count <= n
  {
    if n == 0 then 0
    else FastBefore(bs, n - 1) + (if bs[n - 1].body.speed > SpeedLimit then 1 else 0)
  }

  /** Damping uses no draw exactly when no ball is fast, and one draw per
      ball exactly when every ball is fast. */
  lemma {:induction false} FastBeforeExtremes(bs: seq<Ball>, n: nat)
    requires n <= |bs|
    ensures FastBefore(bs, n) == 0 <==> forall k :: 0 <= k < n ==> bs[k].body.speed <= SpeedLimit
    ensures FastBefore(bs, n) == n <==> forall k :: 0 <= k < n ==> bs[k].body.speed > SpeedLimit
  {
    if n > 0 {
      FastBeforeExtremes(bs, n - 1);
    }
  }

  /** Palette accounting: every ball has its own colour, each one already
      popped from the palette, and while there is room for another ball the
      palette still has a colour to give it. */
  lemma PaletteAccounting(balls: seq<Ball>, paletteLeft: nat, canvasWidth: real, canvasHeight: real)
    requires BallsShaped(balls, paletteLeft, canvasWidth, canvasHeight)
    ensures forall i, j :: 0 <= i < j < |balls| ==> balls[i].color != balls[j].color
    ensures forall j :: 0 <= j < |balls| ==> paletteLeft <= balls[j].color < PaletteSize
    ensures |balls| < MaxNumberOfBalls <==> paletteLeft > 0
  {
    forall i, j | 0 <= i < j < |balls|
      ensures balls[i].color != balls[j].color
    {
      assert BallShaped(balls[i], i, BallStartX(canvasWidth), BallStartY(canvasHeight));
      assert BallShaped(balls[j], j, BallStartX(canvasWidth), BallStartY(canvasHeight));
    }
  }

  /** Damping every ball keeps the ball invariant: sizes, starts and colours
      are untouched and speeds stay within `[MinBallSpeed, BallSpeed]`. */
  lemma DampingKeepsShape(before: seq<Ball>, after: seq<Ball>, r0: nat, dice: nat -> Draw,
                          paletteLeft: nat, canvasWidth: real, canvasHeight: real)
    requires BallsShaped(before, paletteLeft, canvasWidth, canvasHeight)
    requires |after| == |before|
    requires forall j {:trigger after[j]} :: 0 <= j < |before| ==>
      after[j] == before[j].(body := AdjustBallSpeed(before[j].body, dice(r0 + FastBefore(before, j))))
    ensures BallsShaped(after, paletteLeft, canvasWidth, canvasHeight)
  {
    forall j | 0 <= j < |after|
      ensures BallShaped(after[j], j, BallStartX(canvasWidth), BallStartY(canvasHeight))
    {
      assert BallShaped(before[j], j, BallStartX(canvasWidth), BallStartY(canvasHeight));
    }
  }

  class World {
    /** Canvas size. */
    const width: real
    const height: real
    /** `dice(n)` is the n-th value of `floor(random() * 3)` the game draws. */
    const dice: nat -> Draw
    /** `cosSin(offset)`: cosine and sine of `offset * pi / 5`. */
    const cosSin: real -> (real, real)

    /** Number of random draws taken so far. */
    var rolls: nat
    /** `paddles[0]` is the human's, `paddles[1]` the AI's. */
    var paddles: seq<Paddle>
    var balls: seq<Ball>
    var humanScore: nat
    var aiScore: nat
    /** Colours left in the palette. */
    var paletteLeft: nat

    ghost predicate Valid()
      reads this
    {
      && width > 0.0 && height >= PaddleHeight
      && PaddlesShaped(paddles, width, height)
      && BallsShaped(balls, paletteLeft, width, height)
    }

    /** Every paddle and every ball stands at its starting position. */
    ghost predicate AllAtStart()
      reads this
    {
      && (forall s :: 0 <= s < |paddles| ==> AtStart(paddles[s].body))
      && (forall j :: 0 <= j < |balls| ==> AtStart(balls[j].body))
    }

    constructor (width: real, height: real, dice: nat -> Draw, cosSin: real -> (real, real))
      requires width > 0.0 && height >= PaddleHeight
      ensures this.width == width && this.height == height
      ensures this.dice == dice && this.cosSin == cosSin
      ensures Valid() && AllAtStart()
      ensures humanScore == 0 && aiScore == 0
      ensures |balls| == 1 && paletteLeft == PaletteSize - 1 && rolls == 2
      ensures paddles[1].targetRange == PaddleHeight
      ensures paddles[0].body.dy == 0.0 && paddles[1].body.dy == 0.0
      ensures balls[0].body.speed == BallSpeed
      ensures balls[0].body == RandomizeDirection(balls[0].body, dice(0), dice(1))
    {
      this.width := width;
      this.height := height;
      this.dice := dice;
      this.cosSin := cosSin;
      rolls := 0;
      new;
      Restart();
    }

    /** Take the next random draw. */
    method Roll() returns (d: Draw)
      modifies this`rolls
      ensures d == dice(old(rolls)) && rolls == old(rolls) + 1
    {
      d := dice(rolls);
      rolls := rolls + 1;
    }

    /** Pop the last colour of the palette; its index is the new palette length. */
    method GetNextBallColor() returns (color: nat)
      requires paletteLeft > 0
      modifies this`paletteLeft
      ensures paletteLeft == old(paletteLeft) - 1
      ensures color == paletteLeft
    {
      paletteLeft := paletteLeft - 1;
      color := paletteLeft;
    }

    /** Full re-initialisation: a fresh palette, two new paddles, both scores
        0, one ball in the centre with the palette's last colour, then a
        round reset that serves it. */
    method Restart()
      requires width > 0.0 && height >= PaddleHeight
      modifies this`paddles, this`balls, this`humanScore, this`aiScore, this`paletteLeft, this`rolls
      ensures Valid() && AllAtStart()
      ensures humanScore == 0 && aiScore == 0
      ensures |balls| == 1 && paletteLeft == PaletteSize - 1
      ensures paddles[1].targetRange == PaddleHeight
      ensures paddles[0].body.dy == 0.0 && paddles[1].body.dy == 0.0
      ensures balls[0].body.speed == BallSpeed
      ensures balls[0].body == RandomizeDirection(balls[0].body, dice(old(rolls)), dice(old(rolls) + 1))
      ensures rolls == old(rolls) + 2
    {
      paletteLeft := PaletteSize;
      paddles := [NewPaddle(HumanStartX(), PaddleStartY(height), PaddleWidth, PaddleHeight, PcSpeed),
                  NewPaddle(AiStartX(width), PaddleStartY(height), PaddleWidth, PaddleHeight, AiSpeed)];
      humanScore, aiScore := 0, 0;
      var color := GetNextBallColor();
      balls := [NewBall(BallStartX(width), BallStartY(height), BallWidth, BallHeight, color, BallSpeed)];
      Reset();
    }

    /** Round reset: every paddle and ball back to its start, then a new
        serve direction for every ball, two draws per ball in order. */
    method Reset()
      requires Valid()
      modifies this`paddles, this`balls, this`rolls
      ensures Valid() && AllAtStart()
      ensures |balls| == |old(balls)|
      ensures forall s :: 0 <= s < 2 ==> paddles[s] == old(paddles[s]).(body := ResetObject(old(paddles[s]).body))
      ensures forall j :: 0 <= j < |balls| ==>
        balls[j] == old(balls[j]).(body := RandomizeDirection(ResetObject(old(balls[j]).body),
                                                              dice(old(rolls) + 2 * j), dice(old(rolls) + 2 * j + 1)))
      ensures rolls == old(rolls) + 2 * |balls|
    {
      ResetPaddles();
      ResetBallPositions();
      RandomizeBalls();
      forall j | 0 <= j < |balls|
        ensures BallShaped(balls[j], j, BallStartX(width), BallStartY(height)) && AtStart(balls[j].body)
      {
        assert BallShaped(old(balls[j]), j, BallStartX(width), BallStartY(height));
      }
    }

    /** Every paddle back to its starting position. */
    method ResetPaddles()
      requires |paddles| == 2
      modifies this`paddles
      ensures |paddles| == 2
      ensures forall s :: 0 <= s < 2 ==> paddles[s] == old(paddles[s]).(body := ResetObject(old(paddles[s]).body))
    {
      for s := 0 to |paddles|
        invariant |paddles| == 2
        invariant forall t :: 0 <= t < s ==> paddles[t] == old(paddles[t]).(body := ResetObject(old(paddles[t]).body))
        invariant forall t :: s <= t < 2 ==> paddles[t] == old(paddles[t])
      {
        paddles := paddles[s := paddles[s].(body := ResetObject(paddles[s].body))];
      }
    }

    /** Every ball back to its starting position. */
    method ResetBallPositions()
      modifies this`balls
      ensures |balls| == |old(balls)|
      ensures forall j :: 0 <= j < |balls| ==> balls[j] == old(balls[j]).(body := ResetObject(old(balls[j]).body))
    {
      for j := 0 to |balls|
        invariant |balls| == |old(balls)|
        invariant forall k :: 0 <= k < j ==> balls[k] == old(balls[k]).(body := ResetObject(old(balls[k]).body))
        invariant forall k :: j <= k < |balls| ==> balls[k] == old(balls[k])
      {
        balls := balls[j := balls[j].(body := ResetObject(balls[j].body))];
      }
    }

    /** A new serve direction for every ball, in order, from two draws each. */
    method RandomizeBalls()
      modifies this`balls, this`rolls
      ensures |balls| == |old(balls)|
      ensures forall j {:trigger balls[j]} :: 0 <= j < |balls| ==>
        balls[j] == old(balls[j]).(body := RandomizeDirection(old(balls[j]).body, dice(old(rolls) + 2 * j), dice(old(rolls) + 2 * j + 1)))
      ensures rolls == old(rolls) + 2 * |balls|
    {
      for j := 0 to |balls|
        invariant |balls| == |old(balls)|
        invariant rolls == old(rolls) + 2 * j
        invariant forall k {:trigger balls[k]} :: 0 <= k < j ==>
          balls[k] == old(balls[k]).(body := RandomizeDirection(old(balls[k]).body, dice(old(rolls) + 2 * k), dice(old(rolls) + 2 * k + 1)))
        invariant forall k :: j <= k < |balls| ==> balls[k] == old(balls[k])
      {
        var r1 := Roll();
        var r2 := Roll();
        balls := balls[j := balls[j].(body := RandomizeDirection(balls[j].body, r1, r2))];
      }
    }

    /** A goal for `player`: its score goes up by one, the other's does not change. */
    method UpdateScore(player: PlayerIndex)
      modifies this`humanScore, this`aiScore
      ensures player == 0 ==> humanScore == old(humanScore) + 1 && aiScore == old(aiScore)
      ensures player == 1 ==> aiScore == old(aiScore) + 1 && humanScore == old(humanScore)
    {
      if player == 0 {
        humanScore := humanScore + 1;
      } else {
        aiScore := aiScore + 1;
      }
    }

    /** Below the maximum, append a centred ball with the next palette colour
        and the base speed, then pass every ball (the new one included)
        through speed damping. At the maximum nothing happens. */
    method AddBall()
      requires Valid()
      modifies this`balls, this`paletteLeft, this`rolls
      ensures Valid()
      ensures old(|balls|) >= MaxNumberOfBalls ==>
        balls == old(balls) && paletteLeft == old(paletteLeft) && rolls == old(rolls)
      ensures old(|balls|) < MaxNumberOfBalls ==>
        var grown := old(balls) + [NewBall(BallStartX(width), BallStartY(height), BallWidth, BallHeight,
                                           old(paletteLeft) - 1, BallSpeed)];
        && |balls| == |grown|
        && paletteLeft == old(paletteLeft) - 1
        && rolls == old(rolls) + FastBefore(grown, |grown|)
        && forall j {:trigger balls[j]} :: 0 <= j < |grown| ==>
             balls[j] == grown[j].(body := AdjustBallSpeed(grown[j].body, dice(old(rolls) + FastBefore(grown, j))))
    {
      if |balls| < MaxNumberOfBalls {
        var color := GetNextBallColor();
        balls := balls + [NewBall(BallStartX(width), BallStartY(height), BallWidth, BallHeight, color, BallSpeed)];
        ghost var grown := balls;
        assert BallsShaped(grown, paletteLeft, width, height) by {
          assert BallShaped(grown[|grown| - 1], |grown| - 1, BallStartX(width), BallStartY(height));
        }
        AdjustBallSpeeds();
        DampingKeepsShape(grown, balls, old(rolls), dice, paletteLeft, width, height);
      }
    }

    /** Every ball through speed damping, in order; a draw is taken only for
        each ball that is fast enough to be damped. */
    method AdjustBallSpeeds()
      modifies this`balls, this`rolls
      ensures |balls| == |old(balls)|
      ensures rolls == old(rolls) + FastBefore(old(balls), |balls|)
      ensures forall j {:trigger balls[j]} :: 0 <= j < |balls| ==>
        balls[j] == old(balls[j]).(body := AdjustBallSpeed(old(balls[j]).body, dice(old(rolls) + FastBefore(old(balls), j))))
    {
      ghost var before := balls;
      ghost var r0 := rolls;
      for j := 0 to |balls|
        invariant |balls| == |before|
        invariant rolls == r0 + FastBefore(before, j)
        invariant forall k :: j <= k < |balls| ==> balls[k] == before[k]
        invariant forall k {:trigger balls[k]} :: 0 <= k < j ==>
          balls[k] == before[k].(body := AdjustBallSpeed(before[k].body, dice(r0 + FastBefore(before, k))))
      {
        if balls[j].body.speed > SpeedLimit {
          var r := Roll();
          balls := balls[j := balls[j].(body := AdjustBallSpeed(balls[j].body, r))];
        }
      }
    }

    /** After a goal: on an even total score try to add a ball, then move the
        AI's dead zone by the score difference and clamp it into
        `[2, height/2 - 0.75 * ballCount]`, counting any ball just added. */
    method AdjustDifficulty()
      requires Valid()
      modifies this`balls, this`paletteLeft, this`rolls, this`paddles
      ensures Valid()
      ensures |balls| == if (humanScore + aiScore) % 2 == 0 && old(|balls|) < MaxNumberOfBalls
                         then old(|balls|) + 1 else old(|balls|)
      ensures (humanScore + aiScore) % 2 != 0 || old(|balls|) >= MaxNumberOfBalls ==>
        balls == old(balls) && paletteLeft == old(paletteLeft) && rolls == old(rolls)
      ensures (humanScore + aiScore) % 2 == 0 && old(|balls|) < MaxNumberOfBalls ==>
        var grown := old(balls) + [NewBall(BallStartX(width), BallStartY(height), BallWidth, BallHeight,
                                           old(paletteLeft) - 1, BallSpeed)];
        && |balls| == |grown|
        && paletteLeft == old(paletteLeft) - 1
        && rolls == old(rolls) + FastBefore(grown, |grown|)
        && forall j {:trigger balls[j]} :: 0 <= j < |grown| ==>
             balls[j] == grown[j].(body := AdjustBallSpeed(grown[j].body, dice(old(rolls) + FastBefore(grown, j))))
      ensures paddles == old(paddles)[1 := old(paddles[1]).(targetRange :=
        AdjustedTargetRange(old(paddles[1]).targetRange, humanScore, aiScore, old(paddles[1]).body.height, |balls|))]
      ensures 2.0 <= paddles[1].targetRange <= TargetRangeCap(PaddleHeight, |balls|)
    {
      if (humanScore + aiScore) % 2 == 0 {
        AddBall();
      }
      var targetRange := paddles[1].targetRange;
      if humanScore >= aiScore {
        targetRange := targetRange - 1.0 * Abs(humanScore - aiScore) as real;
      } else {
        targetRange := targetRange + 1.0 * Abs(humanScore - aiScore) as real;
      }
      if targetRange < 2.0 {
        targetRange := 2.0;
      }
      if targetRange > paddles[1].body.height / 2.0 - 0.75 * (|balls| as real) {
        targetRange := paddles[1].body.height / 2.0 - 0.75 * (|balls| as real);
      }
      assert targetRange == AdjustedTargetRange(old(paddles[1]).targetRange, humanScore, aiScore,
                                                old(paddles[1]).body.height, |balls|);
      paddles := paddles[1 := paddles[1].(targetRange := targetRange)];
      TargetRangeInWindow(old(paddles[1]).targetRange, humanScore, aiScore, |balls|);
    }

    /** Paddle `s` against every ball, with no early exit: each overlapping
        ball gets the hit velocity, every other ball is untouched. */
    method CheckPaddleCollision(s: PlayerIndex)
      requires Valid()
      modifies this`balls
      ensures Valid()
      ensures |balls| == |old(balls)|
      ensures forall j :: 0 <= j < |balls| ==> balls[j] == PaddleHit(paddles[s].body, old(balls[j]), width, cosSin)
    {
      for i := 0 to |balls|
        invariant Valid() && |balls| == |old(balls)|
        invariant forall j :: 0 <= j < i ==> balls[j] == PaddleHit(paddles[s].body, old(balls[j]), width, cosSin)
        invariant forall j :: i <= j < |balls| ==> balls[j] == old(balls[j])
      {
        balls := balls[i := PaddleHit(paddles[s].body, balls[i], width, cosSin)];
      }
    }

    /** The AI picks its target ball and sets its paddle's direction. */
    method UpdateAIPosition()
      requires Valid()
      modifies this`paddles
      ensures Valid()
      ensures paddles[0] == old(paddles[0])
      ensures exists k: nat :: IsClosestBall(old(paddles[1]), balls, k) &&
                             paddles[1] == old(paddles[1]).(body := old(paddles[1]).body.(dy := AiDirection(old(paddles[1]), balls[k], |balls|)))
      ensures |balls| == 1 && balls[0].body.dx < 0.0 ==> paddles[1].body.dy == 0.0
    {
      var k := FindClosestBall(paddles[1], balls);
      var dy := AiDirection(paddles[1], balls[k], |balls|);
      paddles := paddles[1 := paddles[1].(body := paddles[1].body.(dy := dy))];
    }

    /** One paddle's turn within a frame: clamped to the court, checked
        against every ball, then moved one step. */
    method UpdatePaddle(s: PlayerIndex)
      requires Valid()
      modifies this`paddles, this`balls
      ensures Valid()
      ensures |balls| == |old(balls)|
      ensures paddles == old(paddles)[s := old(paddles[s]).(body :=
        UpdateMovement(CheckPaddleWallCollision(old(paddles[s]).body, height)))]
      ensures -paddles[s].body.speed <= paddles[s].body.y <= height - PaddleHeight + paddles[s].body.speed
      ensures forall j :: 0 <= j < |balls| ==>
        balls[j] == PaddleHit(CheckPaddleWallCollision(old(paddles[s]).body, height), old(balls[j]), width, cosSin)
      ensures paddles[1 - s] == old(paddles[1 - s])
      ensures forall t :: 0 <= t < 2 ==> paddles[t].body.x == old(paddles[t]).body.x
      ensures forall j :: 0 <= j < |balls| ==>
        balls[j].body.x == old(balls[j]).body.x && balls[j].body.y == old(balls[j]).body.y
    {
      paddles := paddles[s := paddles[s].(body := CheckPaddleWallCollision(paddles[s].body, height))];
      CheckPaddleCollision(s);
      paddles := paddles[s := paddles[s].(body := UpdateMovement(paddles[s].body))];
    }

    /** The paddle half of a frame: the human's direction comes in as
        `humanDy`, the AI decides its own; then each paddle in turn is
        clamped to the court, checked against every ball, and moved. */
    method UpdatePaddles(humanDy: Dir)
      requires Valid()
      modifies this`paddles, this`balls
      ensures Valid()
      ensures |balls| == |old(balls)|
      ensures paddles[0].body.dy == humanDy as real
      ensures paddles[0].body.x == old(paddles[0]).body.x && paddles[1].body.x == old(paddles[1]).body.x
      ensures forall s :: 0 <= s < 2 ==>
        -paddles[s].body.speed <= paddles[s].body.y <= height - PaddleHeight + paddles[s].body.speed
      ensures forall j :: 0 <= j < |balls| ==>
        balls[j].body.x == old(balls[j]).body.x && balls[j].body.y == old(balls[j]).body.y
    {
      paddles := paddles[0 := paddles[0].(body := paddles[0].body.(dy := humanDy as real))];
      UpdateAIPosition();
      for s := 0 to |paddles|
        invariant Valid() && |balls| == |old(balls)|
        invariant paddles[0].body.dy == humanDy as real
        invariant paddles[0].body.x == old(paddles[0]).body.x && paddles[1].body.x == old(paddles[1]).body.x
        invariant forall t :: 0 <= t < s ==>
          -paddles[t].body.speed <= paddles[t].body.y <= height - PaddleHeight + paddles[t].body.speed
        invariant forall j :: 0 <= j < |balls| ==>
          balls[j].body.x == old(balls[j]).body.x && balls[j].body.y == old(balls[j]).body.y
      {
        UpdatePaddle(s);
      }
    }

    /** One pass of the ball loop for ball `i`: wall bounce, move, and on a
        goal score it for the player on the other side, retune the
        difficulty and reset the round. */
    method UpdateBall(i: nat)
      requires Valid() && i < |balls|
      modifies this`balls, this`paddles, this`rolls, this`paletteLeft, this`humanScore, this`aiScore
      ensures Valid()
      ensures old(|balls|) <= |balls|
      ensures var b := UpdateMovement(CheckBallWallCollision(old(balls[i]).body, height));
        && (b.x > width ==> humanScore == old(humanScore) + 1 && aiScore == old(aiScore) && AllAtStart())
        && (b.x < 0.0 ==> aiScore == old(aiScore) + 1 && humanScore == old(humanScore) && AllAtStart())
        && (b.x > width || b.x < 0.0 ==>
              && |balls| == (if (humanScore + aiScore) % 2 == 0 && old(|balls|) < MaxNumberOfBalls
                             then old(|balls|) + 1 else old(|balls|))
              && paddles[1].targetRange ==
                   AdjustedTargetRange(old(paddles[1]).targetRange, humanScore, aiScore, PaddleHeight, |balls|)
              && 2.0 <= paddles[1].targetRange <= TargetRangeCap(PaddleHeight, |balls|)
              && (forall s :: 0 <= s < 2 ==> paddles[s].body == ResetObject(old(paddles[s]).body))
              && (forall j :: 0 <= j < |balls| ==>
                    (balls[j].body.dx == -1.0 || balls[j].body.dx == 1.0) && -1.0 <= balls[j].body.dy <= 1.0)
              && old(rolls) + 2 * |balls| <= rolls)
        && (0.0 <= b.x <= width ==>
              && balls == old(balls)[i := old(balls[i]).(body := b)]
              && paddles == old(paddles) && rolls == old(rolls) && paletteLeft == old(paletteLeft)
              && humanScore == old(humanScore) && aiScore == old(aiScore))
    {
      balls := balls[i := balls[i].(body := CheckBallWallCollision(balls[i].body, height))];
      balls := balls[i := balls[i].(body := UpdateMovement(balls[i].body))];
      if CheckBallOutOfBounds(balls[i].body, width) && balls[i].body.x > width {
        ScoreGoal(0);
      } else if CheckBallOutOfBounds(balls[i].body, width) && balls[i].body.x < 0.0 {
        ScoreGoal(1);
      }
    }

    /** What follows a goal for `player`: the score, the difficulty
        controller (a possible new ball and the retuned dead zone), then a
        round reset. */
    method ScoreGoal(player: PlayerIndex)
      requires Valid()
      modifies this`balls, this`paddles, this`rolls, this`paletteLeft, this`humanScore, this`aiScore
      ensures Valid() && AllAtStart()
      ensures player == 0 ==> humanScore == old(humanScore) + 1 && aiScore == old(aiScore)
      ensures player == 1 ==> aiScore == old(aiScore) + 1 && humanScore == old(humanScore)
      ensures |balls| == (if (humanScore + aiScore) % 2 == 0 && old(|balls|) < MaxNumberOfBalls
                          then old(|balls|) + 1 else old(|balls|))
      ensures paddles[1].targetRange ==
        AdjustedTargetRange(old(paddles[1]).targetRange, humanScore, aiScore, PaddleHeight, |balls|)
      ensures 2.0 <= paddles[1].targetRange <= TargetRangeCap(PaddleHeight, |balls|)
      ensures forall s :: 0 <= s < 2 ==> paddles[s].body == ResetObject(old(paddles[s]).body)
      ensures forall j :: 0 <= j < |balls| ==>
        (balls[j].body.dx == -1.0 || balls[j].body.dx == 1.0) && -1.0 <= balls[j].body.dy <= 1.0
      ensures |balls| == old(|balls|) ==>
        forall j :: 0 <= j < |balls| ==> balls[j].body.speed == old(balls[j]).body.speed
      ensures old(rolls) + 2 * |balls| <= rolls
    {
      UpdateScore(player);
      AdjustDifficulty();
      Reset();
    }

    /** The ball half of a frame. The loop re-reads the ball count on every
        pass, so a ball added by a goal is moved in the same frame. */
    method UpdateBalls()
      requires Valid()
      modifies this`balls, this`paddles, this`rolls, this`paletteLeft, this`humanScore, this`aiScore
      ensures Valid()
      ensures old(|balls|) <= |balls|
      ensures old(humanScore) <= humanScore && old(aiScore) <= aiScore
    {
      var i := 0;
      while i < |balls|
        invariant Valid() && i <= |balls|
        invariant old(|balls|) <= |balls|
        invariant old(humanScore) <= humanScore && old(aiScore) <= aiScore
        decreases MaxNumberOfBalls - i
      {
        UpdateBall(i);
        i := i + 1;
      }
    }
  }
}
