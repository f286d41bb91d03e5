/** Physics of the game: motion integration, the wall clamps for balls and
    paddles, goal detection, and the paddle/ball rectangle overlap with the
    velocity a hit ball is given. */
module PongPhysics {
  import opened PongEntities

  /** Distance between two points on a line. */
  function Dist(a: real, b: real): real {
    if a <= b then b - a else a - b
  }

  lemma StepBound(speed: real, d: real)
    ensures speed >= 0.0 && -1.0 <= d <= 1.0 ==> -speed <= speed * d <= speed
  {
  }

  /** One frame of motion: `x += speed * dx`, `y += speed * dy`. An object
      with `dx == 0` (every paddle) never moves sideways, and a unit vertical
      direction moves it by at most its speed. */
  function UpdateMovement(o: Body): (o': Body)
    ensures o' == o.(x := o'.x, y := o'.y)
    ensures o.dx == 0.0 ==> o'.x == o.x
    ensures o.speed >= 0.0 && -1.0 <= o.dy <= 1.0 ==> Dist(o'.y, o.y) <= o.speed
  {
    StepBound(o.speed, o.dy);
    o.(x := o.x + o.speed * o.dx, y := o.y + o.speed * o.dy)
  }

  /** Moving and then resetting lands where resetting alone does. */
  lemma ResetForgetsMovement(o: Body)
    ensures ResetObject(UpdateMovement(o)) == ResetObject(o)
  {
  }

  /** Top/bottom wall bounce of a ball: `y` is clamped into
      `[height/2, canvasHeight - height/2]` (to the nearest point of that
      range) and `dy` is negated exactly when `y` had to move. */
  function CheckBallWallCollision(o: Body, canvasHeight: real): (o': Body)
    ensures o' == o.(y := o'.y, dy := o'.dy)
    ensures o'.dy == if o'.y == o.y then o.dy else -o.dy
    ensures o.height / 2.0 <= o.y <= canvasHeight - o.height / 2.0 ==> o' == o
    ensures o.height <= canvasHeight ==>
      o.height / 2.0 <= o'.y <= canvasHeight - o.height / 2.0
    ensures o.height <= canvasHeight ==>
      forall z :: o.height / 2.0 <= z <= canvasHeight - o.height / 2.0 ==>
        Dist(o'.y, o.y) <= Dist(z, o.y)
  {
    if o.y > canvasHeight - o.height / 2.0 then
      o.(y := canvasHeight - o.height / 2.0, dy := o.dy * -1.0)
    else if o.y < o.height / 2.0 then
      o.(y := o.height / 2.0, dy := o.dy * -1.0)
    else
      o
  }

  /** Once clamped, a second wall check changes nothing. */
  lemma BallWallCollisionSettles(o: Body, canvasHeight: real)
    requires o.height <= canvasHeight
    ensures CheckBallWallCollision(CheckBallWallCollision(o, canvasHeight), canvasHeight)
         == CheckBallWallCollision(o, canvasHeight)
  {
  }

  /** Top/bottom wall stop of a paddle: `y` is clamped into
      `[0, canvasHeight - height]` (to the nearest point of that range);
      nothing else changes. */
  function CheckPaddleWallCollision(o: Body, canvasHeight: real): (o': Body)
    ensures o' == o.(y := o'.y)
    ensures 0.0 <= o.y <= canvasHeight - o.height ==> o' == o
    ensures o.height <= canvasHeight ==> 0.0 <= o'.y <= canvasHeight - o.height
    ensures o.height <= canvasHeight ==>
      forall z :: 0.0 <= z <= canvasHeight - o.height ==> Dist(o'.y, o.y) <= Dist(z, o.y)
  {
    if o.y > canvasHeight - o.height then
      o.(y := canvasHeight - o.height)
    else if o.y < 0.0 then
      o.(y := 0.0)
    else
      o
  }

  /** A ball has left the court on the left or on the right. */
  predicate CheckBallOutOfBounds(o: Body, canvasWidth: real) {
    o.x > canvasWidth || o.x < 0.0
  }

  /** A ball out of bounds has crossed exactly one of the two goal lines, so
      every goal is attributed to exactly one player. */
  lemma GoalHasOneSide(o: Body, canvasWidth: real)
    requires canvasWidth > 0.0
    ensures CheckBallOutOfBounds(o, canvasWidth) <==> (o.x > canvasWidth) != (o.x < 0.0)
  {
  }

  /** An axis-aligned rectangle. */
  datatype Box = Box(left: real, top: real, w: real, h: real)

  function BoxOf(o: Body): Box {
    Box(o.x, o.y, o.width, o.height)
  }

  /** The overlap test between the paddle rectangle `a` and the ball rectangle `b`. */
  predicate Overlaps(a: Box, b: Box) {
    a.left < b.left + b.w && a.left + a.w > b.left && a.top < b.top + b.h && a.top + a.h > b.top
  }

  /** Point `(px, py)` lies strictly inside `r`. */
  predicate Inside(r: Box, px: real, py: real) {
    r.left < px < r.left + r.w && r.top < py < r.top + r.h
  }

  function Max(a: real, b: real): real { if a <= b then b else a }
  function Min(a: real, b: real): real { if a <= b then a else b }

  /** The four-comparison test is exactly "the two rectangles share an interior point". */
  lemma OverlapsIffSharedPoint(a: Box, b: Box)
    requires a.w > 0.0 && a.h > 0.0 && b.w > 0.0 && b.h > 0.0
    ensures Overlaps(a, b) <==> exists px, py :: Inside(a, px, py) && Inside(b, px, py)
  {
    if Overlaps(a, b) {
      var px := (Max(a.left, b.left) + Min(a.left + a.w, b.left + b.w)) / 2.0;
      var py := (Max(a.top, b.top) + Min(a.top + a.h, b.top + b.h)) / 2.0;
      assert Inside(a, px, py) && Inside(b, px, py);
    }
  }

  /** Where on the paddle the ball touched, scaled so that the paddle's
      centre is 0 and its top and bottom edges are 1 and -1. */
  function HitOffset(paddle: Body, ball: Body): real
    requires paddle.height > 0.0
  {
    (paddle.y + paddle.height / 2.0 - ball.y) / (paddle.height / 2.0)
  }

  /** A product with a positive factor has the sign of the other factor. */
  lemma SignOfProduct(a: real, c: real)
    requires c > 0.0
    ensures a * c < 0.0 ==> a < 0.0
    ensures a * c > 0.0 ==> a > 0.0
  {
  }

  /** An overlapping ball hits at an offset in `(-1, 1 + ballHeight / (paddleHeight / 2))`. */
  lemma HitOffsetRange(paddle: Body, ball: Body)
    requires paddle.height > 0.0
    requires Overlaps(BoxOf(paddle), BoxOf(ball))
    ensures -1.0 < HitOffset(paddle, ball) < 1.0 + ball.height / (paddle.height / 2.0)
  {
    var half := paddle.height / 2.0;
    var q := HitOffset(paddle, ball);
    var r := ball.height / half;
    assert q * half == paddle.y + half - ball.y;
    assert r * half == ball.height;
    // the ball's top is above the paddle's bottom and its bottom below the paddle's top
    assert (q + 1.0) * half == paddle.y + paddle.height - ball.y > 0.0;
    assert (q - 1.0 - r) * half == paddle.y - ball.y - ball.height < 0.0;
    SignOfProduct(q + 1.0, half);
    SignOfProduct(q - 1.0 - r, half);
  }

  /** The paddle collision response for one ball. `cosSin(offset)` stands for
      the cosine and sine of `offset * pi / 5` as the browser computes them.
      A ball that does not overlap the paddle is untouched; an overlapping
      ball keeps its position and speed and gets `dx = cos` on the left half
      of the court or `dx = -cos` on the right half, and `dy = -sin` on both. */
  function PaddleHit(paddle: Body, ball: Ball, canvasWidth: real, cosSin: real -> (real, real)): (b': Ball)
    requires paddle.height > 0.0
    ensures !Overlaps(BoxOf(paddle), BoxOf(ball.body)) ==> b' == ball
    ensures b' == ball.(body := ball.body.(dx := b'.body.dx, dy := b'.body.dy))
    ensures Overlaps(BoxOf(paddle), BoxOf(ball.body)) ==>
      var cs := cosSin(HitOffset(paddle, ball.body));
      && b'.body.dy == -cs.1
      && b'.body.dx == (if ball.body.x < canvasWidth / 2.0 then cs.0 else -cs.0)
  {
    if Overlaps(BoxOf(paddle), BoxOf(ball.body)) then
      var cs := cosSin(HitOffset(paddle, ball.body));
      if ball.body.x < canvasWidth / 2.0 then
        ball.(body := ball.body.(dx := cs.0, dy := -cs.1))
      else
        ball.(body := ball.body.(dx := cs.0 * -1.0, dy := cs.1 * -1.0))
    else
      ball
  }

  /** What the model needs of cosine and sine of `offset * pi / 5`: angle 0
      gives `(1, 0)`, and the cosine is positive for every offset in
      `(-1, 1.4)`, i.e. for angles inside `(-pi/2, pi/2)`. */
  ghost predicate CosineLike(cosSin: real -> (real, real)) {
    && cosSin(0.0) == (1.0, 0.0)
    && forall offset :: -1.0 < offset < 1.4 ==> cosSin(offset).0 > 0.0
  }

  /** With the game's paddle and ball sizes, a hit always sends the ball back
      towards the opposite side of the court. */
  lemma PaddleHitSendsBack(paddle: Body, ball: Ball, canvasWidth: real, cosSin: real -> (real, real))
    requires CosineLike(cosSin)
    requires paddle.height == PaddleHeight && ball.body.height == BallHeight
    requires Overlaps(BoxOf(paddle), BoxOf(ball.body))
    ensures ball.body.x < canvasWidth / 2.0 ==> PaddleHit(paddle, ball, canvasWidth, cosSin).body.dx > 0.0
    ensures ball.body.x >= canvasWidth / 2.0 ==> PaddleHit(paddle, ball, canvasWidth, cosSin).body.dx < 0.0
  {
    HitOffsetRange(paddle, ball.body);
    var offset := HitOffset(paddle, ball.body);
    assert -1.0 < offset < 1.4;
    assert cosSin(offset).0 > 0.0;
  }

  /** A hit on the paddle's centre sends the ball straight back: `|dx| = 1`, `dy = 0`. */
  lemma CentreHitIsStraight(paddle: Body, ball: Ball, canvasWidth: real, cosSin: real -> (real, real))
    requires CosineLike(cosSin)
    requires paddle.height > 0.0
    requires Overlaps(BoxOf(paddle), BoxOf(ball.body))
    requires HitOffset(paddle, ball.body) == 0.0
    ensures var b' := PaddleHit(paddle, ball, canvasWidth, cosSin);
      (b'.body.dx == 1.0 || b'.body.dx == -1.0) && b'.body.dy == 0.0
  {
  }
}
