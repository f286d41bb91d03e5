/** Entities of the multi-ball Pong game: the tuning constants, the moving
    rectangle that paddles and balls share, and the per-object operations the
    game applies to either kind of object (round reset, serve direction and
    speed damping). Positions and speeds are exact reals. */
module PongEntities {

  // Tuning parameters
  const PaddleWidth: real := 5.0
  const PaddleHeight: real := 25.0
  const BallWidth: real := 5.0
  const BallHeight: real := 5.0
  /** Speed of the human-controlled paddle. */
  const PcSpeed: real := 5.0
  /** Speed of the computer-controlled paddle. */
  const AiSpeed: real := 3.5
  /** Speed every new ball starts with. */
  const BallSpeed: real := 1.8
  /** Factor applied to fast balls whenever a ball is added. */
  const BallDampener: real := 0.85
  /** Only balls strictly faster than this are damped. */
  const SpeedLimit: real := 1.5
  /** Amplitude of the random speed jitter added after damping. */
  const SpeedJitter: real := 0.05
  /** Number of colours in the ball palette. */
  const PaletteSize: nat := 7
  /** At most one ball per palette colour. */
  const MaxNumberOfBalls: nat := PaletteSize
  /** Slowest speed damping can produce: 0.85 * 1.5 - 0.05. */
  const MinBallSpeed: real := 1.225

  /** One value of `floor(random() * 3)`. */
  type Draw = d: int | 0 <= d <= 2

  /** A unit direction: up (-1), still (0) or down (1). */
  type Dir = d: int | -1 <= d <= 1

  /** The fields every moving object has: position, size, speed scalar,
      velocity and the position it returns to on a round reset. */
  datatype Body = Body(x: real, y: real, width: real, height: real, speed: real,
                       dx: real, dy: real, startX: real, startY: real)

  /** A paddle; `targetRange` is the half-width of the AI's dead zone. */
  datatype Paddle = Paddle(body: Body, targetRange: real)

  /** A ball; `color` is the index of the palette entry it was given. */
  datatype Ball = Ball(body: Body, color: nat)

  predicate AtStart(o: Body) {
    o.x == o.startX && o.y == o.startY
  }

  /** A freshly built object rests at the position it will be reset to. */
  function NewBody(x: real, y: real, w: real, h: real, speed: real): (o: Body)
    ensures AtStart(o) && o.x == x && o.y == y
    ensures o.dx == 0.0 && o.dy == 0.0
    ensures o.width == w && o.height == h && o.speed == speed
  {
    Body(x, y, w, h, speed, 0.0, 0.0, x, y)
  }

  /** A new paddle; its AI dead zone starts as wide as the paddle is high. */
  function NewPaddle(x: real, y: real, w: real, h: real, speed: real): (p: Paddle)
    ensures p.body == NewBody(x, y, w, h, speed)
    ensures p.targetRange == h
  {
    Paddle(NewBody(x, y, w, h, speed), h)
  }

  /** A new ball, at rest at its start, carrying the palette colour `color`. */
  function NewBall(x: real, y: real, w: real, h: real, color: nat, speed: real): (b: Ball)
    ensures b.body == NewBody(x, y, w, h, speed)
    ensures b.color == color
  {
    Ball(NewBody(x, y, w, h, speed), color)
  }

  /** Round reset of one object: back to its starting position, nothing else
      touched (in particular its velocity survives). */
  function ResetObject(o: Body): (o': Body)
    ensures AtStart(o')
    ensures o' == o.(x := o'.x, y := o'.y)
  {
    o.(x := o.startX, y := o.startY)
  }

  lemma ResetObjectIdempotent(o: Body)
    ensures ResetObject(ResetObject(o)) == ResetObject(o)
    ensures AtStart(o) ==> ResetObject(o) == o
  {
  }

  /** Serve direction from two draws: `dy = r2 - 1`, and `dx = r1 - 1` except
      that a zero `dx` is forced to -1, towards the human side. */
  function RandomizeDirection(o: Body, r1: Draw, r2: Draw): (o': Body)
    ensures o'.dx == -1.0 || o'.dx == 1.0
    ensures o'.dx == 1.0 <==> r1 == 2
    ensures o'.dy == (r2 - 1) as real
    ensures -1.0 <= o'.dy <= 1.0
    ensures o' == o.(dx := o'.dx, dy := o'.dy)
  {
    var dx := r1 - 1;
    o.(dx := (if dx == 0 then -1 else dx) as real, dy := (r2 - 1) as real)
  }

  /** Speed damping with jitter: a ball faster than the limit is scaled by the
      dampener and then nudged by `0.05 * (r - 1)`; slower balls are untouched. */
  function AdjustBallSpeed(o: Body, r: Draw): (o': Body)
    ensures o.speed <= SpeedLimit ==> o' == o
    ensures o' == o.(speed := o'.speed)
    ensures o.speed > SpeedLimit ==> MinBallSpeed < o'.speed < o.speed
    ensures o.speed > SpeedLimit ==>
      BallDampener * o.speed - SpeedJitter <= o'.speed <= BallDampener * o.speed + SpeedJitter
    ensures MinBallSpeed <= o.speed <= BallSpeed ==> MinBallSpeed <= o'.speed <= BallSpeed
  {
    if o.speed > SpeedLimit then
      o.(speed := o.speed * BallDampener + SpeedJitter * (r - 1) as real)
    else
      o
  }
}
