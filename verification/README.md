# Multi-ball Pong, modelled in Dafny

A model of the game simulation of a browser Pong clone (`pong.js`). The human
plays the left paddle and the computer the right one. Every goal may add
another ball, up to one per colour of a seven-colour palette. Adding a ball
damps the speed of every fast ball. After every goal the computer's "dead
zone" (`targetRange`) is retuned by the score difference.

The model is organised by the program's own parts:

- `entities.dfy` (module `PongEntities`):
  - the tuning constants;
  - the moving rectangle that paddles and balls share (`Body`), with `Paddle` and `Ball` built on it;
  - the per-object operations: round reset, serve direction and speed damping.
- `physics.dfy` (module `PongPhysics`):
  - motion;
  - the wall clamps for balls and paddles;
  - goal detection;
  - the paddle/ball rectangle overlap test and the velocity a hit ball gets.
- `ai.dfy` (module `PongAI`): the closest-ball search and the three-way dead-zone rule.
- `difficulty.dfy` (module `PongDifficulty`): the retuning of the dead zone after a goal.
- `world.dfy` (module `PongWorld`): the game state as one class, `World`.
  - Its fields are the two paddles, the balls, both scores, the number of palette colours left and the count of random draws used.
  - Its methods update those fields in place: restart, round reset, adding balls, damping, the paddle half and the ball half of a frame, scoring.
  - Each method is proved against the pure per-object functions above.
  - Each method keeps the invariant `Valid()`:
    - there are exactly two paddles of the game's size and speed that move only vertically;
    - there are one to seven balls;
    - the ball count plus the colours left is always seven, so the palette never runs dry;
    - ball `j` wears colour `6 - j`;
    - every ball speed stays within `[1.225, 1.8]`;
    - the computer's dead zone is at least 2.

The inputs the game takes from its environment are parameters of the model:

- **Canvas size:** the canvas width and height are the constructor's `width > 0` and `height >= 25`.
- **Random draws:** every `Math.floor(Math.random() * 3)` is the next value of the constant stream `dice: nat -> Draw`, with values in `{0, 1, 2}`. The field `rolls` counts how many values have been used.
- **Trigonometry:** the cosine and sine of `offset * pi / 5` come from the constant `cosSin`.
- **Human input:** the human paddle's direction is the argument `humanDy` of `UpdatePaddles`.

On a paddle hit the right-half branch negates the sine just as the left-half
branch does (pong.js:210, pong.js:215): `dy = -sin` on both halves, so a ball
that strikes above the paddle's centre goes up on either side of the court.

## Model

| member | source | states |
|---|---|---|
| PongEntities.NewBody | pong.js:43-72 | a new object rests at its start position with zero velocity and the given size and speed |
| PongEntities.NewPaddle | pong.js:43-57 | a new paddle's dead zone `targetRange` starts equal to its height |
| PongEntities.NewBall | pong.js:59-72 | a new ball is a new object at rest carrying the given palette colour |
| PongEntities.ResetObject | pong.js:245-249 | the object is back at its start position and no other field (velocity included) changes |
| PongEntities.ResetObjectIdempotent | pong.js:245-249 | resetting twice equals resetting once; an object at its start is unchanged |
| PongEntities.RandomizeDirection | pong.js:82-91 | `dx` is -1 or 1, and 1 exactly when the first draw is 2; `dy = r2 - 1` lies in [-1, 1]; nothing else changes |
| PongEntities.AdjustBallSpeed | pong.js:396-403 | balls at or below speed 1.5 are untouched; faster ones get a speed within 0.05 of 0.85 times the old one, still above 1.225 and below the old speed; only the speed changes; the range [1.225, 1.8] is kept |
| PongPhysics.UpdateMovement | pong.js:163-167 | only the position changes; an object with `dx = 0` keeps its `x`; with a unit `dy` the vertical step is at most the speed |
| PongPhysics.ResetForgetsMovement | pong.js:245-249 | a reset after a move lands exactly where a reset alone does |
| PongPhysics.CheckBallWallCollision | pong.js:169-181 | only `y` and `dy` change; `dy` is negated exactly when `y` moved; a ball in range is unchanged; otherwise `y` ends in `[h/2, H - h/2]` at the nearest point of that range |
| PongPhysics.BallWallCollisionSettles | pong.js:169-181 | a second wall check after the first changes nothing |
| PongPhysics.CheckPaddleWallCollision | pong.js:183-193 | only `y` changes; a paddle in range is unchanged; otherwise `y` ends in `[0, H - h]` at the nearest point of that range |
| PongPhysics.GoalHasOneSide | pong.js:195-198 | a ball out of bounds has crossed exactly one goal line |
| PongPhysics.OverlapsIffSharedPoint | pong.js:205 | the four-comparison test holds exactly when the paddle and ball rectangles share an interior point |
| PongPhysics.HitOffsetRange | pong.js:209 | an overlapping ball's hit offset lies in `(-1, 1 + ballHeight / (paddleHeight / 2))` |
| PongPhysics.PaddleHit | pong.js:205-216 | a ball that does not overlap is untouched; an overlapping one keeps everything but its velocity, gets `dy = -sin`, and gets `dx = cos` on the left half or `-cos` on the right half |
| PongPhysics.PaddleHitSendsBack | pong.js:207-215 | with the game's sizes, a hit always sends the ball towards the opposite side (`dx > 0` on the left half, `dx < 0` on the right) |
| PongPhysics.CentreHitIsStraight | pong.js:209-215 | a hit at the paddle's centre sends the ball straight back: `dx` is 1 or -1 and `dy` is 0 |
| PongAI.FindClosestBall | pong.js:350-367 | the result is ball 0 or a ball with `dx > 0` strictly closer than ball 0; no ball with `dx > 0` is closer; ties keep the earliest index |
| PongAI.ClosestBallUnique | pong.js:350-367 | the selection rule admits exactly one index |
| PongAI.ClosestBallDefault | pong.js:352-365 | when no ball moves towards the computer, ball 0 is chosen |
| PongAI.AiDirection | pong.js:330-347 | `dy` is -1, 0 or 1; with one ball moving away it is 0; otherwise it is -1 exactly when `y - targetRange > target.y` and 1 exactly when `y + targetRange < target.y`; a move always points towards the target |
| PongDifficulty.AdjustedTargetRange | pong.js:377-393 | the result is at most `height/2 - 0.75 * ballCount`, at least 2 whenever that cap is at least 2; with `moved = targetRange - (s0 - s1)` it is exactly `moved` when that lies in `[2, cap]`, exactly the cap when `moved` exceeds it or the cap is below 2, and exactly 2 when `moved < 2 <= cap` |
| PongDifficulty.TargetRangeMonotone | pong.js:377-384 | a larger human lead never widens the dead zone |
| PongDifficulty.TargetRangeInWindow | pong.js:386-393 | with height 25 and at most seven balls the new dead zone lies in `[2, cap]` |
| PongWorld.FastBeforeExtremes | pong.js:398-401 | damping the first `n` balls uses no draw exactly when none of them is faster than 1.5, and `n` draws exactly when all of them are |
| PongWorld.PaletteAccounting | pong.js:31 | under the ball invariant, balls have pairwise distinct colours, all already taken from the palette, and the palette has a colour left exactly when another ball may be added |
| PongWorld.DampingKeepsShape | pong.js:410 | damping every ball keeps the ball invariant (sizes, starts, colours, speed range) |
| PongWorld.World.constructor | pong.js:423 | the game starts restarted: the invariant holds, everything is at its start, both scores are 0, the AI dead zone is 25, both paddles are still, one ball of speed 1.8 is in play, served from draws 0 and 1, and two draws have been used |
| PongWorld.World.Roll | pong.js:401 | a draw returns the next value of the random stream and advances it by one |
| PongWorld.World.GetNextBallColor | pong.js:157-160 | pops the last palette colour: the palette shrinks by one and the colour returned is the new palette length |
| PongWorld.World.Restart | pong.js:223-230 | a fresh palette, two new paddles, scores 0, one ball of base speed with the palette's last colour, then a round reset with its two draws; the invariant holds and everything is at its start |
| PongWorld.World.Reset | pong.js:232-237 | every paddle and ball is back at its start; ball `j` gets its serve direction from draws `2j` and `2j + 1` after the current ones; nothing else changes and the invariant is kept |
| PongWorld.World.ResetPaddles | pong.js:234 | each paddle becomes its own reset |
| PongWorld.World.ResetBallPositions | pong.js:235 | each ball becomes its own reset |
| PongWorld.World.RandomizeBalls | pong.js:236 | ball `j` gets the serve direction of draws `2j` and `2j + 1`; exactly two draws per ball are used |
| PongWorld.World.UpdateScore | pong.js:285-288 | the scoring player's score goes up by exactly one and the other's does not change |
| PongWorld.World.AddBall | pong.js:405-412 | below seven balls, a centred ball with the next colour and base speed is appended and then every ball is damped in order, using one draw per fast ball; at seven balls nothing changes; the invariant is kept |
| PongWorld.World.AdjustBallSpeeds | pong.js:410 | every ball is damped with the draw whose index is the number of fast balls before it; the number of draws used is the number of fast balls |
| PongWorld.World.AdjustDifficulty | pong.js:370-394 | on an even total with room, the balls become exactly what `AddBall` makes of them (the centred new ball appended, every ball damped with its draw, one colour fewer); otherwise balls, palette and draws are unchanged; only the computer's dead zone changes among the paddle fields, to `AdjustedTargetRange` with the ball count after any add, and it ends in `[2, cap]` |
| PongWorld.World.CheckPaddleCollision | pong.js:201-220 | every ball, with no early exit, becomes its `PaddleHit` against the paddle; the invariant is kept |
| PongWorld.World.UpdateAIPosition | pong.js:326-348 | the computer's paddle takes the `AiDirection` towards a ball that satisfies the closest-ball rule; nothing else changes |
| PongWorld.World.UpdatePaddle | pong.js:258-260 | paddle `s` is clamped, then every ball is checked against the clamped paddle, then the paddle moves; afterwards its `y` is within one step of the court; the other paddle and all ball positions are unchanged |
| PongWorld.World.UpdatePaddles | pong.js:251-262 | the human paddle takes `humanDy`; no paddle moves sideways; each paddle ends within one step of the court; no ball moves |
| PongWorld.World.UpdateBall | pong.js:266-282 | ball `i` bounces off the walls and moves; past the right edge the human scores exactly one, past the left edge the computer does; after either goal a ball was added exactly when the new total is even and there was room, the dead zone is `AdjustedTargetRange` with the new scores and ball count and lies in `[2, cap]`, each paddle is exactly its reset (direction kept), every ball stands at its start with a fresh serve (`dx` is -1 or 1, `dy` in [-1, 1]), and at least two draws per ball were used; otherwise only ball `i` changes |
| PongWorld.World.ScoreGoal | pong.js:270-281 | the scorer's score rises by one; the difficulty controller runs (a ball added exactly when the new total is even and there is room, the dead zone becomes `AdjustedTargetRange` and lies in `[2, cap]`); each paddle is exactly its reset; every ball stands at its start with a fresh serve (`dx` is -1 or 1, `dy` in [-1, 1]); when no ball was added every speed is unchanged; at least two draws per ball were used |
| PongWorld.World.UpdateBalls | pong.js:264-283 | the loop keeps the invariant; the ball count and both scores never decrease |

## Left out

- Drawing: the screen-clearing and drawing functions and the canvas patches (pong.js:95-155) are canvas output.
- Keyboard input: `checkPlayerInput` (pong.js:301-323) installs key listeners. The human paddle's direction is instead an argument of `UpdatePaddles`.
- Frame timing: the frame limiter in `updateScreen` and the `loop`/`requestAnimationFrame` driver (pong.js:290-297, pong.js:415-424) are browser scheduling. There is no model of a whole frame as one step.
- Trigonometry: `Math.cos` and `Math.sin` of `offset * pi / 5` are the constant `cosSin`. Where a property needs them, only two facts are assumed as a precondition (`CosineLike`): angle 0 gives `(1, 0)`, and the cosine is positive for offsets in `(-1, 1.4)`.
- Floating point: positions, speeds and the `0.85` and `0.75` scalings use exact reals, so IEEE rounding is not modelled.
- Randomness: `Math.random()` is the input stream `dice`. Its distribution is not modelled.
- Palette colours: the hex strings (pong.js:23, pong.js:241) are not modelled. A ball carries the index of its palette entry and the palette is its remaining length.
- Players and score display: the `Player` and `Score` objects (pong.js:37-41, pong.js:74-79) are reduced to the two score fields. The score's screen position and padding belong to drawing.
- `resetBallParameters` re-assigns the dampener to the same 0.85 (pong.js:242). The model keeps it a constant.
- Object identity: `findClosestBall` returns a ball object, which the model gives as the ball's index. Paddles and balls are values inside the world's sequences, so nothing can alias them.
- PongWorld.World.UpdatePaddles: states the bounds, the unchanged positions and the human direction, but not the full new state as one formula. The exact effect of each of its steps is stated by `UpdateAIPosition` and `UpdatePaddle`.
- PongWorld.World.UpdateBalls: states the invariant and that counts and scores never decrease, not the composed effect of every pass. The effect of one pass is stated by `UpdateBall`, and the loop may grow the ball list while it runs.
