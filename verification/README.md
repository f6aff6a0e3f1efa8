# Bouncing balls: a Dafny model of the per-ball physics and collision step

The demo animates a fixed array of coloured balls on a canvas. Every frame,
`loop()` visits the balls in index order; for each one it draws it, moves it
with `Ball.update` (reflect the velocity at the viewport sides, then step the
centre) and runs `Ball.detectCollision` (every other ball whose centre is
closer than the sum of the two radii is recoloured, together with the ball
doing the check, to one freshly generated colour).

This project models that step as pure functions over an explicit state
`World.Sim` (the balls, the viewport width and height, and how many colours
have been drawn so far) instead of the program's global array:

- `balls.dfy` (module `Balls`): the `Ball` record, `update` per axis and per
  ball, the collision test, and the facts about one ball.
- `world.dfy` (module `World`): the state, the collision pass of one ball and
  what it does to every colour.
- `loop.dfy` (module `Loop`): one tick of the loop, minus drawing.
- `randomness.dfy` (module `Randomness`): the integer draw `random(min, max)`.

Modelling choices:

- All quantities are `int`. Positions, velocities and radii come from
  integer random draws and the viewport size from the window's integer
  dimensions; `update` only negates and adds, so they stay integers.
- `randomColor()` is a caller-supplied stream `stream: nat -> Color`;
  the n-th colour drawn is `stream(n)` and `Sim.drawn` counts the draws. One
  colour is drawn per recolouring event, as in the program.
- `Math.sqrt(dx*dx + dy*dy) < s1 + s2` is stated on integers as
  `0 <= s1 + s2 && dx*dx + dy*dy < (s1 + s2)^2`; `Balls.OverlapsIsDistanceTest`
  proves the two agree for every non-negative real square root.
- `Math.random()` is a parameter `u` with `0 <= u < 1`, on exact reals.
- The program's identity test `this === balls[i]` is the index test `i != k`.

Behaviour the proofs bring out:

- A ball can overshoot a side by up to one velocity step, so "the centre
  stays at least one radius inside the viewport" does not hold. What does
  hold is `Balls.NearViewport`: at most one step out, and moving outward
  when out, so the next update turns it round. `Loop.TickKeepsNearViewport`
  proves a tick keeps it, and `Balls.PlacedBallIsNearViewport` shows that the
  start-up placement, drawn with `Randomness.RandomInt`, establishes it.
- A ball whose edge touches a side exactly while it moves away from that
  side is trapped on a two-frame cycle at the wall: `Balls.WallTrap` proves it
  for the right side and `Balls.NearWallTrap` for the left side, and the
  vertical axis behaves the same way at the bottom and top. The start-up
  placement allows those positions.
- After one ball's check, an overlapping pair need not share a colour: only
  the checking ball and its last partner in index order do
  (`World.LastPartnerSharesColor`, `World.PairMayEndWithDifferentColors`).
  The model follows the code here.

## Model

| member | source | states |
|---|---|---|
| Balls.Overlaps | src/scripts/app.js:87-91 | the squared-distance form of `Math.sqrt(dx*dx + dy*dy) < this.size + balls[i].size`; it can only hold for a positive sum of radii, and always holds for coincident centres with a positive sum |
| Balls.Reflect | src/scripts/app.js:64-78 | one axis's velocity is negated exactly when one of the two edge tests fires, unchanged when both or neither fire, and keeps its magnitude |
| Balls.Update | src/scripts/app.js:63-82 | each velocity component is negated exactly when one of its axis's edge tests holds (both holding cancel out); speeds are kept; the centre advances by the post-reflection velocity; colour and radius are unchanged |
| Balls.UpdateInsideIsTranslation | src/scripts/app.js:63-82 | when no edge test fires, velocity is unchanged and the ball only translates by it |
| Balls.UpdateIgnoresColor | src/scripts/app.js:63-82 | motion after `update` depends only on position, velocity and radius, never on colour |
| Balls.ReflectKeepsNearAxis | src/scripts/app.js:64-81 | on one axis, in a viewport wider than the ball, a ball at most one step outside and heading out when outside stays so after the update |
| Balls.UpdateKeepsNearViewport | src/scripts/app.js:63-82 | `update` keeps a ball within one velocity step of the viewport on both axes |
| Balls.PlacedBallIsNearViewport | src/scripts/app.js:106-107 | a ball whose centre is drawn with `random(size, width - size)` and `random(size, height - size)` is near the viewport whatever its velocity, in a viewport at least one diameter wide and tall |
| Balls.WallTrap | src/scripts/app.js:64-81 | a ball touching the right side exactly while moving left returns after two updates to its position and velocity |
| Balls.NearWallTrap | src/scripts/app.js:64-81 | a ball touching the left side exactly while moving right returns after two updates to its position and velocity |
| Balls.OverlapsIsDistanceTest | src/scripts/app.js:87-91 | the squared integer test holds exactly when the square-root distance is below the sum of the radii |
| Balls.OverlapsSymmetric | src/scripts/app.js:87-91 | the collision test gives the same answer from either ball |
| Balls.OverlapsIgnoresColor | src/scripts/app.js:87-91 | the collision test reads only positions and radii |
| World.Hits | src/scripts/app.js:86-91 | ball j is tested by ball k's check and collides with it: a different index (the `this === balls[i]` skip) and the collision test |
| World.HitsSymmetric | src/scripts/app.js:86-91 | the partner relation is symmetric and never relates a ball to itself, although a ball overlaps itself |
| World.Recolor | src/scripts/app.js:92 | both balls of a pair take the same colour; nothing else changes |
| World.Scan | src/scripts/app.js:85-95 | from index i on, each partner takes the next stream colour when found, earlier indices are untouched, positions and velocities never change, one colour is drawn per partner |
| World.DetectCollision | src/scripts/app.js:84-96 | only colours change; partner j gets the colour drawn after the partners before it; non-partners keep theirs; the checking ball ends with the last colour drawn; no partner means no change at all |
| World.LastPartnerSharesColor | src/scripts/app.js:85-93 | after the check, the checking ball and its last partner in index order share the colour drawn for that partner |
| World.LoneBallUnchanged | src/scripts/app.js:86 | a lone ball's check changes nothing and draws no colour, whatever its radius |
| World.PairMayEndWithDifferentColors | src/scripts/app.js:85-93 | with two partners, the first partner ends with a colour different from the checking ball's although they overlap |
| Loop.MoveBall | src/scripts/app.js:31 | only ball i changes, and it becomes its `update` |
| Loop.Step | src/scripts/app.js:30-32 | one iteration moves ball i once and leaves every other ball's motion alone |
| Loop.Run | src/scripts/app.js:29-33 | after n iterations, balls 0..n-1 have moved exactly once and the others not at all; the number of balls and the viewport are unchanged |
| Loop.Tick | src/scripts/app.js:29-33 | a tick moves every ball exactly once and never changes the number of balls or the viewport |
| Loop.CheckSeesPartlyMovedBalls | src/scripts/app.js:29-33 | when ball i runs its check, balls 0..i have moved this tick and the later balls have not |
| Loop.TickKeepsNearViewport | src/scripts/app.js:29-33 | a tick keeps every ball within one velocity step of the viewport |
| Loop.TickKeepsSpeeds | src/scripts/app.js:29-33 | a tick never changes the speed of any ball along either axis |
| Randomness.RandomInt | src/scripts/app.js:11-14 | for min <= max the draw lies in the inclusive range [min, max] |
| Randomness.RandomIntReachesEveryValue | src/scripts/app.js:11-14 | every integer of [min, max] is the outcome of some draw in [0, 1) |

## Left out

- Canvas setup and every drawing call (`draw`, `fillRect`, `arc`, `fillStyle`): rendering side effects with no state the model keeps.
- `requestAnimationFrame(loop)`: host scheduling; the model is one tick, and repeated ticks are repeated calls of `Loop.Tick`.
- `randomColor()`: its output is the caller-supplied colour stream, and its string formatting is not modelled.
- Randomness.RandomInt: exact reals, not doubles, so floating-point rounding of `Math.random() * (max - min + 1)` is not modelled.
- The start-up loop that creates 25 balls: random placement only; its placement draws appear in `Balls.PlacedBallIsNearViewport`.
- JavaScript numbers are doubles; the model uses unbounded integers, which agree with them while every value stays below 2^53, far beyond any viewport.
- Player, key controls and the ball counter: not present in `src/scripts/app.js`.
