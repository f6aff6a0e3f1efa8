/** One ball of the bouncing-ball demo and the rule that moves it.

    The program keeps positions, velocities, radii and the viewport size as
    JavaScript numbers, but every one of them starts as an integer (integer
    random draws, `window.innerWidth`/`innerHeight`) and the motion rule only
    negates and adds, so the values stay integers and `int` models them exactly.
 */
module Balls {
  import opened Randomness

  /** A colour as the program stores it: a CSS string such as "rgb(12,200,7)". */
  type Color = string

  /** The `Ball` record: centre, velocity per frame, fill colour and radius. */
  datatype Ball = Ball(x: int, y: int, velX: int, velY: int, color: Color, size: int)

  function Abs(v: int): (r: nat)
    ensures r == v || r == -v
  {
    if v < 0 then -v else v
  }

  /** Two balls agree on everything except their colour. */
  predicate SameMotion(a: Ball, b: Ball) {
    a.x == b.x && a.y == b.y && a.velX == b.velX && a.velY == b.velY && a.size == b.size
  }

  /** The far-side test of one axis: the ball's edge reaches or passes `limit`. */
  predicate PastFar(p: int, size: int, limit: int) {
    p + size >= limit
  }

  /** The near-side test of one axis: the ball's edge reaches or passes 0. */
  predicate PastNear(p: int, size: int) {
    p - size <= 0
  }

  /** The velocity of one axis after the program's two edge tests, which run
      one after the other and each negate the velocity when they fire. */
  function Reflect(p: int, v: int, size: int, limit: int): (v': int)
    ensures PastFar(p, size, limit) != PastNear(p, size) ==> v' == -v
    ensures PastFar(p, size, limit) == PastNear(p, size) ==> v' == v
    ensures Abs(v') == Abs(v)
  {
    var afterFar := if PastFar(p, size, limit) then -v else v;
    if PastNear(p, size) then -afterFar else afterFar
  }

  /** `Ball.update`: reflect each velocity component at the viewport sides,
      then advance the centre by the reflected velocity. */
  function Update(b: Ball, width: int, height: int): (r: Ball)
    ensures PastFar(b.x, b.size, width) != PastNear(b.x, b.size) ==> r.velX == -b.velX
    ensures PastFar(b.x, b.size, width) == PastNear(b.x, b.size) ==> r.velX == b.velX
    ensures PastFar(b.y, b.size, height) != PastNear(b.y, b.size) ==> r.velY == -b.velY
    ensures PastFar(b.y, b.size, height) == PastNear(b.y, b.size) ==> r.velY == b.velY
    ensures Abs(r.velX) == Abs(b.velX) && Abs(r.velY) == Abs(b.velY)
    ensures r.x == b.x + r.velX && r.y == b.y + r.velY
    ensures r.color == b.color && r.size == b.size
  {
    var vx := Reflect(b.x, b.velX, b.size, width);
    var vy := Reflect(b.y, b.velY, b.size, height);
    b.(x := b.x + vx, y := b.y + vy, velX := vx, velY := vy)
  }

  /** When no edge test fires, `update` is a plain translation: the velocity
      is untouched and only the centre moves. */
  lemma UpdateInsideIsTranslation(b: Ball, width: int, height: int)
    requires !PastFar(b.x, b.size, width) && !PastNear(b.x, b.size)
    requires !PastFar(b.y, b.size, height) && !PastNear(b.y, b.size)
    ensures Update(b, width, height) == b.(x := b.x + b.velX, y := b.y + b.velY)
  {
  }

  /** The colour never influences motion: balls that agree on everything but
      colour still do after `update`. */
  lemma UpdateIgnoresColor(a: Ball, b: Ball, width: int, height: int)
    requires SameMotion(a, b)
    ensures SameMotion(Update(a, width, height), Update(b, width, height))
  {
  }

  /** Where one axis of a ball can be between frames. The ball is at most one
      velocity step beyond a side of the viewport, and when it is beyond a side
      its last move took it outward, so the next edge test turns it round. */
  predicate NearAxis(p: int, v: int, size: int, limit: int) {
    && size - Abs(v) <= p <= limit - size + Abs(v)
    && (p + size > limit ==> v > 0)
    && (p - size < 0 ==> v < 0)
  }

  predicate NearViewport(b: Ball, width: int, height: int) {
    NearAxis(b.x, b.velX, b.size, width) && NearAxis(b.y, b.velY, b.size, height)
  }

  /** One axis of `update` keeps the ball near the viewport, provided the
      viewport is wider than the ball (so the two edge tests never both fire). */
  lemma ReflectKeepsNearAxis(p: int, v: int, size: int, limit: int)
    requires limit > 2 * size
    requires NearAxis(p, v, size, limit)
    ensures NearAxis(p + Reflect(p, v, size, limit), Reflect(p, v, size, limit), size, limit)
  {
  }

  /** `update` keeps a ball near the viewport: it may overshoot a side by
      at most one velocity step, but never drifts further out. */
  lemma UpdateKeepsNearViewport(b: Ball, width: int, height: int)
    requires width > 2 * b.size && height > 2 * b.size
    requires NearViewport(b, width, height)
    ensures NearViewport(Update(b, width, height), width, height)
  {
  }

  /** The start-up placement draws each centre with `random(size, side - size)`,
      at least one radius inside every side; such a ball is near the viewport
      whatever its velocity. */
  lemma PlacedBallIsNearViewport(size: int, width: int, height: int, ux: real, uy: real,
                                 velX: int, velY: int, color: Color)
    requires width >= 2 * size && height >= 2 * size
    requires 0.0 <= ux < 1.0 && 0.0 <= uy < 1.0
    ensures var b := Ball(RandomInt(size, width - size, ux), RandomInt(size, height - size, uy), velX, velY, color, size);
            NearViewport(b, width, height)
  {
  }

  /** A ball whose right edge touches the right side exactly while it moves
      left is turned round by the far-side test, steps out by one velocity
      step, is turned round again, and lands where it started with its
      original velocity: it is trapped on a two-frame cycle at the wall. */
  lemma WallTrap(b: Ball, width: int, height: int)
    requires b.x + b.size == width && b.velX < 0
    requires width > 2 * b.size
    ensures Update(b, width, height).x == b.x - b.velX
    ensures Update(b, width, height).velX == -b.velX
    ensures Update(Update(b, width, height), width, height).x == b.x
    ensures Update(Update(b, width, height), width, height).velX == b.velX
  {
  }

  /** The same trap at the near side: a ball whose left edge touches 0
      exactly while it moves right returns after two updates to where it
      started, with its original velocity. The vertical axis behaves the
      same way at the top and bottom sides. */
  lemma NearWallTrap(b: Ball, width: int, height: int)
    requires b.x - b.size == 0 && b.velX > 0
    requires width > 2 * b.size
    ensures Update(b, width, height).x == b.x - b.velX
    ensures Update(b, width, height).velX == -b.velX
    ensures Update(Update(b, width, height), width, height).x == b.x
    ensures Update(Update(b, width, height), width, height).velX == b.velX
  {
  }

  /** The program's collision test `Math.sqrt(dx*dx + dy*dy) < a.size + b.size`,
      stated on integers: a square root is never negative, so the test can
      only hold for a non-negative reach, and then it is the squared test. */
  predicate Overlaps(a: Ball, b: Ball)
    ensures Overlaps(a, b) ==> a.size + b.size > 0
    ensures a.x == b.x && a.y == b.y && a.size + b.size > 0 ==> Overlaps(a, b)
  {
    var dx := a.x - b.x;
    var dy := a.y - b.y;
    var reach := a.size + b.size;
    0 <= reach && dx * dx + dy * dy < reach * reach
  }

  lemma MulLeftMono(c: real, a: real, b: real)
    requires 0.0 <= c && a <= b
    ensures c * a <= c * b
  {
  }

  /** The squared test agrees with the square-root test for every
      non-negative root of the squared distance. */
  lemma OverlapsIsDistanceTest(a: Ball, b: Ball, distance: real)
    requires 0.0 <= distance
    requires distance * distance == ((a.x - b.x) * (a.x - b.x) + (a.y - b.y) * (a.y - b.y)) as real
    ensures Overlaps(a, b) <==> distance < (a.size + b.size) as real
  {
    var dx := a.x - b.x;
    var dy := a.y - b.y;
    var reach := a.size + b.size;
    var R := reach as real;
    assert (reach * reach) as real == R * R;
    if distance < R {
      MulLeftMono(distance, distance, R);
      MulLeftMono(R, distance, R);
      assert distance * distance < R * R;
      assert Overlaps(a, b);
    } else if 0.0 <= R {
      MulLeftMono(distance, R, distance);
      MulLeftMono(R, R, distance);
      assert distance * distance >= R * R;
      assert !Overlaps(a, b);
    }
  }

  /** The collision test does not depend on which ball runs it. */
  lemma OverlapsSymmetric(a: Ball, b: Ball)
    ensures Overlaps(a, b) <==> Overlaps(b, a)
  {
  }

  /** The collision test reads only positions and radii. */
  lemma OverlapsIgnoresColor(a: Ball, b: Ball, a': Ball, b': Ball)
    requires SameMotion(a, a') && SameMotion(b, b')
    ensures Overlaps(a, b) <==> Overlaps(a', b')
  {
  }
}
