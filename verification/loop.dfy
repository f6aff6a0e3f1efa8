/** One tick of the animation loop, without the drawing.

    The body of `loop()` visits the balls in index order and, for each one,
    moves it with `update` and then runs its collision check against the
    whole array as it stands at that moment.
 */
module Loop {
  import opened Balls
  import opened World

  /** Ball i's `update`, written back into the state. */
  function MoveBall(s: Sim, i: nat): (r: Sim)
    requires i < |s.balls|
    ensures |r.balls| == |s.balls| && r.width == s.width && r.height == s.height && r.drawn == s.drawn
    ensures r.balls[i] == Update(s.balls[i], s.width, s.height)
    ensures forall j :: 0 <= j < |s.balls| && j != i ==> r.balls[j] == s.balls[j]
  {
    s.(balls := s.balls[i := Update(s.balls[i], s.width, s.height)])
  }

  /** One iteration of the loop: move ball i, then check it for collisions. */
  function Step(s: Sim, i: nat, stream: ColorStream): (r: Sim)
    requires i < |s.balls|
    ensures |r.balls| == |s.balls| && r.width == s.width && r.height == s.height
    ensures SameMotion(r.balls[i], Update(s.balls[i], s.width, s.height))
    ensures forall j :: 0 <= j < |s.balls| && j != i ==> SameMotion(r.balls[j], s.balls[j])
    ensures r.drawn >= s.drawn
  {
    DetectCollision(MoveBall(s, i), i, stream)
  }

  /** The state after the first n iterations of the loop: balls 0 .. n-1
      have each moved exactly once, the rest not at all. */
  function Run(s: Sim, n: nat, stream: ColorStream): (r: Sim)
    requires n <= |s.balls|
    ensures |r.balls| == |s.balls| && r.width == s.width && r.height == s.height
    ensures r.drawn >= s.drawn
    ensures forall j :: 0 <= j < n ==> SameMotion(r.balls[j], Update(s.balls[j], s.width, s.height))
    ensures forall j :: n <= j < |s.balls| ==> SameMotion(r.balls[j], s.balls[j])
    decreases n
  {
    if n == 0 then s
    else
      var before := Run(s, n - 1, stream);
      UpdateIgnoresColor(before.balls[n - 1], s.balls[n - 1], s.width, s.height);
      Step(before, n - 1, stream)
  }

  /** One tick: every ball moved exactly once and checked, in index order. */
  function Tick(s: Sim, stream: ColorStream): (r: Sim)
    ensures |r.balls| == |s.balls| && r.width == s.width && r.height == s.height
    ensures r.drawn >= s.drawn
    ensures forall j :: 0 <= j < |s.balls| ==> SameMotion(r.balls[j], Update(s.balls[j], s.width, s.height))
  {
    Run(s, |s.balls|, stream)
  }

  /** The collision check of ball i sees a half-moved array: balls 0 .. i
      already carry this tick's move, balls after i still carry the last
      tick's positions. */
  lemma CheckSeesPartlyMovedBalls(s: Sim, i: nat, stream: ColorStream)
    requires i < |s.balls|
    ensures var seen := MoveBall(Run(s, i, stream), i);
            && (forall j :: 0 <= j <= i ==> SameMotion(seen.balls[j], Update(s.balls[j], s.width, s.height)))
            && (forall j :: i < j < |s.balls| ==> SameMotion(seen.balls[j], s.balls[j]))
    ensures Run(s, i + 1, stream) == DetectCollision(MoveBall(Run(s, i, stream), i), i, stream)
  {
  }

  /** A tick keeps every ball near the viewport, when the viewport is wider
      and taller than every ball. */
  lemma TickKeepsNearViewport(s: Sim, stream: ColorStream)
    requires forall j :: 0 <= j < |s.balls| ==> s.width > 2 * s.balls[j].size && s.height > 2 * s.balls[j].size
    requires forall j :: 0 <= j < |s.balls| ==> NearViewport(s.balls[j], s.width, s.height)
    ensures forall j :: 0 <= j < |s.balls| ==> NearViewport(Tick(s, stream).balls[j], s.width, s.height)
  {
  }

  /** A tick never changes the speed of a ball along either axis. */
  lemma TickKeepsSpeeds(s: Sim, stream: ColorStream)
    ensures forall j :: 0 <= j < |s.balls| ==>
              && Abs(Tick(s, stream).balls[j].velX) == Abs(s.balls[j].velX)
              && Abs(Tick(s, stream).balls[j].velY) == Abs(s.balls[j].velY)
  {
  }
}
