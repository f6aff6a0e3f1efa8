/** The simulation state and `Ball.detectCollision`.

    The program keeps the balls in a global array and draws colours from
    `randomColor()`. Here the state is an explicit value, and the colour
    generator is a caller-supplied stream: `stream(n)` is the colour the n-th
    call of `randomColor()` returns, and the state counts how many colours
    have been drawn so far. A ball is identified by its index, which is what
    the program's `this === balls[i]` identity test amounts to, since every
    element of the array is a distinct object.
 */
module World {
  import opened Balls

  /** `stream(n)` is the colour returned by the n-th call of `randomColor()`. */
  type ColorStream = nat -> Color

  /** The balls, the viewport size fixed at start-up, and the number of
      colours drawn from the stream so far. */
  datatype Sim = Sim(balls: seq<Ball>, width: int, height: int, drawn: nat)

  /** Ball j is a collision partner of ball k: a different ball whose
      centre is closer than the sum of the two radii. */
  predicate Hits(balls: seq<Ball>, k: nat, j: nat)
    requires k < |balls| && j < |balls|
  {
    j != k && Overlaps(balls[k], balls[j])
  }

  /** The number of partners of ball k among the indices lo .. hi-1. */
  function Partners(balls: seq<Ball>, k: nat, lo: nat, hi: nat): (n: nat)
    requires k < |balls| && lo <= hi <= |balls|
    ensures n <= hi - lo
    decreases hi - lo
  {
    if lo == hi then 0
    else (if Hits(balls, k, lo) then 1 else 0) + Partners(balls, k, lo + 1, hi)
  }

  /** Counting partners splits at any intermediate index. */
  lemma {:induction false} PartnersSplit(balls: seq<Ball>, k: nat, lo: nat, mid: nat, hi: nat)
    requires k < |balls| && lo <= mid <= hi <= |balls|
    ensures Partners(balls, k, lo, hi) == Partners(balls, k, lo, mid) + Partners(balls, k, mid, hi)
    decreases mid - lo
  {
    if lo < mid {
      PartnersSplit(balls, k, lo + 1, mid, hi);
    }
  }

  /** An index range holds no partner exactly when the count over it is zero. */
  lemma {:induction false} PartnersZero(balls: seq<Ball>, k: nat, lo: nat, hi: nat)
    requires k < |balls| && lo <= hi <= |balls|
    ensures Partners(balls, k, lo, hi) == 0 <==> forall j :: lo <= j < hi ==> !Hits(balls, k, j)
    decreases hi - lo
  {
    if lo < hi {
      PartnersZero(balls, k, lo + 1, hi);
    }
  }

  /** Partners depend only on positions and radii, never on colours. */
  lemma {:induction false} PartnersIgnoreColor(a: seq<Ball>, b: seq<Ball>, k: nat, lo: nat, hi: nat)
    requires |a| == |b| && k < |a| && lo <= hi <= |a|
    requires forall j :: 0 <= j < |a| ==> SameMotion(a[j], b[j])
    ensures Partners(a, k, lo, hi) == Partners(b, k, lo, hi)
    decreases hi - lo
  {
    if lo < hi {
      OverlapsIgnoresColor(a[k], a[lo], b[k], b[lo]);
      PartnersIgnoreColor(a, b, k, lo + 1, hi);
    }
  }

  /** The partner relation is symmetric, and no ball is its own partner,
      even though a ball with a positive radius overlaps itself. */
  lemma HitsSymmetric(balls: seq<Ball>, k: nat, j: nat)
    requires k < |balls| && j < |balls|
    ensures Hits(balls, k, j) <==> Hits(balls, j, k)
    ensures !Hits(balls, k, k)
    ensures balls[k].size > 0 ==> Overlaps(balls[k], balls[k])
  {
  }

  /** Both balls of a colliding pair get the same new colour. */
  function Recolor(s: Sim, k: nat, j: nat, c: Color): (r: Sim)
    requires k < |s.balls| && j < |s.balls|
    ensures |r.balls| == |s.balls| && r.width == s.width && r.height == s.height
    ensures r.drawn == s.drawn
    ensures r.balls[k].color == c && r.balls[j].color == c
    ensures forall m :: 0 <= m < |s.balls| ==> SameMotion(r.balls[m], s.balls[m])
    ensures forall m :: 0 <= m < |s.balls| && m != k && m != j ==> r.balls[m] == s.balls[m]
  {
    s.(balls := s.balls[j := s.balls[j].(color := c)][k := s.balls[k].(color := c)])
  }

  /** The loop of `detectCollision` for ball k, from index i to the end.
      Each partner found is recoloured at once, together with ball k, to the
      next colour of the stream. */
  function Scan(s: Sim, k: nat, i: nat, stream: ColorStream): (r: Sim)
    requires k < |s.balls| && i <= |s.balls|
    ensures |r.balls| == |s.balls| && r.width == s.width && r.height == s.height
    ensures forall j :: 0 <= j < |s.balls| ==> SameMotion(r.balls[j], s.balls[j])
    ensures r.drawn == s.drawn + Partners(s.balls, k, i, |s.balls|)
    ensures forall j :: 0 <= j < i && j != k ==> r.balls[j] == s.balls[j]
    ensures forall j :: i <= j < |s.balls| && j != k ==>
              r.balls[j].color == (if Hits(s.balls, k, j) then stream(s.drawn + Partners(s.balls, k, i, j))
                                   else s.balls[j].color)
    ensures r.balls[k].color == (if r.drawn == s.drawn then s.balls[k].color else stream(r.drawn - 1))
    decreases |s.balls| - i
  {
    if i == |s.balls| then s
    else if Hits(s.balls, k, i) then
      var s' := Recolor(s, k, i, stream(s.drawn)).(drawn := s.drawn + 1);
      var next := i + 1;
      assert forall j :: next <= j <= |s.balls| ==> Partners(s'.balls, k, next, j) == Partners(s.balls, k, next, j) by {
        forall j | next <= j <= |s.balls| {
          PartnersIgnoreColor(s'.balls, s.balls, k, next, j);
        }
      }
      assert forall j :: i < j < |s.balls| ==> (Hits(s'.balls, k, j) <==> Hits(s.balls, k, j)) by {
        forall j | i < j < |s.balls| {
          OverlapsIgnoresColor(s'.balls[k], s'.balls[j], s.balls[k], s.balls[j]);
        }
      }
      Scan(s', k, next, stream)
    else
      Scan(s, k, i + 1, stream)
  }

  /** `Ball.detectCollision` for the ball at index k.

      Only colours change. Every partner of k is recoloured to the colour k
      takes at the moment the partner is found, one stream colour per partner,
      taken in index order; every other ball is left alone. Afterwards k has
      the colour of its last recolouring, and a ball with no partner leaves
      the whole state unchanged. */
  function DetectCollision(s: Sim, k: nat, stream: ColorStream): (r: Sim)
    requires k < |s.balls|
    ensures |r.balls| == |s.balls| && r.width == s.width && r.height == s.height
    ensures forall j :: 0 <= j < |s.balls| ==> SameMotion(r.balls[j], s.balls[j])
    ensures r.drawn == s.drawn + Partners(s.balls, k, 0, |s.balls|)
    ensures forall j :: 0 <= j < |s.balls| && j != k ==>
              r.balls[j].color == (if Hits(s.balls, k, j) then stream(s.drawn + Partners(s.balls, k, 0, j))
                                   else s.balls[j].color)
    ensures r.balls[k].color == (if r.drawn == s.drawn then s.balls[k].color else stream(r.drawn - 1))
    ensures (forall j :: 0 <= j < |s.balls| ==> !Hits(s.balls, k, j)) ==> r == s
  {
    var r := Scan(s, k, 0, stream);
    PartnersZero(s.balls, k, 0, |s.balls|);
    assert (forall j :: 0 <= j < |s.balls| ==> !Hits(s.balls, k, j)) ==> r.balls == s.balls;
    r
  }

  /** After the check of ball k, k and its last partner in index order share
      a colour: the one drawn for that last partner. */
  lemma LastPartnerSharesColor(s: Sim, k: nat, j: nat, stream: ColorStream)
    requires k < |s.balls| && j < |s.balls|
    requires Hits(s.balls, k, j)
    requires forall m :: j < m < |s.balls| ==> !Hits(s.balls, k, m)
    ensures DetectCollision(s, k, stream).balls[j].color == DetectCollision(s, k, stream).balls[k].color
    ensures DetectCollision(s, k, stream).balls[k].color == stream(s.drawn + Partners(s.balls, k, 0, j))
  {
    var n := |s.balls|;
    PartnersSplit(s.balls, k, 0, j, n);
    PartnersZero(s.balls, k, j + 1, n);
    assert Partners(s.balls, k, j, n) == 1;
  }

  /** A ball alone in the viewport is never recoloured by its own check, even
      though with a positive radius it overlaps itself (`HitsSymmetric`): the
      check skips the ball's own index, draws no colour and changes nothing. */
  lemma LoneBallUnchanged(b: Ball, width: int, height: int, drawn: nat, stream: ColorStream)
    ensures DetectCollision(Sim([b], width, height, drawn), 0, stream) == Sim([b], width, height, drawn)
  {
  }

  /** A colliding pair does not always end the check sharing a colour: when
      ball 0 overlaps both balls 1 and 2, ball 1 keeps the first colour and
      balls 0 and 2 take the second. */
  lemma PairMayEndWithDifferentColors()
    ensures var b := Ball(100, 100, 0, 0, "rgb(0,0,0)", 10);
            var s := Sim([b, b, b], 640, 480, 0);
            var stream: ColorStream := n => if n == 0 then "rgb(1,1,1)" else "rgb(2,2,2)";
            var r := DetectCollision(s, 0, stream);
            Overlaps(r.balls[0], r.balls[1]) && r.balls[0].color != r.balls[1].color
  {
  }
}
