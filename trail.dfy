/** The trail of past positions drawn behind the body: a FIFO buffer of at
    most 5000 points whose opacities are recomputed from their index on
    every tick. */
module Trail {
  import opened MathModel
  import opened Physics

  /** Maximum number of points kept. */
  const Capacity: nat := 5000
  /** Exponent of the fade curve. */
  const FadeExponent: real := 0.7

  datatype TrailPoint = TrailPoint(x: real, y: real, alpha: real)

  /** The positions of a trail, oldest first, without their opacities. */
  function Positions(t: seq<TrailPoint>): (ps: seq<Vec>)
    ensures |ps| == |t|
    ensures forall i :: 0 <= i < |t| ==> ps[i] == Vec(t[i].x, t[i].y)
  {
    if t == [] then [] else Positions(t[..|t| - 1]) + [Vec(t[|t| - 1].x, t[|t| - 1].y)]
  }

  /** Appending a point and, when that takes the trail over capacity,
      dropping the oldest one. */
  function Push(t: seq<TrailPoint>, p: TrailPoint): (r: seq<TrailPoint>)
    ensures |r| == if |t| < Capacity then |t| + 1 else |t|
    ensures r[|r| - 1] == p
    ensures r[..|r| - 1] == t[|t| + 1 - |r|..]
  {
    var grown := t + [p];
    if |grown| > Capacity then grown[1..] else grown
  }

  /** A trail within capacity stays within capacity and grows by one until it
      is full; the new point is the newest; at most the single oldest point
      is evicted, and every surviving point keeps its relative order. */
  lemma PushFifo(t: seq<TrailPoint>, p: TrailPoint)
    requires |t| <= Capacity
    ensures |Push(t, p)| == if |t| < Capacity then |t| + 1 else Capacity
    ensures Push(t, p)[|Push(t, p)| - 1] == p
    ensures |t| < Capacity ==> Push(t, p)[..|t|] == t
    ensures |t| == Capacity ==> Push(t, p)[..|t| - 1] == t[1..]
  {
  }

  /** The fade argument of point `i` of `n`: its index as a fraction of the
      trail length. It is zero for the oldest point, below one for every
      point, and strictly increasing along the trail. */
  function FadeArg(i: nat, n: nat): (f: real)
    requires i < n
    ensures 0.0 <= f < 1.0
    ensures i == 0 ==> f == 0.0
  {
    i as real / n as real
  }

  lemma FadeArgIncreasing(i: nat, j: nat, n: nat)
    requires i < j < n
    ensures FadeArg(i, n) < FadeArg(j, n)
  {
  }

  /** The trail with every opacity recomputed from its position in the trail:
      point `i` of `n` gets `pow(i / n, 0.7)`. */
  function Refade(t: seq<TrailPoint>, m: MathLib): (r: seq<TrailPoint>)
    ensures |r| == |t|
    ensures Positions(r) == Positions(t)
    ensures forall i :: 0 <= i < |t| ==> r[i].alpha == m.pow(FadeArg(i, |t|), FadeExponent)
  {
    var r := seq(|t|, i requires 0 <= i < |t| => t[i].(alpha := m.pow(FadeArg(i, |t|), FadeExponent)));
    assert forall i :: 0 <= i < |t| ==> Positions(r)[i] == Positions(t)[i];
    r
  }

  /** A trail whose points are those of `t` with the opacities of `Refade`
      is `Refade(t, m)`. */
  lemma RefadeAt(t: seq<TrailPoint>, m: MathLib, u: seq<TrailPoint>)
    requires |u| == |t|
    requires forall j :: 0 <= j < |t| ==> u[j] == t[j].(alpha := m.pow(FadeArg(j, |t|), FadeExponent))
    ensures u == Refade(t, m)
  {
  }

  /** Whether `pow(·, e)` is non-decreasing on non-negative bases, as the
      real power function is for a positive exponent. */
  ghost predicate MonotoneOnBase(m: MathLib, e: real)
  {
    forall a: real, b: real :: 0.0 <= a <= b ==> m.pow(a, e) <= m.pow(b, e)
  }

  /** When the power function is monotone, the opacities of a refaded trail
      never decrease from the oldest point to the newest. */
  lemma FadeNonDecreasing(t: seq<TrailPoint>, m: MathLib, i: nat, j: nat)
    requires MonotoneOnBase(m, FadeExponent)
    requires i <= j < |t|
    ensures Refade(t, m)[i].alpha <= Refade(t, m)[j].alpha
  {
    if i < j {
      FadeArgIncreasing(i, j, |t|);
    }
  }

  /** The trail after one tick that records position `p`: the positions
      slide by one, and every opacity is recomputed from the new length. */
  function Record(t: seq<TrailPoint>, p: Vec, m: MathLib): (r: seq<TrailPoint>)
    ensures Positions(r) == Slide(Positions(t), p)
    ensures forall i :: 0 <= i < |r| ==> r[i].alpha == m.pow(FadeArg(i, |r|), FadeExponent)
  {
    PositionsOfPush(t, TrailPoint(p.x, p.y, 1.0));
    Refade(Push(t, TrailPoint(p.x, p.y, 1.0)), m)
  }

  /** The trail built by recording the positions of `h` in order, starting
      from an empty trail. */
  function TrailOf(h: seq<Vec>, m: MathLib): seq<TrailPoint>
  {
    if h == [] then [] else Record(TrailOf(h[..|h| - 1], m), h[|h| - 1], m)
  }

  /** The newest `Capacity` entries of a history (all of it if shorter). */
  function Window(h: seq<Vec>): (w: seq<Vec>)
    ensures |w| <= Capacity
  {
    if |h| <= Capacity then h else h[|h| - Capacity..]
  }

  /** The position-only view of a push: append, then drop the oldest entry
      when that exceeds the capacity. */
  function Slide(w: seq<Vec>, p: Vec): seq<Vec>
  {
    var grown := w + [p];
    if |grown| > Capacity then grown[1..] else grown
  }

  lemma PositionsOfPush(t: seq<TrailPoint>, q: TrailPoint)
    ensures Positions(Push(t, q)) == Slide(Positions(t), Vec(q.x, q.y))
  {
    var grown := Positions(t) + [Vec(q.x, q.y)];
    assert Positions(t + [q]) == grown;
    if |grown| > Capacity {
      assert Positions((t + [q])[1..]) == grown[1..];
    }
  }

  /** Adding one position to a history slides its window by one. */
  lemma WindowStep(h: seq<Vec>)
    requires h != []
    ensures Window(h) == Slide(Window(h[..|h| - 1]), h[|h| - 1])
  {
    var prev := h[..|h| - 1];
    assert prev + [h[|h| - 1]] == h;
    if |h| > Capacity + 1 {
      assert Window(prev) + [h[|h| - 1]] == h[|h| - 1 - Capacity..];
    }
  }

  /** However many ticks have run, the trail holds exactly the most recent
      positions, at most 5000 of them, oldest first. */
  lemma {:induction false} TrailIsWindow(h: seq<Vec>, m: MathLib)
    ensures Positions(TrailOf(h, m)) == Window(h)
  {
    if h != [] {
      var prev := h[..|h| - 1];
      var q := TrailPoint(h[|h| - 1].x, h[|h| - 1].y, 1.0);
      TrailIsWindow(prev, m);
      PositionsOfPush(TrailOf(prev, m), q);
      WindowStep(h);
    }
  }
}
