/** The pure helpers of sim.py: vectors, the alignment test `compare_uv`
    and the collision terms `collide`. */
module Geometry {

  /** A 2-D vector; sim.py passes these around as (x, y) tuples. */
  datatype Vec = Vec(x: real, y: real) {
    function Minus(o: Vec): Vec { Vec(x - o.x, y - o.y) }
    function Neg(): Vec { Vec(-x, -y) }
  }

  function Abs(r: real): (a: real)
    ensures a >= 0.0 && (a == r || a == -r)
  {
    if r < 0.0 then -r else r
  }

  lemma SquareNonNegative(d: real)
    ensures d * d >= 0.0
  {
    if d < 0.0 {
      assert d * d > 0.0;
    } else if d > 0.0 {
      assert d * d > 0.0;
    }
  }

  /** A quotient of a non-negative real by a real no smaller than it. */
  lemma FractionAtMostOne(n: real, m: real)
    requires 0.0 <= n <= m && m > 0.0
    ensures 0.0 <= n / m <= 1.0
  {
  }

  /** The exact value of `distance(a, b)**2`, with no square root taken. */
  function SqDist(a: Vec, b: Vec): (d2: real)
    ensures d2 >= 0.0
  {
    SquareNonNegative(a.x - b.x);
    SquareNonNegative(a.y - b.y);
    (a.x - b.x) * (a.x - b.x) + (a.y - b.y) * (a.y - b.y)
  }

  /** The squared distance does not depend on the order of its arguments. */
  lemma SqDistSymmetric(a: Vec, b: Vec)
    ensures SqDist(a, b) == SqDist(b, a)
  {
    assert (b.x - a.x) * (b.x - a.x) == (a.x - b.x) * (a.x - b.x);
    assert (b.y - a.y) * (b.y - a.y) == (a.y - b.y) * (a.y - b.y);
  }

  /** `compare_uv(uv1, uv2, error)`: are two unit vectors within `error`
      of each other, measured as the sum of the per-axis differences.
      The second component is that sum. */
  function CompareUv(uv1: Vec, uv2: Vec, error: real): (r: (bool, real))
    ensures r.1 >= 0.0
    ensures r.0 <==> r.1 < error
    ensures r.1 == 0.0 <==> uv1 == uv2
    ensures r.1 >= Abs(uv1.x - uv2.x) && r.1 >= Abs(uv1.y - uv2.y)
  {
    var errSum := Abs(uv1.x - uv2.x) + Abs(uv1.y - uv2.y);
    (errSum < error, errSum)
  }

  /** The test does not depend on the order of its two vectors. */
  lemma CompareUvSymmetric(uv1: Vec, uv2: Vec, error: real)
    ensures CompareUv(uv1, uv2, error) == CompareUv(uv2, uv1, error)
  {
  }

  /** One axis of `collide`: the relative velocity `dv` on that axis, times
      the offset `d` on that axis squared, over the squared distance `d2`. */
  function AxisTerm(dv: real, d: real, d2: real): real
    requires d2 != 0.0
  {
    ((dv * d) / d2) * d
  }

  /** `collide(p1, p2)`: for each agent and each axis, the relative velocity
      on that axis times the squared offset on that axis, over the squared
      distance of the centres. The first pair belongs to p1, the second to
      p2. Python raises ZeroDivisionError when that squared distance is 0,
      which is why it is required to be non-zero. */
  function Collide(pos1: Vec, vel1: Vec, pos2: Vec, vel2: Vec): (r: (Vec, Vec))
    requires SqDist(pos1, pos2) != 0.0
    ensures r.1 == r.0.Neg()
  {
    var d2 := SqDist(pos1, pos2);
    AxisTermOdd(vel1.x - vel2.x, pos1.x - pos2.x, d2);
    AxisTermOdd(vel1.y - vel2.y, pos1.y - pos2.y, d2);
    (Vec(AxisTerm(vel1.x - vel2.x, pos1.x - pos2.x, d2), AxisTerm(vel1.y - vel2.y, pos1.y - pos2.y, d2)),
     Vec(AxisTerm(vel2.x - vel1.x, pos2.x - pos1.x, d2), AxisTerm(vel2.y - vel1.y, pos2.y - pos1.y, d2)))
  }

  /** Reversing both the relative velocity and the offset negates the term. */
  lemma AxisTermOdd(dv: real, d: real, d2: real)
    requires d2 != 0.0
    ensures AxisTerm(-dv, -d, d2) == -AxisTerm(dv, d, d2)
  {
    assert (-dv) * (-d) == dv * d;
  }

  /** Swapping the two agents swaps the two returned pairs. */
  lemma CollideSwap(pos1: Vec, vel1: Vec, pos2: Vec, vel2: Vec)
    requires SqDist(pos1, pos2) != 0.0
    ensures SqDist(pos2, pos1) != 0.0
    ensures Collide(pos2, vel2, pos1, vel1) == (Collide(pos1, vel1, pos2, vel2).1, Collide(pos1, vel1, pos2, vel2).0)
  {
    SqDistSymmetric(pos1, pos2);
  }

  /** On each axis a collision term is never larger than the relative
      velocity on that axis: the squared offset on one axis is at most the
      squared distance of the centres. */
  lemma CollideBounded(pos1: Vec, vel1: Vec, pos2: Vec, vel2: Vec)
    requires SqDist(pos1, pos2) != 0.0
    ensures Abs(Collide(pos1, vel1, pos2, vel2).0.x) <= Abs(vel1.x - vel2.x)
    ensures Abs(Collide(pos1, vel1, pos2, vel2).0.y) <= Abs(vel1.y - vel2.y)
  {
    var d2 := SqDist(pos1, pos2);
    AxisTermBounded(vel1.x - vel2.x, pos1.x - pos2.x, pos1.y - pos2.y, d2);
    AxisTermBounded(vel1.y - vel2.y, pos1.y - pos2.y, pos1.x - pos2.x, d2);
  }

  /** With `d` the offset on one axis and `e` the offset on the other, the
      term is `dv` scaled by a weight in [0, 1]. */
  lemma AxisTermBounded(dv: real, d: real, e: real, d2: real)
    requires d2 != 0.0 && (d2 == d * d + e * e || d2 == e * e + d * d)
    ensures Abs(AxisTerm(dv, d, d2)) <= Abs(dv)
  {
    SquareNonNegative(d);
    SquareNonNegative(e);
    assert d2 > 0.0 && d * d <= d2;
    var w := (d * d) / d2;
    FractionAtMostOne(d * d, d2);
    assert AxisTerm(dv, d, d2) == dv * w;
    if dv >= 0.0 {
      assert 0.0 <= dv * w <= dv;
    } else {
      assert dv <= dv * w <= 0.0;
    }
  }

  /** When the two centres lie on one line parallel to the x axis, the
      whole relative x velocity goes into the x term and nothing into the
      y term. */
  lemma CollideHeadOn(pos1: Vec, vel1: Vec, pos2: Vec, vel2: Vec)
    requires pos1.y == pos2.y && SqDist(pos1, pos2) != 0.0
    ensures Collide(pos1, vel1, pos2, vel2).0 == Vec(vel1.x - vel2.x, 0.0)
  {
    var dx := pos1.x - pos2.x;
    assert SqDist(pos1, pos2) == dx * dx;
    assert ((vel1.x - vel2.x) * dx / (dx * dx)) * dx == vel1.x - vel2.x;
  }

  /** Two agents on one horizontal line approaching each other at equal
      speed `s`: the first pair of `collide` is the full relative velocity
      (2s, 0). A caller that assigns the pairs as the new velocities sends
      them apart at speed 2s instead of exchanging their velocities. */
  lemma CollideApproachingPair(pos1: Vec, pos2: Vec, s: real)
    requires pos1.y == pos2.y && SqDist(pos1, pos2) != 0.0
    ensures Collide(pos1, Vec(s, 0.0), pos2, Vec(-s, 0.0)) == (Vec(2.0 * s, 0.0), Vec(-2.0 * s, 0.0))
  {
    CollideHeadOn(pos1, Vec(s, 0.0), pos2, Vec(-s, 0.0));
  }
}
