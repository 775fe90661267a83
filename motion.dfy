/** The per-tick kinematics of `Point.update` in sim.py, on values: the
    early exit, the arrival reset, the choice of thrust, the integration
    step and the bounce off the walls. The index and the collision scan
    are in module Sim. */
module Motion {
  import opened Geometry
  import opened Defaults

  /** Python's `** .5`. It is the only floating-point operation the model
      does not spell out, so every function that takes a root takes it as
      this parameter and nothing is assumed about it. */
  type Sqrt = real -> real

  /** `distance(a, b)`. */
  function Distance(a: Vec, b: Vec, sqrt: Sqrt): real
  {
    sqrt(SqDist(b, a))
  }

  lemma ScaleByOwnLength(a: real, d: real, scale: real)
    requires d != 0.0
    ensures a == d ==> (a / d) * scale == scale
  {
  }

  /** `norm(v, scale)`: `v` rescaled to length `scale`, or (0, 0) when the
      computed length of `v` is zero. A vector along the positive x axis
      whose computed length is exact becomes (scale, 0). */
  function Norm(v: Vec, scale: real, sqrt: Sqrt): (r: Vec)
    ensures scale == 0.0 ==> r == Vec(0.0, 0.0)
    ensures Length(v, sqrt) == 0.0 ==> r == Vec(0.0, 0.0)
    ensures v.y == 0.0 && v.x > 0.0 && Length(v, sqrt) == v.x ==> r == Vec(scale, 0.0)
  {
    var d := Length(v, sqrt);
    if d == 0.0 then Vec(0.0, 0.0)
    else
      ScaleByOwnLength(v.x, d, scale);
      Vec((v.x / d) * scale, (v.y / d) * scale)
  }

  /** The length `(v_x**2 + v_y**2)**.5` of a vector; of a velocity, the
      speed. */
  function Length(v: Vec, sqrt: Sqrt): real
  {
    sqrt(v.x * v.x + v.y * v.y)
  }

  /** The kinematic state of one agent: position, previous position,
      velocity, thrust, whether it is heading for its goal, the goal, and
      whether it is the agent the user selected. */
  datatype Body = Body(pos: Vec, prev: Vec, vel: Vec, a: real, target: bool, goal: Vec, clicked: bool)

  predicate InWorld(p: Vec)
  {
    0.0 <= p.x <= H as real && 0.0 <= p.y <= W as real
  }

  /** The early exit: an unselected agent with no thrust does nothing. */
  predicate Resting(b: Body)
  {
    !b.clicked && b.a == 0.0
  }

  /** A targeting agent always thrusts at full ACCEL before anything else. */
  function Throttled(b: Body): Body
  {
    if b.target then b.(a := ACCEL) else b
  }

  /** The arrival test, on the throttled state: close to the goal and slow
      while targeting, or nearly still while coasting. */
  predicate Arrives(b: Body, sqrt: Sqrt)
  {
    (b.target && Distance(b.pos, b.goal, sqrt) < 5.0 && Length(b.vel, sqrt) < 7.07)
    || (!b.target && Length(b.vel, sqrt) < 1.0)
  }

  /** The state the arrival reset leaves: not targeting, no thrust, still. */
  function Halted(b: Body): Body
  {
    b.(target := false, a := 0.0, vel := Vec(0.0, 0.0))
  }

  /** An agent stopped by the arrival reset rests on its next tick unless
      the user has selected it. */
  lemma HaltedRests(b: Body)
    requires !b.clicked
    ensures Resting(Halted(b))
  {
  }

  /** `v**2 / (2 * a)`: how far an agent at speed `v` travels while
      thrust `a` brings it to rest. */
  function StoppingDistance(v: real, a: real): real
    requires a != 0.0
  {
    v * v / (2.0 * a)
  }

  /** The braking test: targeting, with stopping distance `v**2 / (2a)`
      beyond the goal and the velocity pointing at the goal. */
  predicate Brakes(b: Body, sqrt: Sqrt)
  {
    b.target && b.a != 0.0
    && StoppingDistance(Length(b.vel, sqrt), b.a) > Distance(b.pos, b.goal, sqrt)
    && CompareUv(Norm(b.vel, 1.0, sqrt), Norm(b.goal.Minus(b.pos), 1.0, sqrt), 0.1).0
  }

  /** The thrust after the braking decision. */
  function Thrust(b: Body, sqrt: Sqrt): real
  {
    if Brakes(b, sqrt) then -(ACCEL as real)
    else if b.target && b.a != 0.0 then ACCEL
    else b.a
  }

  /** A targeting agent thrusts at exactly -ACCEL or ACCEL, braking exactly
      when the braking test holds; a coasting agent keeps its thrust. */
  lemma ThrustChoice(b: Body, sqrt: Sqrt)
    ensures b.target ==> (Thrust(Throttled(b), sqrt) == -(ACCEL as real) <==> Brakes(Throttled(b), sqrt))
    ensures b.target ==> (Thrust(Throttled(b), sqrt) == ACCEL as real <==> !Brakes(Throttled(b), sqrt))
    ensures !b.target ==> Thrust(Throttled(b), sqrt) == b.a
  {
  }

  /** The direction of the thrust, scaled to `acc`: towards the goal when
      targeting, along the last displacement otherwise. */
  function Heading(b: Body, acc: real, sqrt: Sqrt): Vec
  {
    if b.target then Norm(b.goal.Minus(b.pos), acc, sqrt) else Norm(b.pos.Minus(b.prev), acc, sqrt)
  }

  /** A coasting agent whose thrust is zero has no acceleration at all. */
  lemma CoastingHasNoHeading(b: Body, sqrt: Sqrt)
    requires !b.target && b.a == 0.0
    ensures Heading(b, Thrust(Throttled(b), sqrt), sqrt) == Vec(0.0, 0.0)
  {
  }

  /** One integration step with acceleration `acc`, before the walls: the
      previous position becomes the current one. */
  function Integrate(b: Body, acc: Vec): (r: Body)
    ensures r.prev == b.pos && r.a == b.a && r.target == b.target && r.goal == b.goal
  {
    b.(prev := b.pos,
       pos := Vec(b.pos.x + (b.vel.x * DT) + (0.5 * acc.x * DT * DT),
                  b.pos.y + (b.vel.y * DT) + (0.5 * acc.y * DT * DT)),
       vel := Vec(b.vel.x + acc.x * DT, b.vel.y + acc.y * DT))
  }

  /** The step is exact for constant acceleration: the displacement is the
      time step times the mean of the old and the new velocity. */
  lemma IntegrateAverageVelocity(b: Body, acc: Vec)
    ensures var r := Integrate(b, acc);
      r.pos.Minus(b.pos) == Vec((b.vel.x + r.vel.x) * 0.5 * DT, (b.vel.y + r.vel.y) * 0.5 * DT)
  {
  }

  /** How far apart two coordinates are. */
  function Gap(a: real, b: real): real
  {
    Abs(a - b)
  }

  /** The bounce of one axis off the walls 0 and `bound`: the coordinate is
      moved to the nearest point of [0, bound] and, when it had to be
      moved, the velocity on that axis is reversed. */
  function Bounce(p: real, v: real, bound: real): (r: (real, real))
    requires bound >= 0.0
    ensures 0.0 <= r.0 <= bound
    ensures forall z :: 0.0 <= z <= bound ==> Gap(r.0, p) <= Gap(z, p)
    ensures 0.0 <= p <= bound ==> r == (p, v)
    ensures !(0.0 <= p <= bound) ==> r.1 == -v
  {
    if p < 0.0 then (0.0, -v)
    else if p > bound then (bound, -v)
    else (p, v)
  }

  /** The walls, applied to x against H and to y against W. */
  function Walls(b: Body): Body
  {
    var (px, vx) := Bounce(b.pos.x, b.vel.x, H as real);
    var (py, vy) := Bounce(b.pos.y, b.vel.y, W as real);
    b.(pos := Vec(px, py), vel := Vec(vx, vy))
  }

  /** The state after the motion part of one tick (sim.py:70-121), for an
      agent that neither rests nor arrives. */
  function Advance(b: Body, sqrt: Sqrt): (r: Body)
    ensures InWorld(r.pos)
    ensures r.prev == b.pos
    ensures r.goal == b.goal && r.target == b.target && r.clicked == b.clicked
    ensures r.a == Thrust(Throttled(b), sqrt)
  {
    var t := Throttled(b);
    var acc := Thrust(t, sqrt);
    Walls(Integrate(t.(a := acc), Heading(t, acc, sqrt)))
  }

  /** Each axis of the advanced state is the integrated one where that
      stayed inside the world, and is otherwise clamped with its velocity
      reversed; the two axes are handled independently. */
  lemma AdvanceClamps(b: Body, sqrt: Sqrt)
    ensures var t := Throttled(b);
      var acc := Thrust(t, sqrt);
      var m := Integrate(t.(a := acc), Heading(t, acc, sqrt));
      var r := Advance(b, sqrt);
      (0.0 <= m.pos.x <= H as real ==> r.pos.x == m.pos.x && r.vel.x == m.vel.x)
      && (!(0.0 <= m.pos.x <= H as real) ==> r.vel.x == -m.vel.x && (r.pos.x == 0.0 || r.pos.x == H as real))
      && (0.0 <= m.pos.y <= W as real ==> r.pos.y == m.pos.y && r.vel.y == m.vel.y)
      && (!(0.0 <= m.pos.y <= W as real) ==> r.vel.y == -m.vel.y && (r.pos.y == 0.0 || r.pos.y == W as real))
  {
  }

  /** The radius of an agent; two agents overlap within 2 * RAD. */
  const RAD: real := 10.0

  /** The collision response of sim.py:135-145, on the states of the
      moving agent `self` and the agent `other` it overlaps: the second
      pair of `collide(self, other)` becomes the velocity of `self` and the
      first that of `other`; `other` gets -ACCEL if it had no thrust, and is
      pushed along the line from `self` to it by the overlap plus 0.1. */
  function Bumped(self: Body, other: Body, sqrt: Sqrt): (r: (Body, Body))
    requires SqDist(self.pos, other.pos) != 0.0
    ensures r.0 == self.(vel := r.0.vel)
    ensures r.1 == other.(pos := r.1.pos, vel := r.1.vel, a := r.1.a)
    ensures r.0.vel == r.1.vel.Neg()
    ensures r.1.a != 0.0 && !Resting(r.1)
  {
    var v := Collide(self.pos, self.vel, other.pos, other.vel);
    var offset := Distance(self.pos, other.pos, sqrt) - RAD * 2.0;
    var push := Norm(other.pos.Minus(self.pos), 0.1 + offset, sqrt);
    (self.(vel := v.1),
     other.(vel := v.0, a := if other.a == 0.0 then -(ACCEL as real) else other.a, pos := other.pos.Minus(push)))
  }

  /** Agents on one horizontal line: the moving agent takes the negated
      relative x velocity and the other agent the relative x velocity, and
      neither keeps any y velocity. */
  lemma BumpedHeadOn(self: Body, other: Body, sqrt: Sqrt)
    requires self.pos.y == other.pos.y && SqDist(self.pos, other.pos) != 0.0
    ensures Bumped(self, other, sqrt).1.vel == Vec(self.vel.x - other.vel.x, 0.0)
    ensures Bumped(self, other, sqrt).0.vel == Vec(other.vel.x - self.vel.x, 0.0)
  {
    CollideHeadOn(self.pos, self.vel, other.pos, other.vel);
  }

  /** The push leaves the two centres 2 * RAD - 0.1 apart, still inside
      the overlap distance, whatever the overlap was: shown for agents on
      one horizontal line, `other` to the right, with a root that is exact
      on the two values it is asked for. */
  lemma BumpedSeparationOnLine(self: Body, other: Body, sqrt: Sqrt)
    requires self.pos.y == other.pos.y && other.pos.x > self.pos.x
    requires Distance(self.pos, other.pos, sqrt) == other.pos.x - self.pos.x
    requires Length(other.pos.Minus(self.pos), sqrt) == other.pos.x - self.pos.x
    requires SqDist(self.pos, other.pos) != 0.0
    ensures Bumped(self, other, sqrt).1.pos == Vec(self.pos.x + (2.0 * RAD - 0.1), other.pos.y)
  {
  }
}
