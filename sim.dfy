/** The agents of sim.py and the spatial hash that indexes them. */
module Sim {
  import opened Geometry
  import opened Defaults
  import opened Cells
  import opened Motion

  /** What one call of `Point.update` did. */
  datatype Step =
    | Idle                          // the early exit
    | Arrived                       // the arrival reset
    | Travelled                     // moved, overlapped nobody, re-indexed
    | Collided(other: Point)        // moved, bumped `other`, re-indexed
    | DivisionByZero(other: Point)  // `collide` raised: `other` has the same centre

  /** One agent. Field names follow the roles of sim.py's attributes:
      (x, y) is `x_i, y_i`, (prevX, prevY) is `x_i_1, y_i_1` and
      (goalX, goalY) is `x_f, y_f`. */
  class Point {
    var clicked: bool
    var near: bool
    var x: real
    var y: real
    var prevX: real
    var prevY: real
    var target: bool
    var goalX: real
    var goalY: real
    var a: real
    var vx: real
    var vy: real

    function Pos(): Vec
      reads this
    {
      Vec(x, y)
    }

    function Vel(): Vec
      reads this
    {
      Vec(vx, vy)
    }

    /** The fields `update` reads and writes, as one value. */
    function State(): Body
      reads this
    {
      Body(Vec(x, y), Vec(prevX, prevY), Vec(vx, vy), a, target, Vec(goalX, goalY), clicked)
    }

    /** A new agent at rest at (x0, y0), its goal drawn by the caller
        (sim.py draws it with `random.randint(0, H)` and `(0, W)`). */
    constructor (x0: real, y0: real, goalX0: int, goalY0: int)
      requires 0 <= goalX0 <= H && 0 <= goalY0 <= W
      ensures State() == Body(Vec(x0, y0), Vec(x0, y0), Vec(0.0, 0.0), 0.0, false,
                              Vec(goalX0 as real, goalY0 as real), false)
      ensures !near
    {
      clicked := false;
      near := false;
      x, y := x0, y0;
      prevX, prevY := x0, y0;
      target := false;
      goalX, goalY := goalX0 as real, goalY0 as real;
      a := 0.0;
      vx, vy := 0.0, 0.0;
    }

    /** This agent and `q` overlap: their centres are at most 2 * RAD apart. */
    predicate Overlaps(q: Point, sqrt: Sqrt)
      reads this, q
    {
      Distance(Pos(), q.Pos(), sqrt) <= 2.0 * RAD
    }

    /** The motion part of `update` (sim.py:70-121) for an agent past the
        early exit: throttle, the arrival reset, the braking decision, one
        integration step, the walls. */
    method Kinematics(sqrt: Sqrt) returns (arrived: bool)
      modifies this
      ensures arrived <==> Arrives(Throttled(old(State())), sqrt)
      ensures arrived ==> State() == Halted(Throttled(old(State())))
      ensures !arrived ==> State() == Advance(old(State()), sqrt)
      ensures near == old(near)
    {
      if target {
        a := ACCEL;
      }
      arrived := Arrival(sqrt);
      if arrived {
        return;
      }
      ghost var t := State();
      var acc := Steer(sqrt);
      assert acc == Heading(t, Thrust(t, sqrt), sqrt);
      Step(acc);
      BounceOffWalls();
    }

    /** The arrival test and reset (sim.py:73-81). */
    method Arrival(sqrt: Sqrt) returns (arrived: bool)
      modifies this
      ensures arrived <==> Arrives(old(State()), sqrt)
      ensures State() == if arrived then Halted(old(State())) else old(State())
      ensures near == old(near)
    {
      var d := Distance(Vec(x, y), Vec(goalX, goalY), sqrt);
      var v := Length(Vec(vx, vy), sqrt);
      if (target && d < 5.0 && v < 7.07) || (!target && v < 1.0) {
        target := false;
        a := 0.0;
        vx, vy := 0.0, 0.0;
        return true;
      }
      return false;
    }

    /** The braking decision (sim.py:84-89): brake at -ACCEL, or else
        thrust at ACCEL, while heading for the goal with non-zero thrust. */
    method Throttle(sqrt: Sqrt)
      modifies this
      ensures State() == old(State()).(a := Thrust(old(State()), sqrt))
      ensures near == old(near)
    {
      ghost var s0 := State();
      var d := Distance(Vec(x, y), Vec(goalX, goalY), sqrt);
      var v := Length(Vec(vx, vy), sqrt);
      var toGoal := Vec(goalX - x, goalY - y);
      assert d == Distance(s0.pos, s0.goal, sqrt) && v == Length(s0.vel, sqrt);
      assert toGoal == s0.goal.Minus(s0.pos) && Vec(vx, vy) == s0.vel;
      var brake := target && a != 0.0 && StoppingDistance(v, a) > d
                   && CompareUv(Norm(Vec(vx, vy), 1.0, sqrt), Norm(toGoal, 1.0, sqrt), 0.1).0;
      assert brake == Brakes(s0, sqrt);
      if brake {
        a := -(ACCEL as real);
      } else if target && a != 0.0 {
        a := ACCEL;
      }
    }

    /** The braking decision, then the direction of the thrust
        (sim.py:84-95): toward the goal, or else along the last step. */
    method Steer(sqrt: Sqrt) returns (acc: Vec)
      modifies this
      ensures State() == old(State()).(a := Thrust(old(State()), sqrt))
      ensures acc == Heading(old(State()), a, sqrt)
      ensures near == old(near)
    {
      Throttle(sqrt);
      if target {
        acc := Norm(Vec(goalX - x, goalY - y), a, sqrt);
      } else {
        acc := Norm(Vec(x - prevX, y - prevY), a, sqrt);
      }
    }

    /** Saving the previous position and one integration step
        (sim.py:98-106). */
    method Step(acc: Vec)
      modifies this
      ensures State() == Integrate(old(State()), acc)
      ensures near == old(near)
    {
      prevX, prevY := x, y;
      x := x + (vx * DT) + (0.5 * acc.x * DT * DT);
      y := y + (vy * DT) + (0.5 * acc.y * DT * DT);
      vx := vx + acc.x * DT;
      vy := vy + acc.y * DT;
    }

    /** The bounce off the edges (sim.py:109-121). */
    method BounceOffWalls()
      modifies this
      ensures State() == Walls(old(State()))
      ensures near == old(near)
    {
      if x < 0.0 {
        x := 0.0;
        vx := -vx;
      } else if x > H as real {
        x := H as real;
        vx := -vx;
      }
      if y < 0.0 {
        y := 0.0;
        vy := -vy;
      } else if y > W as real {
        y := W as real;
        vy := -vy;
      }
    }

    /** One tick of `update` (sim.py:66-148), on the shared index `m`. The
        block of the agent's key lies inside the grid, which is the grid
        built for the world's size; the agent itself may lie outside the
        world, where a push can leave it. Only this agent and, on a collision, the agent it
        bumped change; only this agent is re-indexed. */
    method Update(m: Map, sqrt: Sqrt) returns (step: Step)
      requires m.Valid() && m.pxpy.Length0 == W / m.sub + 2 && m.pxpy.Length1 == H / m.sub + 2
      requires m.Fits(m.KeyOf(y, x))
      modifies this, m, m.pxpy, m.Agents
      ensures m.Valid() && near == old(near)
      ensures forall q :: q in old(m.Agents) && q != this && !(step.Collided? && q == step.other) ==> unchanged(q)
      // the early exit
      ensures step.Idle? <==> Resting(old(State()))
      ensures step.Idle? ==> unchanged(this)
      // the arrival reset
      ensures !step.Idle? ==> (step.Arrived? <==> Arrives(Throttled(old(State())), sqrt))
      ensures step.Arrived? ==> State() == Halted(Throttled(old(State())))
      ensures step.Idle? || step.Arrived? ==> unchanged(m, m.pxpy)
      // the move, and the collision response from the advanced state
      ensures step.Travelled? || step.DivisionByZero? ==> State() == Advance(old(State()), sqrt)
      ensures step.Collided? ==> step.other in old(m.Agents) && step.other != this
      ensures step.Collided? ==>
        SqDist(Advance(old(State()), sqrt).pos, old(step.other.Pos())) != 0.0
        && (State(), step.other.State()) == Bumped(Advance(old(State()), sqrt), old(step.other.State()), sqrt)
        && step.other.near == old(step.other.near)
      ensures step.Travelled? || step.Collided? || step.DivisionByZero? ==> InWorld(Pos()) && m.Fits(m.KeyOf(y, x))
      // the scan, over the buckets as the tick found them
      ensures step.Travelled? ==>
        var k := m.KeyOf(y, x);
        forall q :: q in old(m.Group(k)) && q != this ==> Distance(Advance(old(State()), sqrt).pos, old(q.Pos()), sqrt) > 2.0 * RAD
      ensures step.Collided? || step.DivisionByZero? ==>
        var k := m.KeyOf(y, x);
        step.other in old(m.Group(k)) && step.other != this
        && Distance(Advance(old(State()), sqrt).pos, old(step.other.Pos()), sqrt) <= 2.0 * RAD
      ensures step.DivisionByZero? ==> SqDist(Pos(), step.other.Pos()) == 0.0 && unchanged(m, m.pxpy)
      // the re-index
      ensures step.Travelled? || step.Collided? ==>
        m.Reindexed(this, m.KeyOf(old(y), old(x)), m.KeyOf(y, x), true) && m.Agents == old(m.Agents) + {this}
    {
      if !clicked && a == 0.0 {
        return Idle;
      }
      var arrived := Kinematics(sqrt);
      if arrived {
        return Arrived;
      }
      KeysInRange(y, x, m.sub, W, H);
      var collision := Scan(m, sqrt);
      step := Resolve(m, collision, sqrt);
    }

    /** What the scan found decides the rest of `update` (sim.py:131-148):
        no overlapping neighbour, and the agent is re-indexed; a neighbour,
        and it is hit. */
    method Resolve(m: Map, collision: Point?, sqrt: Sqrt) returns (step: Step)
      requires m.Valid() && m.Fits(m.KeyOf(y, x)) && m.Fits(m.KeyOf(prevY, prevX))
      requires collision != null ==> collision in m.Agents && collision != this
      modifies this, m, m.pxpy, m.Agents
      ensures m.Valid() && near == old(near) && Pos() == old(Pos())
      ensures collision == null ==> step == Travelled
      ensures collision != null ==> step == Collided(collision) || step == DivisionByZero(collision)
      ensures forall q :: q in old(m.Agents) && q != this && !(step.Collided? && q == step.other) ==> unchanged(q)
      ensures !step.Collided? ==> unchanged(this)
      ensures step.DivisionByZero? ==> SqDist(Pos(), step.other.Pos()) == 0.0 && unchanged(m, m.pxpy)
      ensures step.Collided? ==>
        SqDist(old(Pos()), old(step.other.Pos())) != 0.0
        && (State(), step.other.State()) == Bumped(old(State()), old(step.other.State()), sqrt)
        && step.other.near == old(step.other.near)
      ensures step.Travelled? || step.Collided? ==>
        m.Reindexed(this, m.KeyOf(prevY, prevX), m.KeyOf(y, x), true) && m.Agents == old(m.Agents) + {this}
    {
      if collision == null {
        m.Insert(this);
        return Travelled;
      }
      step := Hit(m, collision, sqrt);
    }

    /** The rest of `update` once the scan found `c` (sim.py:135-148): an
        agent at the very same centre, where `collide` raises, or an agent
        to bump, after which this agent alone is re-indexed. */
    method Hit(m: Map, c: Point, sqrt: Sqrt) returns (step: Step)
      requires m.Valid() && m.Fits(m.KeyOf(y, x)) && m.Fits(m.KeyOf(prevY, prevX))
      requires c in m.Agents && c != this
      modifies this, c, m, m.pxpy
      ensures m.Valid() && near == old(near) && Pos() == old(Pos())
      ensures step == Collided(c) || step == DivisionByZero(c)
      ensures step.DivisionByZero? ==>
        SqDist(Pos(), c.Pos()) == 0.0 && unchanged(this) && unchanged(c) && unchanged(m, m.pxpy)
      ensures step.Collided? ==>
        SqDist(old(Pos()), old(c.Pos())) != 0.0
        && (State(), c.State()) == Bumped(old(State()), old(c.State()), sqrt) && c.near == old(c.near)
        && m.Reindexed(this, m.KeyOf(prevY, prevX), m.KeyOf(y, x), true) && m.Agents == old(m.Agents) + {this}
    {
      if SqDist(Pos(), c.Pos()) == 0.0 {
        return DivisionByZero(c);
      }
      Respond(m, c, sqrt);
      return Collided(c);
    }

    /** The collision branch of sim.py:135-148: the bump, then the re-index
        of this agent alone. */
    method Respond(m: Map, c: Point, sqrt: Sqrt)
      requires m.Valid() && m.Fits(m.KeyOf(y, x)) && m.Fits(m.KeyOf(prevY, prevX))
      requires c != this && SqDist(Pos(), c.Pos()) != 0.0
      modifies this, c, m, m.pxpy
      ensures m.Valid() && m.Agents == old(m.Agents) + {this}
      ensures (State(), c.State()) == Bumped(old(State()), old(c.State()), sqrt)
      ensures near == old(near) && c.near == old(c.near)
      ensures m.Reindexed(this, m.KeyOf(prevY, prevX), m.KeyOf(y, x), true)
    {
      Bump(c, sqrt);
      m.Insert(this);
    }

    /** The scan of sim.py:124-130: the agents of the block around this
        agent's position, less this agent, tried for an overlap. */
    method Scan(m: Map, sqrt: Sqrt) returns (collision: Point?)
      requires m.Valid() && m.Fits(m.KeyOf(y, x))
      ensures m.Group(m.KeyOf(y, x)) <= m.Agents
      ensures collision == null ==> forall q :: q in m.Group(m.KeyOf(y, x)) && q != this ==> !Overlaps(q, sqrt)
      ensures collision != null ==>
        collision in m.Group(m.KeyOf(y, x)) && collision in m.Agents && collision != this && Overlaps(collision, sqrt)
    {
      var potential := m.GetGroup(y, x);
      potential := potential - {this};
      collision := FindCollision(potential, sqrt);
    }

    /** The collision response (sim.py:135-145): the two pairs of
        `collide(self, c)` become the new velocities, the second pair this
        agent's and the first `c`'s; a `c` without thrust gets -ACCEL; `c`
        is pushed along the line of centres. `c` is not re-indexed. */
    method Bump(c: Point, sqrt: Sqrt)
      requires c != this && SqDist(Pos(), c.Pos()) != 0.0
      modifies this, c
      ensures (State(), c.State()) == Bumped(old(State()), old(c.State()), sqrt)
      ensures near == old(near) && c.near == old(c.near)
    {
      ghost var self0, c0 := State(), c.State();
      ghost var r := Bumped(self0, c0, sqrt);
      var (v2, v1) := Collide(Pos(), Vel(), c.Pos(), c.Vel());
      assert r.0.vel == v1 && r.1.vel == v2;
      vx, vy := v1.x, v1.y;
      c.vx, c.vy := v2.x, v2.y;
      if c.a == 0.0 {
        c.a := -(ACCEL as real);
      }
      var offset := Distance(Pos(), c.Pos(), sqrt) - RAD * 2.0;
      var offsets := Norm(c.Pos().Minus(Pos()), 0.1 + offset, sqrt);
      assert offsets == Norm(c0.pos.Minus(self0.pos), 0.1 + (Distance(self0.pos, c0.pos, sqrt) - RAD * 2.0), sqrt);
      c.x, c.y := c.x - offsets.x, c.y - offsets.y;
      assert State() == r.0;
      assert c.State() == r.1;
    }

    /** The scan for the first overlapping neighbour; sim.py iterates over
        a set, so the order in which candidates are tried is not fixed. */
    method FindCollision(potential: set<Point>, sqrt: Sqrt) returns (collision: Point?)
      ensures collision == null ==> forall q :: q in potential ==> !Overlaps(q, sqrt)
      ensures collision != null ==> collision in potential && Overlaps(collision, sqrt)
    {
      collision := null;
      var rest := potential;
      while rest != {}
        invariant rest <= potential
        invariant forall q :: q in potential - rest ==> !Overlaps(q, sqrt)
        decreases |rest|
      {
        var obj :| obj in rest;
        if Overlaps(obj, sqrt) {
          collision := obj;
          break;
        }
        rest := rest - {obj};
      }
    }
  }

  /** The spatial hash. sim.py builds one grid of sets and makes its other
      three "maps" shallow copies of it, which share every row and every
      set; the four views here are four names for one array, and Valid()
      records that they alias. */
  class Map {
    const sub: nat
    const pxpy: array2<set<Point>>
    const pxny: array2<set<Point>>
    const nxpy: array2<set<Point>>
    const nxny: array2<set<Point>>

    /** Every agent ever filed; each bucket holds only these. */
    ghost var Agents: set<Point>

    ghost predicate Valid()
      reads this, pxpy
    {
      sub > 0 && pxny == pxpy && nxpy == pxpy && nxny == pxpy
      && forall i, j :: 0 <= i < pxpy.Length0 && 0 <= j < pxpy.Length1 ==> pxpy[i, j] <= Agents
    }

    /** `Map(size, subdivide)`: `size.0 // subdivide + 2` rows (indexed by
        y) of `size.1 // subdivide + 2` empty buckets (indexed by x). */
    constructor (size: (nat, nat), subdivide: nat := 100)
      requires subdivide > 0
      ensures Valid() && fresh(pxpy)
      ensures sub == subdivide
      ensures pxpy.Length0 == size.0 / subdivide + 2 && pxpy.Length1 == size.1 / subdivide + 2
      ensures forall i, j :: 0 <= i < pxpy.Length0 && 0 <= j < pxpy.Length1 ==> pxpy[i, j] == {}
      ensures Agents == {}
    {
      var grid := new set<Point>[size.0 / subdivide + 2, size.1 / subdivide + 2]((i, j) => {});
      pxpy := grid;
      pxny := grid;
      nxpy := grid;
      nxny := grid;
      sub := subdivide;
      Agents := {};
    }

    /** The key of a position. */
    function KeyOf(y: real, x: real): Key
      requires sub > 0
    {
      CellOf(y, x, sub)
    }

    /** The whole block of `n` is inside the grid. */
    predicate Fits(n: Key)
    {
      BlockFits(n, pxpy.Length0, pxpy.Length1)
    }

    predicate InGrid(c: Key)
    {
      0 <= c.0 < pxpy.Length0 && 0 <= c.1 < pxpy.Length1
    }

    function Bucket(c: Key): set<Point>
      requires InGrid(c)
      reads pxpy
    {
      pxpy[c.0, c.1]
    }

    /** The agents `get_group` collects for key `n`: the four buckets of
        its block, through the views pxpy, pxny, nxpy and nxny. */
    function Group(n: Key): set<Point>
      requires Valid() && Fits(n)
      reads this, pxpy
    {
      pxpy[n.0 + 1, n.1 + 1] + pxny[n.0 + 1, n.1] + nxpy[n.0, n.1 + 1] + nxny[n.0, n.1]
    }

    /** A group is exactly the union of the buckets of the block. */
    lemma GroupIsBlockUnion(n: Key, q: Point)
      requires Valid() && Fits(n)
      ensures q in Group(n) <==> exists c :: c in Block(n) && InGrid(c) && q in Bucket(c)
    {
      if q !in Group(n) {
        forall c | c in Block(n) && InGrid(c)
          ensures q !in Bucket(c)
        {
          assert c == (n.0 + 1, n.1 + 1) || c == (n.0 + 1, n.1) || c == (n.0, n.1 + 1) || c == (n.0, n.1);
        }
      } else {
        if q in pxpy[n.0 + 1, n.1 + 1] {
          assert (n.0 + 1, n.1 + 1) in Block(n);
        } else if q in pxpy[n.0 + 1, n.1] {
          assert (n.0 + 1, n.1) in Block(n);
        } else if q in pxpy[n.0, n.1 + 1] {
          assert (n.0, n.1 + 1) in Block(n);
        } else {
          assert (n.0, n.1) in Block(n);
        }
      }
    }

    /** `q` is filed in all four buckets of block `n`. */
    ghost predicate FiledAt(q: Point, n: Key)
      requires Fits(n)
      reads pxpy
    {
      forall c :: c in Block(n) ==> q in Bucket(c)
    }

    /** `q` is filed in the four buckets of block `n` and in no other. */
    ghost predicate FiledOnlyAt(q: Point, n: Key)
      requires Fits(n)
      reads pxpy
    {
      forall c :: InGrid(c) ==> (q in Bucket(c) <==> c in Block(n))
    }

    /** `q` is in no bucket at all. */
    ghost predicate Unfiled(q: Point)
      reads pxpy
    {
      forall c :: InGrid(c) ==> q !in Bucket(c)
    }

    /** A query finds an agent filed at a block near the queried one. */
    lemma NearIsFound(q: Point, k: Key, n: Key)
      requires Valid() && Fits(k) && Fits(n) && FiledAt(q, k) && Near(k, n)
      ensures q in Group(n)
    {
      BlocksMeet(k, n);
      var c :| c in Block(k) * Block(n);
      GroupIsBlockUnion(n, q);
    }

    /** For an agent filed at one block only, a query finds it exactly when
        the queried key is at most one row and one column away. */
    lemma FoundIffNear(q: Point, k: Key, n: Key)
      requires Valid() && Fits(k) && Fits(n) && FiledOnlyAt(q, k)
      ensures q in Group(n) <==> Near(k, n)
    {
      GroupIsBlockUnion(n, q);
      if q in Group(n) {
        var c :| c in Block(n) && InGrid(c) && q in Bucket(c);
        assert c in Block(k) * Block(n);
        BlocksMeet(k, n);
      } else if Near(k, n) {
        NearIsFound(q, k, n);
      }
    }

    /** `get_group(y, x)`: reads the grid and changes nothing. */
    method GetGroup(y: real, x: real) returns (group: set<Point>)
      requires Valid() && Fits(KeyOf(y, x))
      ensures group == Group(KeyOf(y, x))
      ensures group <= Agents
    {
      var p := (Trunc(y) / sub + 1, Trunc(x) / sub + 1);
      var n := (Trunc(y) / sub, Trunc(x) / sub);
      group := {};
      group := group + pxpy[p.0, p.1];
      group := group + pxny[p.0, n.1];
      group := group + nxpy[n.0, p.1];
      group := group + nxny[n.0, n.1];
    }

    /** The buckets after `point` was moved from block `from` to block `to`
        by `insert(point, check)`: when `check` holds and the key is the
        same nothing changes, otherwise every bucket is as Moved says. */
    twostate predicate Reindexed(point: Point, from: Key, to: Key, check: bool)
      reads this, pxpy
    {
      forall i, j :: 0 <= i < pxpy.Length0 && 0 <= j < pxpy.Length1 ==>
        pxpy[i, j] == if check && from == to then old(pxpy[i, j])
                      else Moved(old(pxpy[i, j]), (i, j), point, from, to)
    }

    /** What a re-index from block `from` to block `to` leaves in the
        buckets for the moved agent: unless it was skipped, the agent is in
        the four buckets of `to`; an agent that was in the four buckets of
        `from` and no other is afterwards in those of `to` and no other;
        and so is an agent filed nowhere, once a discard-then-add ran. */
    twostate lemma ReindexedFiles(point: Point, from: Key, to: Key, check: bool)
      requires Fits(from) && Fits(to) && Reindexed(point, from, to, check)
      ensures !(check && from == to) ==> FiledAt(point, to)
      ensures old(FiledOnlyAt(point, from)) ==> FiledOnlyAt(point, to)
      ensures !(check && from == to) && old(Unfiled(point)) ==> FiledOnlyAt(point, to)
    {
      forall c | InGrid(c)
        ensures point in Bucket(c) <==>
          if check && from == to then point in old(Bucket(c))
          else c in Block(to) || (point in old(Bucket(c)) && c !in Block(from))
      {
      }
    }

    /** `insert(point, check)`: drop `point` from the four buckets of the
        block of its previous position, then file it in the four buckets of
        the block of its current one, unless `check` holds and the key has
        not changed. */
    method Insert(point: Point, check: bool := true)
      requires Valid()
      requires Fits(KeyOf(point.prevY, point.prevX)) && Fits(KeyOf(point.y, point.x))
      modifies this, pxpy
      ensures Valid() && Agents == old(Agents) + {point}
      ensures Reindexed(point, KeyOf(point.prevY, point.prevX), KeyOf(point.y, point.x), check)
      ensures !(check && KeyOf(point.prevY, point.prevX) == KeyOf(point.y, point.x)) ==>
                FiledAt(point, KeyOf(point.y, point.x)) && point in Group(KeyOf(point.y, point.x))
      ensures old(FiledOnlyAt(point, KeyOf(point.prevY, point.prevX))) ==> FiledOnlyAt(point, KeyOf(point.y, point.x))
      ensures !check && old(Unfiled(point)) ==> FiledOnlyAt(point, KeyOf(point.y, point.x))
    {
      var n0 := (Trunc(point.prevY) / sub, Trunc(point.prevX) / sub);
      var n1 := (Trunc(point.y) / sub, Trunc(point.x) / sub);
      var p0, p1 := (n0.0 + 1, n0.1 + 1), (n1.0 + 1, n1.1 + 1);
      Agents := Agents + {point};
      if check && p0 == p1 && n0 == n1 {
        return;
      }
      Relocate(point, n0, n1);
      NearIsFound(point, n1, n1);
    }

    /** The discard-then-add of `insert`, from block `from` to block `to`. */
    method Relocate(point: Point, from: Key, to: Key)
      requires Valid() && Fits(from) && Fits(to) && point in Agents
      modifies pxpy
      ensures Valid()
      ensures forall i, j :: 0 <= i < pxpy.Length0 && 0 <= j < pxpy.Length1 ==>
        pxpy[i, j] == Moved(old(pxpy[i, j]), (i, j), point, from, to)
      ensures FiledAt(point, to)
    {
      Discard(point, from);
      File(point, to);
      forall c | c in Block(to)
        ensures point in Bucket(c)
      {
      }
    }

    /** The four discards of `insert`, one through each view. */
    method Discard(point: Point, n: Key)
      requires Valid() && Fits(n)
      modifies pxpy
      ensures Valid()
      ensures forall i, j :: 0 <= i < pxpy.Length0 && 0 <= j < pxpy.Length1 ==>
        pxpy[i, j] == if (i, j) in Block(n) then old(pxpy[i, j]) - {point} else old(pxpy[i, j])
    {
      var p := (n.0 + 1, n.1 + 1);
      pxpy[p.0, p.1] := pxpy[p.0, p.1] - {point};
      pxny[p.0, n.1] := pxny[p.0, n.1] - {point};
      nxpy[n.0, p.1] := nxpy[n.0, p.1] - {point};
      nxny[n.0, n.1] := nxny[n.0, n.1] - {point};
    }

    /** The four adds of `insert`, one through each view. */
    method File(point: Point, n: Key)
      requires Valid() && Fits(n) && point in Agents
      modifies pxpy
      ensures Valid()
      ensures forall i, j :: 0 <= i < pxpy.Length0 && 0 <= j < pxpy.Length1 ==>
        pxpy[i, j] == if (i, j) in Block(n) then old(pxpy[i, j]) + {point} else old(pxpy[i, j])
    {
      var p := (n.0 + 1, n.1 + 1);
      pxpy[p.0, p.1] := pxpy[p.0, p.1] + {point};
      pxny[p.0, n.1] := pxny[p.0, n.1] + {point};
      nxpy[n.0, p.1] := nxpy[n.0, p.1] + {point};
      nxny[n.0, n.1] := nxny[n.0, n.1] + {point};
    }
  }
}
