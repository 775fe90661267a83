# p_simen: the spatial hash and the agent tick, in Dafny

`sim.py` simulates round agents of radius `RAD` moving in a `W` by `H`
world. Each tick, `Point.update` moves one agent:

- It leaves early when the agent is idle.
- It resets an agent that has arrived at its goal.
- Otherwise it picks the thrust, integrates one step and clamps the agent
  to the walls.
- It then asks the spatial hash `Map` for the agents near its new
  position. On the first overlap it finds, it applies the collision
  response. Finally it re-indexes itself.

The model has five modules, one per concern:

- `Defaults`: the imported constants `W`, `H`, `ACCEL` and `DT`.
- `Geometry`: vectors, the exact squared distance, and the pure helpers
  `compare_uv` and `collide`.
- `Cells`: how a position becomes a cell key, the 2x2 block of cells an
  agent is filed under, and how one bucket changes under a re-index.
- `Motion`: the kinematics of one tick, as functions on an agent state
  `Body`, with the square root taken as a parameter.
- `Sim`: the classes.
  - `Point` holds the agent's fields; `Update` and its parts are methods
    that change them in place.
  - `Map` holds one `array2<set<Point>>`. `pxpy`, `pxny`, `nxpy` and
    `nxny` are four names for that one array: `Map.__init__` makes the
    other three "maps" shallow copies of the first, so all four share
    every row and every set. `Map.Valid()` records this aliasing.

Each `Point` method is proved against a function of `Motion`: `Arrives`,
`Halted`, `Thrust`, `Heading`, `Integrate`, `Walls`, `Advance` and
`Bumped`. The lemmas state properties of those functions. `Map.Insert`
and `Map.GetGroup` are proved against `Cells.Moved` and `Map.Group`.

Behaviour of the code worth knowing, including where it departs from the
textbook elastic collision that its comment at sim.py:28 cites:

- **Collision velocities.** `collide` returns, per agent and per axis,
  the relative velocity projected on the line of centres. `update`
  assigns these terms as the new velocities (sim.py:135-137) instead of
  subtracting them from the old ones. Take two agents on one horizontal
  line approaching each other at speed `s`. They leave at speed `2s` in
  opposite directions; their velocities are not exchanged
  (`Geometry.CollideApproachingPair`, `Motion.BumpedHeadOn`).
- **Which agent is pushed.** The push moves the agent that was hit, not
  the moving one.
- **Distance after the push.** The push leaves the centres `2 * RAD - 0.1`
  apart, whatever the overlap was. The agents therefore still overlap
  (`Motion.BumpedSeparationOnLine`).
- **Coincident centres.** `collide` has no guard for two agents at the
  same centre. It divides by zero, so `update` raises. The model reports
  this outcome as `Step.DivisionByZero`, with the state as it was when
  the exception was raised.
- **The agent passed to `distance`.** Line 142 measures the distance to
  the loop variable `obj` rather than to `collision`. After the `break`
  these are the same agent, so the model uses `collision`.

## Model

| member | source | states |
|---|---|---|
| Geometry.SqDist | sim.py:29 | the squared distance `d2` that `collide` divides by, computed exactly; never negative |
| Geometry.SqDistSymmetric | sim.py:38-39 | the squared distance does not depend on the order of the two points |
| Geometry.CompareUv | sim.py:23-25 | the flag holds exactly when the error sum is below `error`; the sum is never negative, is zero exactly when the vectors are equal, and bounds each per-axis difference |
| Geometry.CompareUvSymmetric | sim.py:23-25 | the comparison does not depend on the order of the two vectors |
| Geometry.Collide | sim.py:27-36 | defined only when the squared distance is non-zero (Python raises otherwise); the second pair is the negation of the first |
| Geometry.CollideSwap | sim.py:27-36 | swapping the two agents swaps the two returned pairs |
| Geometry.CollideBounded | sim.py:30-31 | on each axis, the term is at most the relative velocity on that axis in absolute value |
| Geometry.CollideHeadOn | sim.py:30-31 | for centres on one horizontal line, the first pair is the whole relative x velocity and no y velocity |
| Geometry.CollideApproachingPair | sim.py:135-137 | two agents approaching head-on at speed `s` get the pairs `(2s, 0)` and `(-2s, 0)` |
| Cells.Trunc | sim.py:165-166 | Python's `int()` on a float: the integer toward zero within one unit, for both signs |
| Cells.CellOfContains | sim.py:166 | at non-negative coordinates, the key `n` is the cell of width `sub` that holds the truncated coordinates |
| Cells.Block | sim.py:168-171 | the four cells of a key: rows `n.0` and `n.0 + 1`, columns `n.1` and `n.1 + 1`, and nothing else |
| Cells.BlocksMeet | sim.py:168-171 | two blocks share a cell exactly when their keys are at most one row and one column apart |
| Cells.KeysInRange | sim.py:183-187 | for `0 <= y <= W` and `0 <= x <= H`, both `n` and `p = n + (1, 1)` index inside the `(W // sub + 2) x (H // sub + 2)` grid that `Map((W, H), sub)` builds |
| Cells.Moved | sim.py:192-200 | after discard-then-add, a bucket differs from the old one only in `point`; `point` is in it exactly when the cell is in the new block, or it was there and the cell is not in the old block |
| Motion.Norm | sim.py:41-44 | the zero vector when the scale is zero or the computed length is zero; `(scale, 0)` for a vector along the positive x axis whose computed length is exact |
| Motion.HaltedRests | sim.py:75-81 | an unselected agent after the arrival reset takes the early exit on its next tick |
| Motion.ThrustChoice | sim.py:83-89 | a targeting agent thrusts at `-ACCEL` exactly when the braking test holds, and otherwise at `ACCEL`; a coasting agent keeps its thrust |
| Motion.CoastingHasNoHeading | sim.py:92-95 | a coasting agent with zero thrust gets zero acceleration |
| Motion.Integrate | sim.py:97-106 | the previous position becomes the old position; thrust, target flag and goal are kept |
| Motion.IntegrateAverageVelocity | sim.py:101-106 | the displacement is `DT` times the mean of the old and the new velocity |
| Motion.Bounce | sim.py:109-114 | the coordinate ends in `[0, bound]` at the point of that interval nearest the integrated one; it is untouched when already inside; otherwise the velocity on that axis is negated |
| Motion.Advance | sim.py:70-121 | after the motion part of a tick, the agent is inside the world, its previous position is its old position, goal and flags are kept, and its thrust is the braking decision's |
| Motion.AdvanceClamps | sim.py:108-121 | each axis is either what the integration produced or clamped to a wall with its velocity negated; the two axes are independent |
| Motion.Bumped | sim.py:135-145 | the moving agent changes only its velocity; the other changes only position, velocity and thrust; their new velocities are opposite; the other ends with non-zero thrust and so will not take the early exit |
| Motion.BumpedHeadOn | sim.py:135-137 | on one horizontal line, the moving agent gets the negated relative x velocity, the other the relative x velocity, and neither any y velocity |
| Motion.BumpedSeparationOnLine | sim.py:142-145 | on one horizontal line with an exact root, the pushed agent ends `2 * RAD - 0.1` from the moving one, whatever the overlap was |
| Motion.Distance | sim.py:38-39 | `distance(a, b)`: the root of the squared distance from `a` to `b` |
| Motion.Length | sim.py:74 | `(v_x**2 + v_y**2)**.5`: the root of the sum of the squared components; also the length `norm` divides by |
| Motion.Resting | sim.py:67 | the early-exit test: not selected and zero thrust |
| Motion.Throttled | sim.py:70-71 | a targeting agent's thrust is set to `ACCEL`; a coasting agent is unchanged |
| Motion.Arrives | sim.py:73-76 | the arrival test: targeting, within 5 of the goal and slower than 7.07; or coasting and slower than 1 |
| Motion.Halted | sim.py:77-81 | the arrival reset: not targeting, zero thrust, zero velocity, all else kept |
| Motion.StoppingDistance | sim.py:85 | `v**2 / (2 * a)`, defined for non-zero thrust as Python needs |
| Motion.Brakes | sim.py:85-86 | the braking test: targeting with non-zero thrust, stopping distance beyond the goal distance, and velocity direction within 0.1 of the direction to the goal |
| Motion.Thrust | sim.py:85-89 | `-ACCEL` when the braking test holds, else `ACCEL` for a targeting agent with non-zero thrust, else the thrust unchanged |
| Motion.Heading | sim.py:92-95 | the acceleration: the direction to the goal when targeting, the last displacement otherwise, scaled to the thrust |
| Motion.Walls | sim.py:108-121 | the bounce applied to x against `H` and to y against `W` |
| Cells.CellOf | sim.py:166 | the key `n = (int(y) // sub, int(x) // sub)` |
| Sim.Map.KeyOf | sim.py:183-187 | the key of a position for this map's subdivision |
| Sim.Map.Group | sim.py:168-171 | the union of the four buckets `(p0, p1)`, `(p0, n1)`, `(n0, p1)`, `(n0, n1)` through the four views |
| Sim.Point.Overlaps | sim.py:128 | the overlap test: the distance of the two centres is at most `2 * RAD` |
| Sim.Map.Reindexed | sim.py:189-200 | the buckets after `insert(point, check)`: all unchanged when skipped, otherwise each as `Moved` of the old one |
| Sim.Point.constructor | sim.py:48-64 | a new agent at rest at its start position, with previous position equal to it, no thrust, not targeting, not selected, and a goal the caller draws within the world |
| Sim.Point.Update | sim.py:66-148 | the whole tick. Exits early exactly when the agent rests, changing nothing. Arrives exactly when the arrival test holds on the throttled state, and then only resets the motion fields, leaving the index alone. Otherwise the agent's state is `Advance`: the scan found no agent of the queried block within `2 * RAD`, or it found one there that is bumped as `Bumped` says, or one at the same centre (division by zero, index unchanged). On a move or a bump, the index is re-indexed for this agent alone; no other agent's fields change |
| Sim.Point.Kinematics | sim.py:70-121 | the agent arrives exactly when the arrival test holds on the throttled state, and is then `Halted`; otherwise its new state is `Advance` of the old one |
| Sim.Point.Arrival | sim.py:73-81 | the arrival test and reset: a halted state exactly when `Arrives` holds, the state unchanged otherwise |
| Sim.Point.Throttle | sim.py:83-89 | only the thrust changes, to `Thrust` of the old state |
| Sim.Point.Steer | sim.py:83-95 | the thrust becomes `Thrust` of the old state; the returned acceleration is `Heading` at that thrust |
| Sim.Point.Step | sim.py:97-106 | saves the previous position and integrates: the new state is `Integrate` of the old one |
| Sim.Point.BounceOffWalls | sim.py:108-121 | the new state is `Walls` of the old one |
| Sim.Point.Scan | sim.py:124-130 | no agent is returned exactly when no other agent of the queried block overlaps; a returned agent is in the block, is filed, is not this agent, and overlaps it |
| Sim.Point.FindCollision | sim.py:127-130 | returns a candidate that overlaps, or nothing when no candidate does |
| Sim.Point.Resolve | sim.py:131-148 | nothing found: a plain re-index; otherwise a hit on the agent found. Agents other than these two are untouched |
| Sim.Point.Hit | sim.py:135-148 | at the same centre, everything is left as when `collide` raises; otherwise the two agents are bumped as `Bumped` says and this agent is re-indexed |
| Sim.Point.Respond | sim.py:135-148 | the bump as `Bumped` says, then this agent's re-index |
| Sim.Point.Bump | sim.py:135-145 | the states of both agents become `Bumped` of their old states; the hit agent is not re-indexed |
| Sim.Map.constructor | sim.py:152-159 | a grid of `size.0 // subdivide + 2` rows by `size.1 // subdivide + 2` columns of empty buckets, with the four views aliasing it |
| Sim.Map.GetGroup | sim.py:161-178 | returns the union of the four buckets of the queried block through the four views, and changes nothing |
| Sim.Map.GroupIsBlockUnion | sim.py:165-171 | an agent is in a group exactly when it is in some bucket of the block |
| Sim.Map.NearIsFound | sim.py:165-171 | an agent filed at a block is found by every query whose key is at most one row and one column away |
| Sim.Map.FoundIffNear | sim.py:165-171 | an agent filed at one block only is found exactly by the queries whose key is at most one row and one column away |
| Sim.Map.Insert | sim.py:180-200 | the buckets become `Moved` of the old ones for this agent; with `check` and an unchanged key, nothing changes. Unless skipped, the agent is in all four buckets of its new block and the query at its position finds it. An agent filed at its old block alone is afterwards filed at its new block alone, and so is a new agent inserted with `check=False` |
| Sim.Map.ReindexedFiles | sim.py:189-200 | what a re-index leaves for the moved agent: filed at the new block unless skipped; exclusive filing carries over; an unfiled agent inserted without skipping is filed at the new block alone |
| Sim.Map.Relocate | sim.py:192-200 | every bucket becomes `Moved` of the old one, and the agent is in all four buckets of the new block |
| Sim.Map.Discard | sim.py:192-195 | the agent is removed from the four buckets of the old block, and every other bucket is kept |
| Sim.Map.File | sim.py:197-200 | the agent is added to the four buckets of the new block, and every other bucket is kept |

## Left out

- The `Environment` class (sim.py:209-333) is pygame set-up, drawing, events and the frame loop: user interface and I/O. Its `insert(check=False)` of each new agent is covered by `Sim.Map.Insert`.
- Random start positions and goals (sim.py:59-60, sim.py:226-227) are parameters of `Sim.Point.constructor`.
- Square roots (`** .5` in `distance`, `norm` and the speed) are a parameter `sqrt` about which nothing is assumed. Results that depend on a root's value say which values they need.
- Floating-point rounding is not modelled: coordinates and velocities are exact reals.
- The `defaults` module is not part of this model. Only what `sim.py` relies on is fixed: `W` and `H` are whole numbers, and `ACCEL` and `DT` are positive.
- The `except IndexError` branches of `get_group` and `insert` (sim.py:172-176, sim.py:201-207) only print. After its handler `get_group` still returns `set(group)`: the union of the buckets gathered before the failing lookup (sim.py:178), so such a query silently returns part of the block. The model instead requires in-range keys (`Sim.Map.Fits`); `Cells.KeysInRange` shows that these hold for every position inside the world. The handler in `insert` refers to `x` and `y`, which are undefined there, so it would itself raise.
- Sim.Map.GetGroup, Sim.Map.Insert: do not model Python's negative-index wrap-around or an index past the grid. A pushed agent can leave the world, but their preconditions demand in-range keys.
- Sim.Point.Update: requires the block of the agent's key to lie inside the grid at entry. An agent pushed outside the world is covered while its key stays in the grid (the walls bring it back); one pushed so far that its key leaves the grid is not.
- Sim.Point.Bump: makes no claim about the index entry of the hit agent. `update` neither re-indexes it nor updates its previous position, so its buckets can go stale.
- Geometry.Collide: uses the exact squared distance, not `distance(...)**2` through a root.
- Sim.Point.FindCollision: the order in which the candidates are tried is left open, as iteration over a Python `set` does not fix it. So which of several overlapping agents is hit is not determined.
- Sim.Map.constructor: requires `subdivide > 0`; Python raises `ZeroDivisionError` for 0.
