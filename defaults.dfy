/** The constants sim.py imports from its `defaults` module. That module is not
    part of this model, so only what sim.py relies on is fixed here: the world
    bounds are whole numbers and the thrust and the time step are positive. */
module Defaults {

  type PositiveReal = r: real | r > 0.0 witness 1.0

  /** World width: the bound of the y coordinate (sim.py:119-120). */
  const W: nat

  /** World height: the bound of the x coordinate (sim.py:112-113). */
  const H: nat

  /** Thrust magnitude an agent applies (sim.py:71, sim.py:87). */
  const ACCEL: PositiveReal

  /** Fixed time step of one tick (sim.py:101-106). */
  const DT: PositiveReal
}
