/** The cell keys of the spatial hash in sim.py: how a position becomes a
    cell, the 2x2 block of cells an agent occupies, and how one bucket
    changes when an agent is re-indexed. Nothing here touches the grid. */
module Cells {

  /** A (row, column) cell; the row comes from y and the column from x. */
  type Key = (int, int)

  /** Python's `int()` on a float: truncation toward zero. */
  function Trunc(r: real): (i: int)
    ensures 0.0 <= r ==> 0 <= i && i as real <= r < i as real + 1.0
    ensures r < 0.0 ==> i <= 0 && i as real - 1.0 < r <= i as real
  {
    if r >= 0.0 then r.Floor else -((-r).Floor)
  }

  /** The key `n` of sim.py: `(int(y)//sub, int(x)//sub)`. For a positive
      divisor Dafny's `/` on `int` is floor division, as Python's `//` is. */
  function CellOf(y: real, x: real, sub: nat): Key
    requires sub > 0
  {
    (Trunc(y) / sub, Trunc(x) / sub)
  }

  /** For a position with non-negative coordinates, its key is the cell of
      width `sub` that holds the truncated coordinates. */
  lemma CellOfContains(y: real, x: real, sub: nat)
    requires sub > 0 && 0.0 <= y && 0.0 <= x
    ensures var n := CellOf(y, x, sub);
      0 <= n.0 && n.0 * sub <= Trunc(y) < (n.0 + 1) * sub &&
      0 <= n.1 && n.1 * sub <= Trunc(x) < (n.1 + 1) * sub
  {
    DivBounds(Trunc(y), sub);
    DivBounds(Trunc(x), sub);
  }

  lemma DivBounds(i: int, sub: nat)
    requires sub > 0 && 0 <= i
    ensures 0 <= i / sub && (i / sub) * sub <= i < (i / sub + 1) * sub
  {
  }

  /** The four cells an agent with key `n` is filed under, in the order of
      the views pxpy, pxny, nxpy and nxny: rows p = n.0 + 1 or n.0, columns
      p = n.1 + 1 or n.1. */
  function Block(n: Key): (b: set<Key>)
    ensures forall c :: c in b <==> n.0 <= c.0 <= n.0 + 1 && n.1 <= c.1 <= n.1 + 1
  {
    {(n.0 + 1, n.1 + 1), (n.0 + 1, n.1), (n.0, n.1 + 1), (n.0, n.1)}
  }

  /** Two keys at most one row and one column apart. */
  predicate Near(k1: Key, k2: Key)
  {
    -1 <= k1.0 - k2.0 <= 1 && -1 <= k1.1 - k2.1 <= 1
  }

  /** Two blocks share a cell exactly when their keys are near. */
  lemma BlocksMeet(k1: Key, k2: Key)
    ensures Block(k1) * Block(k2) != {} <==> Near(k1, k2)
  {
    if Near(k1, k2) {
      var c := (if k1.0 < k2.0 then k2.0 else k1.0, if k1.1 < k2.1 then k2.1 else k1.1);
      assert c in Block(k1) * Block(k2);
    }
  }

  /** The whole block of `n` lies inside a grid of `rows` by `cols` cells. */
  predicate BlockFits(n: Key, rows: nat, cols: nat)
  {
    0 <= n.0 && n.0 + 1 < rows && 0 <= n.1 && n.1 + 1 < cols
  }

  /** A position within 0 <= y <= width and 0 <= x <= height has its whole
      block inside the grid that `Map(size=(width, height), sub)` builds,
      of `width // sub + 2` rows and `height // sub + 2` columns. */
  lemma KeysInRange(y: real, x: real, sub: nat, width: nat, height: nat)
    requires sub > 0 && 0.0 <= y <= width as real && 0.0 <= x <= height as real
    ensures BlockFits(CellOf(y, x, sub), width / sub + 2, height / sub + 2)
  {
    DivMonotone(Trunc(y), width, sub);
    DivMonotone(Trunc(x), height, sub);
  }

  lemma DivMonotone(i: int, j: int, sub: nat)
    requires sub > 0 && 0 <= i <= j
    ensures 0 <= i / sub <= j / sub
  {
    DivBounds(i, sub);
    DivBounds(j, sub);
    MulCancel(i / sub, j / sub + 1, sub);
  }

  lemma MulCancel(a: int, b: int, sub: nat)
    requires sub > 0 && a * sub < b * sub
    ensures a < b
  {
    assert (b - a) * sub == b * sub - a * sub;
  }

  /** One bucket `bucket`, the contents of cell `c`, after `agent` is
      discarded from the cells of block `from` and then added to the cells
      of block `to`; discarding an absent agent changes nothing. */
  function Moved<T>(bucket: set<T>, c: Key, agent: T, from: Key, to: Key): (r: set<T>)
    ensures r - {agent} == bucket - {agent}
    ensures agent in r <==> c in Block(to) || (agent in bucket && c !in Block(from))
  {
    var without := if c in Block(from) then bucket - {agent} else bucket;
    if c in Block(to) then without + {agent} else without
  }
}
