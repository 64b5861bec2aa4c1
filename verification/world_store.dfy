/** The world store (src/stores/worldStore.ts): which cell of the square
    ground grid the local player stands in. Cells are GRID_CELL_SIZE wide
    and centred on multiples of it; the grid's second axis follows the
    world's z axis. */
module WorldStore {
  import opened ColyseusTypes

  const GRID_CELL_SIZE: int := 20
  const HALF_GRID_CELL_SIZE: int := GRID_CELL_SIZE / 2

  datatype GridCoordinates = GridCoordinates(x: int, y: int)

  const INITIAL_GRID_CELL: GridCoordinates := GridCoordinates(0, 0)
  const DEFAULT_VISIBLE_GRID_SIZE: GridCoordinates := GridCoordinates(3, 3)

  /** The index of the cell holding coordinate `c`: the `k` whose cell
      `[k * 20 - 10, k * 20 + 10)` contains it. */
  function CellIndex(c: real): (k: int)
    ensures (k * GRID_CELL_SIZE - HALF_GRID_CELL_SIZE) as real <= c
    ensures c < (k * GRID_CELL_SIZE + HALF_GRID_CELL_SIZE) as real
  {
    var k := ((c + HALF_GRID_CELL_SIZE as real) / GRID_CELL_SIZE as real).Floor;
    assert k as real <= (c + 10.0) / 20.0 < k as real + 1.0;
    k
  }

  /** `calculateGridCell`: the cell containing the position, its x from
      the position's x and its y from the position's z. */
  function CalculateGridCell(p: Vec3): (g: GridCoordinates)
    ensures (g.x * GRID_CELL_SIZE - HALF_GRID_CELL_SIZE) as real <= p.x < (g.x * GRID_CELL_SIZE + HALF_GRID_CELL_SIZE) as real
    ensures (g.y * GRID_CELL_SIZE - HALF_GRID_CELL_SIZE) as real <= p.z < (g.y * GRID_CELL_SIZE + HALF_GRID_CELL_SIZE) as real
  {
    GridCoordinates(CellIndex(p.x), CellIndex(p.z))
  }

  /** The cell of a coordinate is the only cell containing it. */
  lemma {:induction false} CellIndexUnique(c: real, k: int)
    requires (k * GRID_CELL_SIZE - HALF_GRID_CELL_SIZE) as real <= c
    requires c < (k * GRID_CELL_SIZE + HALF_GRID_CELL_SIZE) as real
    ensures CellIndex(c) == k
  {
    var j := CellIndex(c);
    assert (j * 20 - 10) as real <= c < (j * 20 + 10) as real;
    assert (k * 20 - 10) as real < (j * 20 + 10) as real;
    assert (j * 20 - 10) as real < (k * 20 + 10) as real;
  }

  /** Moving by a whole cell moves to the neighbouring cell. */
  lemma {:induction false} CellIndexShift(c: real)
    ensures CellIndex(c + GRID_CELL_SIZE as real) == CellIndex(c) + 1
  {
    var k := CellIndex(c);
    CellIndexUnique(c + 20.0, k + 1);
  }

  /** `isGridCellEqual`. */
  predicate IsGridCellEqual(a: GridCoordinates, b: GridCoordinates)
  {
    a.x == b.x && a.y == b.y
  }

  lemma IsGridCellEqualIsEquality(a: GridCoordinates, b: GridCoordinates)
    ensures IsGridCellEqual(a, b) <==> a == b
  {
  }

  /** The current cell after `updateCurrentGridCell(p)`. */
  function CellAfterUpdate(current: GridCoordinates, p: Vec3): (g: GridCoordinates)
    ensures g == CalculateGridCell(p)
    ensures IsGridCellEqual(current, CalculateGridCell(p)) ==> g == current
  {
    if IsGridCellEqual(current, CalculateGridCell(p)) then current else CalculateGridCell(p)
  }

  /** Updating twice with the same position is updating once. */
  lemma UpdateIsIdempotent(current: GridCoordinates, p: Vec3)
    ensures CellAfterUpdate(CellAfterUpdate(current, p), p) == CellAfterUpdate(current, p)
  {
  }

  class Store {
    var currentGridCell: GridCoordinates
    var visibleGridSize: GridCoordinates

    constructor ()
      ensures currentGridCell == INITIAL_GRID_CELL
      ensures visibleGridSize == DEFAULT_VISIBLE_GRID_SIZE
    {
      currentGridCell, visibleGridSize := INITIAL_GRID_CELL, DEFAULT_VISIBLE_GRID_SIZE;
    }

    /** `updateCurrentGridCell(p)`: afterwards the current cell is the one
        holding `p`. The state object is replaced, and subscribers are
        notified, only when the cell changes. */
    method UpdateCurrentGridCell(p: Vec3) returns (notified: bool)
      modifies this
      ensures currentGridCell == CellAfterUpdate(old(currentGridCell), p)
      ensures notified <==> old(currentGridCell) != CalculateGridCell(p)
      ensures visibleGridSize == old(visibleGridSize)
    {
      var newGridCell := CalculateGridCell(p);
      if IsGridCellEqual(currentGridCell, newGridCell) {
        return false;
      }
      currentGridCell := newGridCell;
      notified := true;
    }
  }
}
