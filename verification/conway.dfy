/**
 * One generation of Conway's Game of Life on a fixed 25 x 25 grid of 0/1 cells.
 * Cells beyond the border count as dead: the grid does not wrap around.
 */
module Conway {

  const Height: nat := 25
  const Width: nat := 25

  /** A grid indexed `g[x][y]`, as the source indexes its `[[usize; WIDTH]; HEIGHT]`. */
  type Grid = seq<seq<nat>>

  predicate IsGrid(g: Grid)
  {
    |g| == Height && forall x :: 0 <= x < |g| ==> |g[x]| == Width
  }

  /** Every cell is 0 (dead) or 1 (alive). */
  predicate ZeroOne(g: Grid)
    requires IsGrid(g)
  {
    forall x, y :: 0 <= x < Height && 0 <= y < Width ==> g[x][y] <= 1
  }

  /** The value of the cell at (i, j), where anything outside the grid is dead. */
  function Cell(g: Grid, i: int, j: int): nat
    requires IsGrid(g)
  {
    if 0 <= i < Height && 0 <= j < Width then g[i][j] else 0
  }

  /** The sum over the eight cells surrounding (x, y); the cell itself is not included. */
  function NeighbourSum(g: Grid, x: int, y: int): nat
    requires IsGrid(g)
  {
    Cell(g, x - 1, y - 1) + Cell(g, x, y - 1) + Cell(g, x + 1, y - 1) +
    Cell(g, x - 1, y)                          + Cell(g, x + 1, y) +
    Cell(g, x - 1, y + 1) + Cell(g, x, y + 1) + Cell(g, x + 1, y + 1)
  }

  /**
   * The next value of cell (x, y): fewer than two or more than three live neighbours
   * kill it, exactly three bring it to life, exactly two keep it as it is.
   */
  function NextState(x: nat, y: nat, grid: Grid): (r: nat)
    requires IsGrid(grid) && x < Height && y < Width
    ensures NeighbourSum(grid, x, y) < 2 || NeighbourSum(grid, x, y) > 3 ==> r == 0
    ensures NeighbourSum(grid, x, y) == 3 ==> r == 1
    ensures NeighbourSum(grid, x, y) == 2 ==> r == grid[x][y]
  {
    var topLeft := if x > 0 && y > 0 then grid[x - 1][y - 1] else 0;
    var topCenter := if y > 0 then grid[x][y - 1] else 0;
    var topRight := if x < Width - 1 && y > 0 then grid[x + 1][y - 1] else 0;
    var centerLeft := if x > 0 then grid[x - 1][y] else 0;
    var centerRight := if x < Width - 1 then grid[x + 1][y] else 0;
    var bottomCenter := if y < Height - 1 then grid[x][y + 1] else 0;
    var bottomLeft := if y < Height - 1 && x > 0 then grid[x - 1][y + 1] else 0;
    var bottomRight := if y < Height - 1 && x < Width - 1 then grid[x + 1][y + 1] else 0;
    var neighbourScore := topLeft + topCenter + topRight + centerLeft + centerRight
                          + bottomCenter + bottomLeft + bottomRight;
    if neighbourScore < 2 || neighbourScore > 3 then 0
    else if neighbourScore == 3 then 1
    else if neighbourScore == 2 then grid[x][y]
    else 0
  }

  /** The whole next generation: every cell recomputed from the previous grid only. */
  function Step(grid: Grid): (next: Grid)
    requires IsGrid(grid)
    ensures IsGrid(next)
    ensures forall x, y :: 0 <= x < Height && 0 <= y < Width ==> next[x][y] == NextState(x, y, grid)
  {
    seq(Height, x requires 0 <= x < Height => seq(Width, y requires 0 <= y < Width => NextState(x, y, grid)))
  }

  /** The contents of a 25 x 25 buffer as a grid value. */
  function Contents(a: array2<nat>): (g: Grid)
    reads a
    requires a.Length0 == Height && a.Length1 == Width
    ensures IsGrid(g)
    ensures forall x, y :: 0 <= x < Height && 0 <= y < Width ==> g[x][y] == a[x, y]
  {
    seq(Height, x requires 0 <= x < Height reads a => seq(Width, y requires 0 <= y < Width reads a => a[x, y]))
  }

  /**
   * The body of the generation loop: `newGrid` is filled cell by cell, the inner counter
   * `x` running along each row and the outer counter `y` over the rows, and then
   * becomes the grid (`grid = new_grid` copies the buffer).
   */
  method Generation(grid: Grid, newGrid: array2<nat>) returns (next: Grid)
    requires IsGrid(grid)
    requires newGrid.Length0 == Height && newGrid.Length1 == Width
    modifies newGrid
    ensures next == Step(grid)
    ensures Contents(newGrid) == next
  {
    var x := 0;
    var y := 0;
    while y < Height
      invariant 0 <= y <= Height && x == 0
      invariant forall i, j :: 0 <= i < Height && 0 <= j < y ==> newGrid[i, j] == NextState(i, j, grid)
    {
      while x < Width
        invariant 0 <= x <= Width
        invariant forall i, j :: 0 <= i < Height && 0 <= j < y ==> newGrid[i, j] == NextState(i, j, grid)
        invariant forall i :: 0 <= i < x ==> newGrid[i, y] == NextState(i, y, grid)
      {
        newGrid[x, y] := NextState(x, y, grid);
        x := x + 1;
      }
      y := y + 1;
      x := 0;
    }
    next := Contents(newGrid);
    forall i | 0 <= i < Height
      ensures next[i] == Step(grid)[i]
    {
      assert forall j :: 0 <= j < Width ==> next[i][j] == Step(grid)[i][j];
    }
  }

  /** A cell that is dead or alive stays dead or alive. */
  lemma NextStateZeroOne(g: Grid, x: nat, y: nat)
    requires IsGrid(g) && ZeroOne(g) && x < Height && y < Width
    ensures NextState(x, y, g) <= 1
  {
  }

  /** A generation keeps every cell 0 or 1. */
  lemma StepPreservesZeroOne(g: Grid)
    requires IsGrid(g) && ZeroOne(g)
    ensures ZeroOne(Step(g))
  {
    forall x, y | 0 <= x < Height && 0 <= y < Width
      ensures Step(g)[x][y] <= 1
    {
      NextStateZeroOne(g, x, y);
    }
  }

  /** An all-dead grid stays all dead. */
  lemma StepOfDeadGrid(g: Grid)
    requires IsGrid(g)
    requires forall x, y :: 0 <= x < Height && 0 <= y < Width ==> g[x][y] == 0
    ensures Step(g) == g
  {
    var next := Step(g);
    forall x | 0 <= x < Height
      ensures next[x] == g[x]
    {
      forall y | 0 <= y < Width
        ensures next[x][y] == g[x][y]
      {
        assert NeighbourSum(g, x, y) == 0;
      }
    }
  }

  /** The grid `g` with cell (x, y) set to `v`. */
  function WithCell(g: Grid, x: nat, y: nat, v: nat): (h: Grid)
    requires IsGrid(g) && x < Height && y < Width
    ensures IsGrid(h) && h[x][y] == v
    ensures forall i, j :: 0 <= i < Height && 0 <= j < Width && (i, j) != (x, y) ==> h[i][j] == g[i][j]
  {
    var row: seq<nat> := g[x][y := v];
    g[x := row]
  }

  /** The cell's own value never enters its neighbour score. */
  lemma NeighbourSumExcludesCell(g: Grid, x: nat, y: nat, v: nat)
    requires IsGrid(g) && x < Height && y < Width
    ensures NeighbourSum(WithCell(g, x, y, v), x, y) == NeighbourSum(g, x, y)
  {
  }

  /** The corner cell sees only its three neighbours inside the grid: there is no wrap-around. */
  lemma CornerHasThreeNeighbours(g: Grid)
    requires IsGrid(g)
    ensures NeighbourSum(g, 0, 0) == g[1][0] + g[0][1] + g[1][1]
  {
  }
}
