/**
 The calculator's state: the grid the user paints and the tag counts shown
 beside it. A click toggles one cell and recounts the whole grid
 (`handleCellClick`); the bill of materials is recomputed from the counts.
 */
module Calculator {
  import opened CellTypes
  import opened Classifier
  import opened Counting
  import opened BillOfMaterials

  /** The grid the calculator starts with: 25 x 25 cells, all 0. */
  function EmptyGrid(): (g: Grid)
    ensures IsGrid(g)
    ensures forall i, j :: InGrid(i, j) ==> g[i][j] == 0
  {
    seq(GridSize, i => seq(GridSize, j => 0))
  }

  /** The counts the calculator starts with: every cell empty. */
  const InitialCounts: CellTypesCount :=
    CellTypesCount(0, 0, 0, 0, 0, 0, 0, 0, 0, 0, 0, 0, 0, 0, 0, GridSize * GridSize, 0)

  /** Every cell holds 0 or 1. */
  predicate IsBinary(g: Grid)
    requires IsGrid(g)
  {
    forall i, j :: 0 <= i < GridSize && 0 <= j < GridSize ==> g[i][j] == 0 || g[i][j] == 1
  }

  /** The new value of a clicked cell: 0 becomes 1 and anything else becomes 0.
      The cell at (row, col) takes that value and every other cell keeps its
      own. */
  function Toggle(g: Grid, row: int, col: int): (h: Grid)
    requires IsGrid(g) && InGrid(row, col)
    ensures IsGrid(h)
    ensures h[row][col] == (if g[row][col] == 0 then 1 else 0)
    ensures forall i, j :: InGrid(i, j) && (i, j) != (row, col) ==> h[i][j] == g[i][j]
  {
    g[row := g[row][col := if g[row][col] == 0 then 1 else 0]]
  }

  // ----- Properties of a click -----

  /** Clicking keeps the grid made of 0s and 1s. */
  lemma ToggleKeepsBinary(g: Grid, row: int, col: int)
    requires IsGrid(g) && InGrid(row, col) && IsBinary(g)
    ensures IsBinary(Toggle(g, row, col))
  {
  }

  /** Clicking the same 0/1 cell twice gives back the grid. */
  lemma ToggleTwice(g: Grid, row: int, col: int)
    requires IsGrid(g) && InGrid(row, col)
    requires g[row][col] == 0 || g[row][col] == 1
    ensures Toggle(Toggle(g, row, col), row, col) == g
  {
    var h := Toggle(Toggle(g, row, col), row, col);
    assert h[row] == g[row];
  }

  /** So clicking the same 0/1 cell twice gives back the counts and the bill of
      materials too. */
  lemma ClickTwiceRestoresCounts(g: Grid, row: int, col: int)
    requires IsGrid(g) && InGrid(row, col)
    requires g[row][col] == 0 || g[row][col] == 1
    ensures var h := Toggle(Toggle(g, row, col), row, col);
      && Tally(SweepTags(h)) == Tally(SweepTags(g))
      && CalculateBOM(Tally(SweepTags(h))) == CalculateBOM(Tally(SweepTags(g)))
  {
    ToggleTwice(g, row, col);
  }

  /** A click changes the tag of the clicked cell and its eight neighbours at
      most: every cell outside that 3x3 block keeps its tag. */
  lemma ToggleIsLocal(g: Grid, row: int, col: int, i: int, j: int)
    requires IsGrid(g) && InGrid(row, col) && InGrid(i, j)
    requires !Near(i, j, row, col)
    ensures DetermineCellType(Toggle(g, row, col), i, j) == DetermineCellType(g, i, j)
  {
    var h := Toggle(g, row, col);
    forall a, b | InGrid(a, b) && Near(a, b, i, j)
      ensures h[a][b] == g[a][b]
    {
      assert (a, b) != (row, col);
    }
    Locality(h, g, i, j);
  }

  /** Among the first `n` cells of the sweep, a click on a 0 removes one
      non-panel cell and a click on a 1 adds one, once the sweep has passed
      the clicked cell. */
  lemma {:induction false} ToggleNonPanels(g: Grid, row: int, col: int, n: int)
    requires IsGrid(g) && InGrid(row, col) && 0 <= n <= CellCount
    requires g[row][col] == 0 || g[row][col] == 1
    ensures NonPanelCells(Toggle(g, row, col), n)
         == NonPanelCells(g, n)
            + (if n <= row * GridSize + col then 0 else if g[row][col] == 0 then -1 else 1)
  {
    if n > 0 {
      ToggleNonPanels(g, row, col, n - 1);
      SweepIndex(n - 1, row, col);
    }
  }

  /** A click on an empty cell takes one cell off the `EmptyCell` counter, a
      click on a panel puts one back, and the counters still add up to 625. */
  lemma ClickMovesOneEmptyCell(g: Grid, row: int, col: int)
    requires IsGrid(g) && InGrid(row, col)
    requires g[row][col] == 0 || g[row][col] == 1
    ensures var before, after := Tally(SweepTags(g)), Tally(SweepTags(Toggle(g, row, col)));
      && after.emptyCell == before.emptyCell + (if g[row][col] == 0 then -1 else 1)
      && Occupied(after) == Occupied(before) + (if g[row][col] == 0 then 1 else -1)
      && Total(after) == Total(before) == CellCount
  {
    var h := Toggle(g, row, col);
    CountsOfGrid(g, Tally(SweepTags(g)));
    CountsOfGrid(h, Tally(SweepTags(h)));
    ToggleNonPanels(g, row, col, CellCount);
  }

  // ----- The initial state -----

  /** The counts the calculator starts with are exactly the counts of the
      grid it starts with. */
  lemma InitialCountsOfEmptyGrid()
    ensures InitialCounts == Tally(SweepTags(EmptyGrid()))
  {
    var c := Tally(SweepTags(EmptyGrid()));
    CountsOfEmptyGrid(EmptyGrid());
    forall t ensures Get(InitialCounts, t) == Get(c, t) {
      assert Get(InitialCounts, t) == if t == EmptyCell then CellCount else 0;
    }
    GetExtensional(InitialCounts, c);
  }

  /** A grid without panels (all 0s in particular) needs nothing: every
      quantity of its bill of materials is zero. */
  lemma EmptyGridNeedsNothing(g: Grid)
    requires IsGrid(g) && forall i, j :: InGrid(i, j) ==> g[i][j] != 1
    ensures forall k :: Quantity(CalculateBOM(Tally(SweepTags(g))), k) == 0
  {
    CountsOfEmptyGrid(g);
    BomOfZero(Tally(SweepTags(g)));
  }

  // ----- The bill of materials of a painted grid -----

  /** On counts that come from a grid, the tags the classifier never returns
      drop out of the formulas: the frames are two per single panel, the
      flashing and end clamps four per single panel and two per end panel,
      "Lead" is single, centre-bottom and bottom-mid panels, and the seal
      rolls are one per ten of the six panel tags that can occur. */
  lemma BomOfGrid(g: Grid)
    requires IsGrid(g)
    ensures var c := Tally(SweepTags(g)); var b := CalculateBOM(c);
      && b.halfPortraitFrames == 2 * c.singlePanel
      && b.lateralFlashing == 4 * c.singlePanel + 2 * c.endPanel
      && b.endClamp == 4 * c.singlePanel + 2 * c.endPanel
      && b.lead == c.singlePanel + c.centerBottomPanel + c.bottomMidPanel
      && b.sealRoll == CeilTenth(c.singlePanel + c.endPanel + c.midPanel
                                 + c.middleMidPanel + c.topMidPanel + c.bottomMidPanel)
  {
    NeverReturnedNotCounted(g);
    BomWithoutUnusedTags(Tally(SweepTags(g)));
  }

  /** The calculator component: the painted grid and the counts on display. */
  class BomCalculator {
    var grid: Grid
    var cellTypesCount: CellTypesCount

    /** The grid is 25 x 25 and made of 0s and 1s, and the counts on display
        are the counts of that grid. */
    ghost predicate Valid()
      reads this
    {
      IsGrid(grid) && IsBinary(grid) && cellTypesCount == Tally(SweepTags(grid))
    }

    /** The bill of materials shown for the current counts. */
    function CurrentBom(): (b: Bom)
      reads this
      requires Valid()
      ensures forall k :: Quantity(b, k) >= 0
    {
      CountsOfGrid(grid, cellTypesCount);
      BomNonNegative(cellTypesCount);
      CalculateBOM(cellTypesCount)
    }

    /** The initial state: an empty grid and 625 empty cells. */
    constructor()
      ensures Valid()
      ensures grid == EmptyGrid() && cellTypesCount == InitialCounts
    {
      grid := EmptyGrid();
      cellTypesCount := InitialCounts;
      InitialCountsOfEmptyGrid();
    }

    /** `handleCellClick`: toggle the clicked cell, then recount the grid. */
    method HandleCellClick(row: int, col: int)
      requires Valid() && InGrid(row, col)
      modifies this
      ensures Valid()
      ensures grid == Toggle(old(grid), row, col)
      ensures cellTypesCount == Tally(SweepTags(grid))
    {
      ToggleKeepsBinary(grid, row, col);
      var newRow := grid[row][col := if grid[row][col] == 0 then 1 else 0];
      grid := grid[row := newRow];
      cellTypesCount := CountCellTypes(grid);
    }
  }
}
