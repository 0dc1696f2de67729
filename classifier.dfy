/**
 Classification of one cell of the 25x25 roof grid from its eight neighbours
 (`determineCellType`).
 */
module Classifier {
  import opened CellTypes

  /** The side of the square grid (`gridSize`). */
  const GridSize: int := 25

  /** Rows of cell values; 1 means a panel, any other value means no panel. */
  type Grid = seq<seq<int>>

  predicate IsGrid(g: Grid)
  {
    |g| == GridSize && forall i :: 0 <= i < |g| ==> |g[i]| == GridSize
  }

  predicate InGrid(r: int, c: int)
  {
    0 <= r < GridSize && 0 <= c < GridSize
  }

  /** `isPanel`: a position off the grid is never a panel, and a position on
      it is a panel exactly when it holds 1. */
  predicate IsPanel(g: Grid, r: int, c: int)
    requires IsGrid(g)
    ensures IsPanel(g, r, c) ==> InGrid(r, c)
    ensures InGrid(r, c) ==> (IsPanel(g, r, c) <==> g[r][c] == 1)
  {
    InGrid(r, c) && g[r][c] == 1
  }

  /** The eight neighbour offsets, row by row: the three above, left and
      right, the three below. */
  const Directions: seq<(int, int)> := [
    (-1, -1), (-1, 0), (-1, 1),
    (0, -1), (0, 1),
    (1, -1), (1, 0), (1, 1)
  ]

  /** `neighborPanels`: for each offset of `Directions`, in order, whether a
      panel sits there (see `NeighbourPanelsFollowDirections`). */
  function NeighbourPanels(g: Grid, row: int, col: int): (n: seq<bool>)
    requires IsGrid(g)
    ensures |n| == 8
  {
    [IsPanel(g, row - 1, col - 1), IsPanel(g, row - 1, col), IsPanel(g, row - 1, col + 1),
     IsPanel(g, row, col - 1), IsPanel(g, row, col + 1),
     IsPanel(g, row + 1, col - 1), IsPanel(g, row + 1, col), IsPanel(g, row + 1, col + 1)]
  }

  /** Entry `k` of the neighbour list looks at the `k`-th offset. */
  lemma NeighbourPanelsFollowDirections(g: Grid, row: int, col: int)
    requires IsGrid(g)
    ensures |NeighbourPanels(g, row, col)| == |Directions|
    ensures forall k :: 0 <= k < |Directions| ==>
      NeighbourPanels(g, row, col)[k] == IsPanel(g, row + Directions[k].0, col + Directions[k].1)
  {
  }

  /** `Array.prototype.every(Boolean)`. */
  predicate Every(s: seq<bool>)
  {
    forall i :: 0 <= i < |s| ==> s[i]
  }

  /** `Array.prototype.some(Boolean)`. */
  predicate Some(s: seq<bool>)
  {
    exists i :: 0 <= i < |s| && s[i]
  }

  /** `filter(Boolean).length`: the number of true entries. */
  function CountTrue(s: seq<bool>): (n: nat)
    ensures n == multiset(s)[true]
    ensures n <= |s|
    ensures n == 0 <==> !Some(s)
  {
    if s == [] then 0
    else
      assert forall i :: 0 < i < |s| ==> s[i] == s[1..][i - 1];
      assert s == [s[0]] + s[1..];
      (if s[0] then 1 else 0) + CountTrue(s[1..])
  }

  /** The ordered chain of tests over the row above (`top`), the left and
      right neighbours (`mid`) and the row below (`bot`); the first test that
      holds picks the tag. */
  function Decide(top: seq<bool>, mid: seq<bool>, bot: seq<bool>): (t: CellType)
    ensures t != EmptyCell
  {
    if Every(top) && Every(mid) && Every(bot) then CenterMidPanel
    else if Every(top) && Every(mid) && Some(bot) then CenterTopPanel
    else if Some(top) && Every(mid) && Every(bot) then CenterBottomPanel
    else if Some(top) && !Every(mid) && Some(bot) then MidPanel
    else if !Some(top) && !Some(bot) && Some(mid) then MiddleMidPanel
    else if !Some(top) && Some(mid) && Some(bot) then BottomMidPanel
    else if Some(top) && Some(mid) && !Some(bot) then TopMidPanel
    else if (Some(top) || Some(bot)) && !Every(mid) then EndPanel
    else if !Some(top) && !Every(mid) && !Some(bot) then SinglePanel
    else if CountTrue(top) == 1 && !Every(mid) && !Some(bot) then TopSinglePanel
    else if !Some(top) && !Every(mid) && CountTrue(bot) == 1 then BottomSinglePanel
    else if !Some(top) && !Some(bot) && CountTrue(mid) == 1 then CenterSinglePanel
    else Error
  }

  /** `determineCellType`: a cell holding anything but 1 is `EmptyCell`, and
      no occupied cell is ever tagged `EmptyCell`. */
  function DetermineCellType(g: Grid, row: int, col: int): (t: CellType)
    requires IsGrid(g) && InGrid(row, col)
    ensures t == EmptyCell <==> g[row][col] != 1
  {
    var n := NeighbourPanels(g, row, col);
    if g[row][col] != 1 then EmptyCell
    else Decide(n[..3], n[3..5], n[5..])
  }

  // ----- The chain read as a decision table -----

  /** The same classification, organised by whether anything lies above and
      whether anything lies below; written independently of the chain. */
  function Table(top: seq<bool>, mid: seq<bool>, bot: seq<bool>): CellType
  {
    match (Some(top), Some(bot))
    case (false, false) => if Some(mid) then MiddleMidPanel else SinglePanel
    case (false, true) => if Some(mid) then BottomMidPanel else EndPanel
    case (true, false) => if Some(mid) then TopMidPanel else EndPanel
    case (true, true) =>
      if !Every(mid) then MidPanel
      else if Every(top) && Every(bot) then CenterMidPanel
      else if Every(top) then CenterTopPanel
      else if Every(bot) then CenterBottomPanel
      else Error
  }

  lemma EveryNonEmptyIsSome(s: seq<bool>)
    requires |s| > 0
    ensures Every(s) ==> Some(s)
  {
    if Every(s) {
      assert s[0];
    }
  }

  /** On rows of the sizes the grid produces, the ordered chain and the table
      agree everywhere. */
  lemma DecideIsTable(top: seq<bool>, mid: seq<bool>, bot: seq<bool>)
    requires |top| == 3 && |mid| == 2 && |bot| == 3
    ensures Decide(top, mid, bot) == Table(top, mid, bot)
  {
    EveryNonEmptyIsSome(top);
    EveryNonEmptyIsSome(mid);
    EveryNonEmptyIsSome(bot);
  }

  /** The tags the chain can produce. In particular the three tests that would
      return `TopSinglePanel`, `BottomSinglePanel` and `CenterSinglePanel` are
      never reached, and `MiddleEndPanel`, `TopEndPanel` and `BottomEndPanel`
      have no test at all. */
  lemma DecideRange(top: seq<bool>, mid: seq<bool>, bot: seq<bool>)
    requires |top| == 3 && |mid| == 2 && |bot| == 3
    ensures Decide(top, mid, bot) in
      {SinglePanel, MidPanel, EndPanel, MiddleMidPanel, TopMidPanel, BottomMidPanel,
       CenterTopPanel, CenterMidPanel, CenterBottomPanel, Error}
  {
    DecideIsTable(top, mid, bot);
  }

  // ----- Properties of determineCellType on the grid -----

  lemma SomeOfSplit(n: seq<bool>)
    requires |n| == 8
    ensures Some(n) <==> Some(n[..3]) || Some(n[3..5]) || Some(n[5..])
  {
    if Some(n) {
      var i :| 0 <= i < |n| && n[i];
      if i < 3 { assert n[..3][i]; }
      else if i < 5 { assert n[3..5][i - 3]; }
      else { assert n[5..][i - 5]; }
    }
    if Some(n[..3]) { var i :| 0 <= i < 3 && n[..3][i]; assert n[i]; }
    if Some(n[3..5]) { var i :| 0 <= i < 2 && n[3..5][i]; assert n[i + 3]; }
    if Some(n[5..]) { var i :| 0 <= i < 3 && n[5..][i]; assert n[i + 5]; }
  }

  /** `SinglePanel` is returned exactly for a panel none of whose eight
      neighbours is a panel. */
  lemma SinglePanelExactly(g: Grid, row: int, col: int)
    requires IsGrid(g) && InGrid(row, col)
    ensures (DetermineCellType(g, row, col) == SinglePanel) <==>
      (g[row][col] == 1 && !Some(NeighbourPanels(g, row, col)))
  {
    var n := NeighbourPanels(g, row, col);
    DecideIsTable(n[..3], n[3..5], n[5..]);
    SomeOfSplit(n);
  }

  /** `MiddleMidPanel` is returned exactly for a panel with nothing in the row
      above, nothing in the row below and a panel to its left or right. */
  lemma MiddleMidPanelExactly(g: Grid, row: int, col: int)
    requires IsGrid(g) && InGrid(row, col)
    ensures var n := NeighbourPanels(g, row, col);
      (DetermineCellType(g, row, col) == MiddleMidPanel) <==>
        (g[row][col] == 1 && !n[0] && !n[1] && !n[2] && !n[5] && !n[6] && !n[7]
         && (n[3] || n[4]))
  {
    var n := NeighbourPanels(g, row, col);
    DecideIsTable(n[..3], n[3..5], n[5..]);
    Row3(n[..3]);
    Row3(n[5..]);
    Row2(n[3..5]);
  }

  /** `Error` is returned exactly for a panel with panels both left and right
      whose rows above and below are each partly, but not fully, occupied. */
  lemma ErrorExactly(g: Grid, row: int, col: int)
    requires IsGrid(g) && InGrid(row, col)
    ensures var n := NeighbourPanels(g, row, col);
      (DetermineCellType(g, row, col) == Error) <==>
        (g[row][col] == 1 && n[3] && n[4]
         && (n[0] || n[1] || n[2]) && !(n[0] && n[1] && n[2])
         && (n[5] || n[6] || n[7]) && !(n[5] && n[6] && n[7]))
  {
    var n := NeighbourPanels(g, row, col);
    DecideIsTable(n[..3], n[3..5], n[5..]);
    Row3(n[..3]);
    Row3(n[5..]);
    Row2(n[3..5]);
  }

  lemma Row3(s: seq<bool>)
    requires |s| == 3
    ensures Every(s) <==> s[0] && s[1] && s[2]
    ensures Some(s) <==> s[0] || s[1] || s[2]
  {
    if s[0] || s[1] || s[2] {
      var i :| 0 <= i < 3 && s[i];
    }
  }

  lemma Row2(s: seq<bool>)
    requires |s| == 2
    ensures Every(s) <==> s[0] && s[1]
    ensures Some(s) <==> s[0] || s[1]
  {
    if s[0] || s[1] {
      var i :| 0 <= i < 2 && s[i];
    }
  }

  /** Six of the seventeen tags are never returned for any grid. */
  lemma NeverReturned(g: Grid, row: int, col: int)
    requires IsGrid(g) && InGrid(row, col)
    ensures DetermineCellType(g, row, col) !in
      {TopSinglePanel, BottomSinglePanel, CenterSinglePanel,
       MiddleEndPanel, TopEndPanel, BottomEndPanel}
  {
    var n := NeighbourPanels(g, row, col);
    DecideRange(n[..3], n[3..5], n[5..]);
  }

  /** The 3x3 block of positions around (row, col). */
  predicate Near(i: int, j: int, row: int, col: int)
  {
    row - 1 <= i <= row + 1 && col - 1 <= j <= col + 1
  }

  /** The tag depends only on the cell and its eight neighbours: two grids
      that agree on the on-grid part of the 3x3 block give the same tag. */
  lemma Locality(g1: Grid, g2: Grid, row: int, col: int)
    requires IsGrid(g1) && IsGrid(g2) && InGrid(row, col)
    requires forall i, j :: InGrid(i, j) && Near(i, j, row, col) ==> g1[i][j] == g2[i][j]
    ensures DetermineCellType(g1, row, col) == DetermineCellType(g2, row, col)
  {
    var n1, n2 := NeighbourPanels(g1, row, col), NeighbourPanels(g2, row, col);
    NeighbourPanelsFollowDirections(g1, row, col);
    NeighbourPanelsFollowDirections(g2, row, col);
    forall k | 0 <= k < |Directions|
      ensures n1[k] == n2[k]
    {
      var (dr, dc) := Directions[k];
      assert Near(row + dr, col + dc, row, col);
    }
    assert n1 == n2;
  }

  /** A neighbour that would lie off the grid never counts as a panel: along
      the edges of the grid the corresponding neighbours read as empty. */
  lemma EdgesSeeNoPanels(g: Grid, row: int, col: int)
    requires IsGrid(g) && InGrid(row, col)
    ensures var n := NeighbourPanels(g, row, col);
      && (row == 0 ==> !Some(n[..3]))
      && (row == GridSize - 1 ==> !Some(n[5..]))
      && (col == 0 ==> !n[0] && !n[3] && !n[5])
      && (col == GridSize - 1 ==> !n[2] && !n[4] && !n[7])
  {
    var n := NeighbourPanels(g, row, col);
    Row3(n[..3]);
    Row3(n[5..]);
  }

  /** A grid holding only a plus sign of five panels centred at (12, 12). */
  function Plus(): (g: Grid)
    ensures IsGrid(g)
  {
    seq(GridSize, i => seq(GridSize, j =>
      if (i == 12 && 11 <= j <= 13) || (j == 12 && 11 <= i <= 13) then 1 else 0))
  }

  /** `Error` is reachable: the centre of a plus sign is tagged `Error`. */
  lemma PlusCentreIsError()
    ensures DetermineCellType(Plus(), 12, 12) == Error
  {
    var g := Plus();
    var n := NeighbourPanels(g, 12, 12);
    assert n == [false, true, false, true, true, false, true, false];
    ErrorExactly(g, 12, 12);
  }
}
