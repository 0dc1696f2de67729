/**
 Counting the tags of every cell of the grid (`countCellTypes`): a row-major
 sweep over all 25 x 25 cells that adds one to the counter of each cell's tag.
 */
module Counting {
  import opened CellTypes
  import opened Classifier

  /** The number of cells the sweep visits. */
  const CellCount: int := GridSize * GridSize

  /** The tags of all cells in the order the nested loops visit them, row by
      row and left to right: position `k` is cell (k / 25, k % 25). */
  function SweepTags(g: Grid): (s: seq<CellType>)
    requires IsGrid(g)
    ensures |s| == CellCount
  {
    seq(CellCount, k requires 0 <= k < CellCount =>
      DetermineCellType(g, k / GridSize, k % GridSize))
  }

  /** The record after counting `tags` one at a time, starting from zero. */
  function Tally(tags: seq<CellType>): CellTypesCount
  {
    if tags == [] then Zero()
    else Inc(Tally(tags[..|tags| - 1]), tags[|tags| - 1])
  }

  /** Each counter holds the number of times its tag occurs. */
  lemma {:induction false} TallyCountsOccurrences(tags: seq<CellType>)
    ensures forall t :: Get(Tally(tags), t) == multiset(tags)[t]
  {
    if tags != [] {
      var prefix, last := tags[..|tags| - 1], tags[|tags| - 1];
      TallyCountsOccurrences(prefix);
      IncCounts(Tally(prefix), last);
      assert tags == prefix + [last];
    }
  }

  /** Every tag hits exactly one counter, so the counters add up to the number
      of tags counted. */
  lemma {:induction false} TallyTotal(tags: seq<CellType>)
    ensures Total(Tally(tags)) == |tags|
  {
    if tags != [] {
      TallyTotal(tags[..|tags| - 1]);
    }
  }

  /** How many of the first `n` cells of the sweep hold something other than 1. */
  function NonPanelCells(g: Grid, n: int): (m: int)
    requires IsGrid(g) && 0 <= n <= CellCount
    ensures 0 <= m <= n
    decreases n
  {
    if n == 0 then 0
    else NonPanelCells(g, n - 1) + (if g[(n - 1) / GridSize][(n - 1) % GridSize] != 1 then 1 else 0)
  }

  /** Among the first `n` cells of the sweep, `EmptyCell` occurs once for each
      cell that does not hold 1. */
  lemma {:induction false} EmptyCellsAreNonPanels(g: Grid, n: int)
    requires IsGrid(g) && 0 <= n <= CellCount
    ensures multiset(SweepTags(g)[..n])[EmptyCell] == NonPanelCells(g, n)
  {
    if n > 0 {
      var s := SweepTags(g);
      EmptyCellsAreNonPanels(g, n - 1);
      TakeOneMore(s, n - 1);
      SweepEmptyAt(g, n - 1);
    }
  }

  /** Over the whole sweep, `EmptyCell` occurs once per cell not holding 1. */
  lemma EmptyCellsOfSweep(g: Grid)
    requires IsGrid(g)
    ensures multiset(SweepTags(g))[EmptyCell] == NonPanelCells(g, CellCount)
  {
    EmptyCellsAreNonPanels(g, CellCount);
    TakeAll(SweepTags(g));
  }

  /** The six tags the classifier never returns do not occur in the sweep. */
  lemma NeverReturnedAbsent(g: Grid)
    requires IsGrid(g)
    ensures var s := SweepTags(g);
      && TopSinglePanel !in s && BottomSinglePanel !in s && CenterSinglePanel !in s
      && MiddleEndPanel !in s && TopEndPanel !in s && BottomEndPanel !in s
  {
    var s := SweepTags(g);
    forall k | 0 <= k < |s|
      ensures s[k] !in {TopSinglePanel, BottomSinglePanel, CenterSinglePanel,
                        MiddleEndPanel, TopEndPanel, BottomEndPanel}
    {
      NeverReturned(g, k / GridSize, k % GridSize);
    }
  }

  /** On a grid without panels every cell counts as a non-panel cell. */
  lemma {:induction false} NoPanelsAllEmpty(g: Grid, n: int)
    requires IsGrid(g) && 0 <= n <= CellCount
    requires forall i, j :: InGrid(i, j) ==> g[i][j] != 1
    ensures NonPanelCells(g, n) == n
  {
    if n > 0 {
      NoPanelsAllEmpty(g, n - 1);
    }
  }

  /** What counting any sequence of tags yields: each counter is the number
      of occurrences of its tag, the counters add up to the number of tags,
      none is negative, and a tag that does not occur leaves its counter at
      zero. */
  lemma TallyOfTags(tags: seq<CellType>)
    ensures forall t :: Get(Tally(tags), t) == multiset(tags)[t]
    ensures Total(Tally(tags)) == |tags| && NonNegative(Tally(tags))
    ensures forall t :: t !in tags ==> Get(Tally(tags), t) == 0
  {
    var c := Tally(tags);
    TallyCountsOccurrences(tags);
    TallyTotal(tags);
    forall t ensures Get(c, t) >= 0 && (t !in tags ==> Get(c, t) == 0) {
      assert Get(c, t) == multiset(tags)[t];
    }
  }

  /** What counting the whole sweep yields: each counter is the number of
      cells with its tag, the counters add up to 625, `EmptyCell` counts the
      cells that do not hold 1, the counters other than `EmptyCell` add up to
      the number of panels, and the six tags the classifier never returns stay
      at zero. */
  lemma CountsOfGrid(g: Grid, counts: CellTypesCount)
    requires IsGrid(g) && counts == Tally(SweepTags(g))
    ensures forall t :: Get(counts, t) == multiset(SweepTags(g))[t]
    ensures Total(counts) == CellCount && NonNegative(counts)
    ensures counts.emptyCell == NonPanelCells(g, CellCount)
    ensures Occupied(counts) == CellCount - NonPanelCells(g, CellCount)
    ensures && counts.topSinglePanel == 0 && counts.bottomSinglePanel == 0
            && counts.centerSinglePanel == 0 && counts.middleEndPanel == 0
            && counts.topEndPanel == 0 && counts.bottomEndPanel == 0
  {
    TallyOfTags(SweepTags(g));
    EmptyCountOfGrid(g);
    NeverReturnedNotCounted(g);
  }

  /** `EmptyCell` counts the cells that do not hold 1, and the other counters
      add up to the cells that do. */
  lemma EmptyCountOfGrid(g: Grid)
    requires IsGrid(g)
    ensures var counts := Tally(SweepTags(g));
      && counts.emptyCell == NonPanelCells(g, CellCount)
      && Occupied(counts) == CellCount - NonPanelCells(g, CellCount)
  {
    EmptyCountOfTags(SweepTags(g));
    EmptyCellsOfSweep(g);
  }

  /** After counting any tags, `EmptyCell` holds the number of `EmptyCell`
      tags and the other counters hold the rest. */
  lemma EmptyCountOfTags(tags: seq<CellType>)
    ensures Tally(tags).emptyCell == multiset(tags)[EmptyCell]
    ensures Occupied(Tally(tags)) == |tags| - multiset(tags)[EmptyCell]
  {
    TallyCountsOccurrences(tags);
    TallyTotal(tags);
    assert Get(Tally(tags), EmptyCell) == multiset(tags)[EmptyCell];
  }

  /** The counters of the six tags the classifier never returns stay at zero. */
  lemma NeverReturnedNotCounted(g: Grid)
    requires IsGrid(g)
    ensures var counts := Tally(SweepTags(g));
      && counts.topSinglePanel == 0 && counts.bottomSinglePanel == 0
      && counts.centerSinglePanel == 0 && counts.middleEndPanel == 0
      && counts.topEndPanel == 0 && counts.bottomEndPanel == 0
  {
    NeverReturnedAbsent(g);
    AbsentTagsNotCounted(SweepTags(g));
  }

  /** Counting tags among which the six never-returned tags do not occur
      leaves their counters at zero. */
  lemma AbsentTagsNotCounted(tags: seq<CellType>)
    requires && TopSinglePanel !in tags && BottomSinglePanel !in tags
             && CenterSinglePanel !in tags && MiddleEndPanel !in tags
             && TopEndPanel !in tags && BottomEndPanel !in tags
    ensures var counts := Tally(tags);
      && counts.topSinglePanel == 0 && counts.bottomSinglePanel == 0
      && counts.centerSinglePanel == 0 && counts.middleEndPanel == 0
      && counts.topEndPanel == 0 && counts.bottomEndPanel == 0
  {
    var counts := Tally(tags);
    TallyOfTags(tags);
    assert Get(counts, TopSinglePanel) == 0 && Get(counts, BottomSinglePanel) == 0;
    assert Get(counts, CenterSinglePanel) == 0 && Get(counts, MiddleEndPanel) == 0;
    assert Get(counts, TopEndPanel) == 0 && Get(counts, BottomEndPanel) == 0;
  }

  /** A grid without a single 1 (an all-zero grid in particular) counts as
      625 empty cells and nothing else. */
  lemma CountsOfEmptyGrid(g: Grid)
    requires IsGrid(g)
    requires forall i, j :: InGrid(i, j) ==> g[i][j] != 1
    ensures forall t :: Get(Tally(SweepTags(g)), t) == if t == EmptyCell then CellCount else 0
  {
    var counts := Tally(SweepTags(g));
    TallyOfTags(SweepTags(g));
    EmptyCountOfGrid(g);
    NoPanelsAllEmpty(g, CellCount);
    OnlyEmptyCells(counts);
  }

  /** Position `k` of the sweep is `EmptyCell` exactly when cell (k / 25, k % 25)
      does not hold 1. */
  lemma SweepEmptyAt(g: Grid, k: int)
    requires IsGrid(g) && 0 <= k < CellCount
    ensures SweepTags(g)[k] == EmptyCell <==> g[k / GridSize][k % GridSize] != 1
  {
  }

  lemma TakeOneMore(s: seq<CellType>, n: int)
    requires 0 <= n < |s|
    ensures s[..n + 1] == s[..n] + [s[n]]
  {
  }

  lemma TakeAll(s: seq<CellType>)
    ensures s[..|s|] == s
  {
  }

  /** Position `row * 25 + col` of the sweep is the cell (row, col), so
      counting it extends the tally by that cell's tag. */
  lemma TallyStep(g: Grid, row: int, col: int, k: int)
    requires IsGrid(g) && InGrid(row, col) && k == row * GridSize + col
    ensures 0 <= k < CellCount
    ensures Tally(SweepTags(g)[..k + 1])
         == Inc(Tally(SweepTags(g)[..k]), DetermineCellType(g, row, col))
  {
    SweepAt(g, row, col, k);
    TallyOneMore(SweepTags(g), k);
  }

  /** Position `k` of the sweep is cell (row, col) exactly when `k` is
      row * 25 + col. */
  lemma SweepIndex(k: int, row: int, col: int)
    requires 0 <= k < CellCount && InGrid(row, col)
    ensures (k / GridSize == row && k % GridSize == col) <==> k == row * GridSize + col
  {
  }

  lemma SweepAt(g: Grid, row: int, col: int, k: int)
    requires IsGrid(g) && InGrid(row, col) && k == row * GridSize + col
    ensures 0 <= k < CellCount
    ensures SweepTags(g)[k] == DetermineCellType(g, row, col)
  {
    SweepIndex(k, row, col);
  }

  /** Counting one more tag of a sequence adds it to the tally. */
  lemma TallyOneMore(s: seq<CellType>, k: int)
    requires 0 <= k < |s|
    ensures Tally(s[..k + 1]) == Inc(Tally(s[..k]), s[k])
  {
    assert s[..k + 1][..k] == s[..k];
  }

  /** `countCellTypes`: the nested loops compute the tally of the whole sweep,
      so the result has every property `CountsOfGrid` lists. */
  method CountCellTypes(g: Grid) returns (counts: CellTypesCount)
    requires IsGrid(g)
    ensures counts == Tally(SweepTags(g))
  {
    counts := Zero();
    ghost var sweep := SweepTags(g);
    ghost var visited := 0;
    var row := 0;
    while row < GridSize
      invariant 0 <= row <= GridSize
      invariant visited == row * GridSize
      invariant counts == Tally(sweep[..visited])
    {
      var col := 0;
      while col < GridSize
        invariant 0 <= col <= GridSize
        invariant visited == row * GridSize + col
        invariant counts == Tally(sweep[..visited])
      {
        TallyStep(g, row, col, visited);
        var cellType := DetermineCellType(g, row, col);
        counts := Inc(counts, cellType);
        visited := visited + 1;
        col := col + 1;
      }
      row := row + 1;
    }
    assert visited == |sweep|;
    TakeAll(sweep);
  }
}
