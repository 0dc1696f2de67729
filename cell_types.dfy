/**
 The tags a grid cell can be classified as, and the count record that
 tallies them (the `CellTypesCount` type of the calculator).
 */
module CellTypes {

  /** One tag per field of the count record, in the record's field order. */
  datatype CellType =
    | SinglePanel
    | MidPanel
    | EndPanel
    | MiddleMidPanel
    | MiddleEndPanel
    | TopMidPanel
    | TopEndPanel
    | TopSinglePanel
    | BottomMidPanel
    | BottomEndPanel
    | BottomSinglePanel
    | CenterSinglePanel
    | CenterBottomPanel
    | CenterMidPanel
    | CenterTopPanel
    | EmptyCell
    | Error

  /** Every tag, once each, in the record's field order. */
  const AllTags: seq<CellType> := [
    SinglePanel, MidPanel, EndPanel, MiddleMidPanel, MiddleEndPanel,
    TopMidPanel, TopEndPanel, TopSinglePanel, BottomMidPanel, BottomEndPanel,
    BottomSinglePanel, CenterSinglePanel, CenterBottomPanel, CenterMidPanel,
    CenterTopPanel, EmptyCell, Error
  ]

  /** The count record: one counter per tag. Counts are plain numbers in the
      calculator, so they are `int` here; every record the grid produces is
      non-negative (see `Counting`). */
  datatype CellTypesCount = CellTypesCount(
    singlePanel: int,
    midPanel: int,
    endPanel: int,
    middleMidPanel: int,
    middleEndPanel: int,
    topMidPanel: int,
    topEndPanel: int,
    topSinglePanel: int,
    bottomMidPanel: int,
    bottomEndPanel: int,
    bottomSinglePanel: int,
    centerSinglePanel: int,
    centerBottomPanel: int,
    centerMidPanel: int,
    centerTopPanel: int,
    emptyCell: int,
    error: int)

  /** The record every tally starts from: all seventeen counters at zero. */
  function Zero(): (c: CellTypesCount)
    ensures forall t :: Get(c, t) == 0
  {
    CellTypesCount(0, 0, 0, 0, 0, 0, 0, 0, 0, 0, 0, 0, 0, 0, 0, 0, 0)
  }

  /** The counter a tag names: `cellTypesCount[tag]`. */
  function Get(c: CellTypesCount, t: CellType): int
  {
    match t
    case SinglePanel => c.singlePanel
    case MidPanel => c.midPanel
    case EndPanel => c.endPanel
    case MiddleMidPanel => c.middleMidPanel
    case MiddleEndPanel => c.middleEndPanel
    case TopMidPanel => c.topMidPanel
    case TopEndPanel => c.topEndPanel
    case TopSinglePanel => c.topSinglePanel
    case BottomMidPanel => c.bottomMidPanel
    case BottomEndPanel => c.bottomEndPanel
    case BottomSinglePanel => c.bottomSinglePanel
    case CenterSinglePanel => c.centerSinglePanel
    case CenterBottomPanel => c.centerBottomPanel
    case CenterMidPanel => c.centerMidPanel
    case CenterTopPanel => c.centerTopPanel
    case EmptyCell => c.emptyCell
    case Error => c.error
  }

  /** `cellTypesCount[tag]++`: the named counter goes up by one and the total
      by one; `IncCounts` adds that every other counter keeps its value, so
      every tag hits a real counter of its own. */
  function Inc(c: CellTypesCount, t: CellType): (d: CellTypesCount)
    ensures Get(d, t) == Get(c, t) + 1
    ensures Total(d) == Total(c) + 1
  {
    match t
    case SinglePanel => c.(singlePanel := c.singlePanel + 1)
    case MidPanel => c.(midPanel := c.midPanel + 1)
    case EndPanel => c.(endPanel := c.endPanel + 1)
    case MiddleMidPanel => c.(middleMidPanel := c.middleMidPanel + 1)
    case MiddleEndPanel => c.(middleEndPanel := c.middleEndPanel + 1)
    case TopMidPanel => c.(topMidPanel := c.topMidPanel + 1)
    case TopEndPanel => c.(topEndPanel := c.topEndPanel + 1)
    case TopSinglePanel => c.(topSinglePanel := c.topSinglePanel + 1)
    case BottomMidPanel => c.(bottomMidPanel := c.bottomMidPanel + 1)
    case BottomEndPanel => c.(bottomEndPanel := c.bottomEndPanel + 1)
    case BottomSinglePanel => c.(bottomSinglePanel := c.bottomSinglePanel + 1)
    case CenterSinglePanel => c.(centerSinglePanel := c.centerSinglePanel + 1)
    case CenterBottomPanel => c.(centerBottomPanel := c.centerBottomPanel + 1)
    case CenterMidPanel => c.(centerMidPanel := c.centerMidPanel + 1)
    case CenterTopPanel => c.(centerTopPanel := c.centerTopPanel + 1)
    case EmptyCell => c.(emptyCell := c.emptyCell + 1)
    case Error => c.(error := c.error + 1)
  }

  /** `Inc`, field by field. */
  lemma IncFields(c: CellTypesCount, t: CellType, d: CellTypesCount)
    requires d == Inc(c, t)
    ensures d.singlePanel == c.singlePanel + (if t == SinglePanel then 1 else 0)
    ensures d.midPanel == c.midPanel + (if t == MidPanel then 1 else 0)
    ensures d.endPanel == c.endPanel + (if t == EndPanel then 1 else 0)
    ensures d.middleMidPanel == c.middleMidPanel + (if t == MiddleMidPanel then 1 else 0)
    ensures d.middleEndPanel == c.middleEndPanel + (if t == MiddleEndPanel then 1 else 0)
    ensures d.topMidPanel == c.topMidPanel + (if t == TopMidPanel then 1 else 0)
    ensures d.topEndPanel == c.topEndPanel + (if t == TopEndPanel then 1 else 0)
    ensures d.topSinglePanel == c.topSinglePanel + (if t == TopSinglePanel then 1 else 0)
    ensures d.bottomMidPanel == c.bottomMidPanel + (if t == BottomMidPanel then 1 else 0)
    ensures d.bottomEndPanel == c.bottomEndPanel + (if t == BottomEndPanel then 1 else 0)
    ensures d.bottomSinglePanel == c.bottomSinglePanel + (if t == BottomSinglePanel then 1 else 0)
    ensures d.centerSinglePanel == c.centerSinglePanel + (if t == CenterSinglePanel then 1 else 0)
    ensures d.centerBottomPanel == c.centerBottomPanel + (if t == CenterBottomPanel then 1 else 0)
    ensures d.centerMidPanel == c.centerMidPanel + (if t == CenterMidPanel then 1 else 0)
    ensures d.centerTopPanel == c.centerTopPanel + (if t == CenterTopPanel then 1 else 0)
    ensures d.emptyCell == c.emptyCell + (if t == EmptyCell then 1 else 0)
    ensures d.error == c.error + (if t == Error then 1 else 0)
  {
    match t
    case SinglePanel =>
    case MidPanel =>
    case EndPanel =>
    case MiddleMidPanel =>
    case MiddleEndPanel =>
    case TopMidPanel =>
    case TopEndPanel =>
    case TopSinglePanel =>
    case BottomMidPanel =>
    case BottomEndPanel =>
    case BottomSinglePanel =>
    case CenterSinglePanel =>
    case CenterBottomPanel =>
    case CenterMidPanel =>
    case CenterTopPanel =>
    case EmptyCell =>
    case Error =>
  }

  /** Two records that agree on every counter are the same record. */
  lemma GetExtensional(c: CellTypesCount, d: CellTypesCount)
    requires forall t :: Get(c, t) == Get(d, t)
    ensures c == d
  {
    assert Get(c, SinglePanel) == Get(d, SinglePanel);
    assert Get(c, MidPanel) == Get(d, MidPanel);
    assert Get(c, EndPanel) == Get(d, EndPanel);
    assert Get(c, MiddleMidPanel) == Get(d, MiddleMidPanel);
    assert Get(c, MiddleEndPanel) == Get(d, MiddleEndPanel);
    assert Get(c, TopMidPanel) == Get(d, TopMidPanel);
    assert Get(c, TopEndPanel) == Get(d, TopEndPanel);
    assert Get(c, TopSinglePanel) == Get(d, TopSinglePanel);
    assert Get(c, BottomMidPanel) == Get(d, BottomMidPanel);
    assert Get(c, BottomEndPanel) == Get(d, BottomEndPanel);
    assert Get(c, BottomSinglePanel) == Get(d, BottomSinglePanel);
    assert Get(c, CenterSinglePanel) == Get(d, CenterSinglePanel);
    assert Get(c, CenterBottomPanel) == Get(d, CenterBottomPanel);
    assert Get(c, CenterMidPanel) == Get(d, CenterMidPanel);
    assert Get(c, CenterTopPanel) == Get(d, CenterTopPanel);
    assert Get(c, EmptyCell) == Get(d, EmptyCell);
    assert Get(c, Error) == Get(d, Error);
  }

  /** `Inc` raises the named counter by one and leaves the other sixteen
      unchanged. */
  lemma IncCounts(c: CellTypesCount, t: CellType)
    ensures forall u :: Get(Inc(c, t), u) == Get(c, u) + (if u == t then 1 else 0)
  {
    var d := Inc(c, t);
    IncFields(c, t, d);
    forall u ensures Get(d, u) == Get(c, u) + (if u == t then 1 else 0) {
    }
  }

  /** Two records that agree on every counter listed in `AllTags` are the same
      record: the list names the whole record. */
  lemma AllTagsDetermineCounts(c: CellTypesCount, d: CellTypesCount)
    requires forall i :: 0 <= i < |AllTags| ==> Get(c, AllTags[i]) == Get(d, AllTags[i])
    ensures c == d
  {
    forall t ensures Get(c, t) == Get(d, t) {
      var i := FieldIndex(t);
      assert AllTags[i] == t;
    }
    GetExtensional(c, d);
  }

  /** The sum of all seventeen counters. */
  function Total(c: CellTypesCount): int
  {
    c.singlePanel + c.midPanel + c.endPanel + c.middleMidPanel + c.middleEndPanel
    + c.topMidPanel + c.topEndPanel + c.topSinglePanel + c.bottomMidPanel
    + c.bottomEndPanel + c.bottomSinglePanel + c.centerSinglePanel
    + c.centerBottomPanel + c.centerMidPanel + c.centerTopPanel
    + c.emptyCell + c.error
  }

  /** The sum of every counter except `EmptyCell`: the occupied cells. */
  function Occupied(c: CellTypesCount): (n: int)
    ensures n == Total(c) - Get(c, EmptyCell)
  {
    c.singlePanel + c.midPanel + c.endPanel + c.middleMidPanel + c.middleEndPanel
    + c.topMidPanel + c.topEndPanel + c.topSinglePanel + c.bottomMidPanel
    + c.bottomEndPanel + c.bottomSinglePanel + c.centerSinglePanel
    + c.centerBottomPanel + c.centerMidPanel + c.centerTopPanel
    + c.error
  }

  predicate NonNegative(c: CellTypesCount)
  {
    forall t :: Get(c, t) >= 0
  }

  /** A non-negative record, field by field. */
  lemma NonNegativeFields(c: CellTypesCount)
    requires NonNegative(c)
    ensures c.singlePanel >= 0 && c.midPanel >= 0 && c.endPanel >= 0
    ensures c.middleMidPanel >= 0 && c.middleEndPanel >= 0 && c.topMidPanel >= 0
    ensures c.topEndPanel >= 0 && c.topSinglePanel >= 0 && c.bottomMidPanel >= 0
    ensures c.bottomEndPanel >= 0 && c.bottomSinglePanel >= 0 && c.centerSinglePanel >= 0
    ensures c.centerBottomPanel >= 0 && c.centerMidPanel >= 0 && c.centerTopPanel >= 0
    ensures c.emptyCell >= 0 && c.error >= 0
  {
    assert Get(c, SinglePanel) >= 0;
    assert Get(c, MidPanel) >= 0;
    assert Get(c, EndPanel) >= 0;
    assert Get(c, MiddleMidPanel) >= 0;
    assert Get(c, MiddleEndPanel) >= 0;
    assert Get(c, TopMidPanel) >= 0;
    assert Get(c, TopEndPanel) >= 0;
    assert Get(c, TopSinglePanel) >= 0;
    assert Get(c, BottomMidPanel) >= 0;
    assert Get(c, BottomEndPanel) >= 0;
    assert Get(c, BottomSinglePanel) >= 0;
    assert Get(c, CenterSinglePanel) >= 0;
    assert Get(c, CenterBottomPanel) >= 0;
    assert Get(c, CenterMidPanel) >= 0;
    assert Get(c, CenterTopPanel) >= 0;
    assert Get(c, EmptyCell) >= 0;
    assert Get(c, Error) >= 0;
  }

  /** A non-negative record with no occupied cell has nothing but its
      `EmptyCell` counter. */
  lemma OnlyEmptyCells(c: CellTypesCount)
    requires NonNegative(c) && Occupied(c) == 0
    ensures forall t :: Get(c, t) == if t == EmptyCell then c.emptyCell else 0
  {
    NonNegativeFields(c);
  }

  /** `AllTags` lists every tag exactly once, so the record has 17 counters. */
  lemma AllTagsComplete()
    ensures |AllTags| == 17
    ensures forall t :: t in AllTags
    ensures forall i, j :: 0 <= i < j < |AllTags| ==> AllTags[i] != AllTags[j]
  {
    forall t ensures t in AllTags {
      assert AllTags[FieldIndex(t)] == t;
    }
  }

  /** The position of a tag's counter in the record. */
  function FieldIndex(t: CellType): (i: nat)
    ensures i < |AllTags| && AllTags[i] == t
  {
    match t
    case SinglePanel => 0
    case MidPanel => 1
    case EndPanel => 2
    case MiddleMidPanel => 3
    case MiddleEndPanel => 4
    case TopMidPanel => 5
    case TopEndPanel => 6
    case TopSinglePanel => 7
    case BottomMidPanel => 8
    case BottomEndPanel => 9
    case BottomSinglePanel => 10
    case CenterSinglePanel => 11
    case CenterBottomPanel => 12
    case CenterMidPanel => 13
    case CenterTopPanel => 14
    case EmptyCell => 15
    case Error => 16
  }
}
