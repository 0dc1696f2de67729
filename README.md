# Solar roof bill-of-materials calculator: a Dafny model

This project models the calculation engine of the roof bill-of-materials
calculator, `components/BOMCalculator/BOMCalculator.tsx`. The user paints
solar panels on a 25 x 25 roof grid. A cell holding 1 is a panel and any
other value is no panel.

- **Classification.** Each cell gets a tag from its eight neighbours
  (`determineCellType`). The neighbours are read as a row above, the left and
  right cells, and a row below. An ordered chain of tests picks the tag.
- **Counting.** The tags are tallied into a 17-counter record
  (`countCellTypes`) by two nested loops in row-major order.
- **Bill of materials.** Eleven material quantities come from that record
  (`calculateBOM`). Most are linear formulas. Four are one roll per ten
  panels, rounded up, times a factor.
- **State.** A click toggles one cell and recounts the whole grid
  (`handleCellClick`). The component starts from an all-zero grid and 625
  empty cells.

Modules:

- `CellTypes` (`cell_types.dfy`): the 17 tags and the count record, following
  `types/bomCalculator.ts`.
- `Classifier` (`classifier.dfy`): `determineCellType`.
  - Its chain of tests is also compared with an independently written
    decision table (`Table`).
  - Exact characterisations of the `SinglePanel`, `MiddleMidPanel` and `Error`
    tags.
  - Six tags that can never be returned.
  - Locality of the tag to its 3x3 block.
- `Counting` (`counting.dfy`): `countCellTypes`.
  - An imperative method with the source's nested loops.
  - It is proved to compute `Tally(SweepTags(g))`, the tally of the row-major
    sequence of tags.
  - The lemmas relate that tally to occurrence counts, to 625, and to the
    number of cells not holding 1.
- `BillOfMaterials` (`bom.dfy`): `calculateBOM`.
  - The eleven keys.
  - Identities among the quantities.
  - The rounding of the seal-roll family.
  - Non-negativity and monotonicity.
  - The exact contribution of each tag to each linear quantity.
- `Calculator` (`calculator.dfy`): the component's state.
  - A class `BomCalculator` holding the grid and the displayed counts, with
    its initial state and `HandleCellClick`.
  - Lemmas about toggling: it is an involution on a 0/1 cell, it changes tags
    only locally, and it moves exactly one cell in or out of `EmptyCell`.
  - Lemmas about the bill of materials of a painted grid.

Notes on the model:

- **Panels.** The source tests `grid[row][col] !== 1` for an empty cell, so
  any value other than 1 counts as no panel. The model follows that test,
  not an "equals 0" reading.
- **`Error` is reachable.** The centre of a plus-shaped group of five panels
  is tagged `Error` (`PlusCentreIsError`). The tags `TopSinglePanel`,
  `BottomSinglePanel` and `CenterSinglePanel` are never returned, because the
  tests that would return them come after tests that already catch every
  such cell. `MiddleEndPanel`, `TopEndPanel` and `BottomEndPanel` have no
  test at all.
- **Formulas.** The quantities are the formulas of this revision of
  `calculateBOM`: eleven keys, with the DC lead, sticker and cable ties
  derived from the panel count. Other revisions of the calculator use other
  formulas and are not part of this model.
- **Rounding.** `Math.ceil(p / 10)` on an integer `p` is written
  `(p + 9) / 10`. Dafny's integer division rounds down for a positive
  divisor, so this is exact for every integer `p` (`CeilTenth`).
- **Integers.** The count record's `number` fields are unbounded `int`s.
  Every count that a grid produces lies between 0 and 625, so floating-point
  rounding plays no part.

## Model

| member | source | states |
|---|---|---|
| CellTypes.Zero | components/BOMCalculator/BOMCalculator.tsx:53-71 | the counting record starts with all seventeen counters at zero |
| CellTypes.Inc | components/BOMCalculator/BOMCalculator.tsx:76 | incrementing a tag's counter raises that counter by one and the total by one |
| CellTypes.IncCounts | components/BOMCalculator/BOMCalculator.tsx:76 | incrementing a tag's counter raises exactly that counter by one and leaves the other sixteen unchanged |
| CellTypes.AllTagsComplete | types/bomCalculator.ts:3-21 | the record has exactly 17 counters, one for each tag, all distinct |
| CellTypes.AllTagsDetermineCounts | types/bomCalculator.ts:3-21 | two count records that agree on every counter named by the tag list are the same record |
| Classifier.IsPanel | components/BOMCalculator/BOMCalculator.tsx:20-22 | a position off the grid is never a panel, and a position on the grid is a panel exactly when it holds 1 |
| Classifier.NeighbourPanels | components/BOMCalculator/BOMCalculator.tsx:24-27 | the neighbour list has one entry per direction, eight in all |
| Classifier.NeighbourPanelsFollowDirections | components/BOMCalculator/BOMCalculator.tsx:14-27 | entry k of the neighbour list tells whether a panel lies at the k-th offset, with off-grid positions reading as no panel |
| Classifier.CountTrue | components/BOMCalculator/BOMCalculator.tsx:44-46 | the result is the number of true entries, so it is at most the length and zero exactly when no entry is true |
| Classifier.Decide | components/BOMCalculator/BOMCalculator.tsx:35-48 | the chain of tests never yields EmptyCell |
| Classifier.DetermineCellType | components/BOMCalculator/BOMCalculator.tsx:13-49 | a cell is tagged EmptyCell if and only if it does not hold 1 |
| Classifier.DecideIsTable | components/BOMCalculator/BOMCalculator.tsx:35-48 | on rows of lengths 3, 2 and 3 the ordered chain equals a decision table keyed on whether the rows above and below are occupied |
| Classifier.DecideRange | components/BOMCalculator/BOMCalculator.tsx:35-48 | the chain returns only ten of the tags |
| Classifier.NeverReturned | components/BOMCalculator/BOMCalculator.tsx:13-49 | no cell of any grid is tagged TopSinglePanel, BottomSinglePanel, CenterSinglePanel, MiddleEndPanel, TopEndPanel or BottomEndPanel |
| Classifier.SinglePanelExactly | components/BOMCalculator/BOMCalculator.tsx:29-43 | a cell is tagged SinglePanel if and only if it holds 1 and none of its eight neighbours is a panel |
| Classifier.MiddleMidPanelExactly | components/BOMCalculator/BOMCalculator.tsx:29-39 | a cell is tagged MiddleMidPanel if and only if it holds 1, both neighbour rows are empty, and its left or right neighbour is a panel |
| Classifier.ErrorExactly | components/BOMCalculator/BOMCalculator.tsx:35-48 | a cell is tagged Error if and only if it holds 1, both side neighbours are panels, and the rows above and below are each partly but not fully occupied |
| Classifier.PlusCentreIsError | components/BOMCalculator/BOMCalculator.tsx:48 | the centre of a plus sign of five panels is tagged Error, so Error is reachable |
| Classifier.Locality | components/BOMCalculator/BOMCalculator.tsx:20-27 | the tag depends only on the on-grid cells of the 3x3 block around the cell |
| Classifier.EdgesSeeNoPanels | components/BOMCalculator/BOMCalculator.tsx:20-22 | neighbours off the grid count as empty: on the top row the row above is empty, and likewise for the bottom row and the first and last columns |
| Counting.CountCellTypes | components/BOMCalculator/BOMCalculator.tsx:52-81 | the nested loops return the tally of the row-major sequence of all 625 cell tags |
| Counting.TallyCountsOccurrences | components/BOMCalculator/BOMCalculator.tsx:73-78 | after counting a sequence of tags, each counter equals the number of occurrences of its tag |
| Counting.TallyTotal | components/BOMCalculator/BOMCalculator.tsx:73-78 | the counters add up to the number of tags counted |
| Counting.TallyOfTags | components/BOMCalculator/BOMCalculator.tsx:73-78 | counters are the occurrence counts, they add up to the number of tags, none is negative, and a tag that never occurs leaves its counter at zero |
| Counting.EmptyCellsAreNonPanels | components/BOMCalculator/BOMCalculator.tsx:29 | within any prefix of the sweep, EmptyCell occurs exactly once per cell that does not hold 1 |
| Counting.NeverReturnedAbsent | components/BOMCalculator/BOMCalculator.tsx:44-46 | the six unreturnable tags do not occur in the sweep of any grid |
| Counting.AbsentTagsNotCounted | components/BOMCalculator/BOMCalculator.tsx:73-78 | counting tags among which the six never-returned tags do not occur leaves their six counters at zero |
| Counting.EmptyCountOfTags | components/BOMCalculator/BOMCalculator.tsx:73-78 | after counting any tags, EmptyCell holds the number of EmptyCell tags and the other counters add up to the rest |
| Counting.NeverReturnedNotCounted | components/BOMCalculator/BOMCalculator.tsx:52-81 | the counters of the six unreturnable tags are zero for every grid |
| Counting.EmptyCountOfGrid | components/BOMCalculator/BOMCalculator.tsx:52-81 | the EmptyCell counter equals the number of cells not holding 1, and the other counters add up to 625 minus that number |
| Counting.CountsOfGrid | components/BOMCalculator/BOMCalculator.tsx:52-81 | the counts of a grid are the occurrence counts of the tags, add up to 625, are non-negative, and have EmptyCell equal to the non-panel cells and the six unreturnable tags at zero |
| Counting.CountsOfEmptyGrid | components/BOMCalculator/BOMCalculator.tsx:52-81 | a grid with no 1 (an all-zero grid in particular) counts as 625 EmptyCell and zero for every other tag |
| BillOfMaterials.ComponentsDetermineBom | components/BOMCalculator/BOMCalculator.tsx:108-168 | two bills of materials that agree on the eleven listed keys are the same bill |
| BillOfMaterials.ElevenKeys | components/BOMCalculator/BOMCalculator.tsx:108-168 | the bill of materials has exactly eleven keys, all distinct, with distinct names |
| BillOfMaterials.CeilTenth | components/BOMCalculator/BOMCalculator.tsx:130-137 | the result is the least integer q with p <= 10 q, which is the ceiling of p / 10 |
| BillOfMaterials.CalculateBOM | components/BOMCalculator/BOMCalculator.tsx:107-171 | end clamps equal lateral flashing; both equal twice the frames plus twice the end panels; DC sticker, DC lead and cable ties are 1, 2 and 5 times the seal rolls; seal rolls are the ceiling of the eight-counter panel sum over ten |
| BillOfMaterials.ClampsEven | components/BOMCalculator/BOMCalculator.tsx:112-124 | end clamps and lateral flashing are always even |
| BillOfMaterials.SealRollFamilyZero | components/BOMCalculator/BOMCalculator.tsx:130-161 | for non-negative counts, seal roll, DC sticker, DC lead and cable ties are each zero if and only if the eight panel counters are all zero |
| BillOfMaterials.BomOfZero | components/BOMCalculator/BOMCalculator.tsx:107-171 | counts with nothing but empty cells give an all-zero bill of materials |
| BillOfMaterials.BomWithoutUnusedTags | components/BOMCalculator/BOMCalculator.tsx:107-171 | without the four unreturnable tags used by the formulas, frames are 2 per single panel, flashing and end clamps 4 per single and 2 per end panel, Lead is single + centre-bottom + bottom-mid panels, and seal rolls count six panel tags |
| BillOfMaterials.BomNonNegative | components/BOMCalculator/BOMCalculator.tsx:107-171 | non-negative counts give non-negative quantities |
| BillOfMaterials.CeilTenthMonotone | components/BOMCalculator/BOMCalculator.tsx:130-137 | the rounded-up tenth never decreases as the panel sum grows |
| BillOfMaterials.BomMonotone | components/BOMCalculator/BOMCalculator.tsx:107-171 | raising any counters never lowers any quantity |
| BillOfMaterials.BomIncrement | components/BOMCalculator/BOMCalculator.tsx:107-171 | one more cell of a tag adds exactly that tag's coefficient to every linear quantity (for Lead, 1 for each of its six tags and 0 otherwise), and adds one to the panel sum exactly for the eight panel tags |
| Calculator.EmptyGrid | components/BOMCalculator/BOMCalculator.tsx:189 | the initial grid is 25 x 25 and all 0 |
| Calculator.Toggle | components/BOMCalculator/BOMCalculator.tsx:216 | the clicked cell becomes 1 if it was 0 and 0 otherwise, and every other cell keeps its value |
| Calculator.ToggleKeepsBinary | components/BOMCalculator/BOMCalculator.tsx:216 | a grid of 0s and 1s stays a grid of 0s and 1s after a click |
| Calculator.ToggleTwice | components/BOMCalculator/BOMCalculator.tsx:216 | clicking a 0/1 cell twice restores the grid |
| Calculator.ClickTwiceRestoresCounts | components/BOMCalculator/BOMCalculator.tsx:214-219 | clicking a 0/1 cell twice restores the counts and the bill of materials |
| Calculator.ToggleIsLocal | components/BOMCalculator/BOMCalculator.tsx:216 | a click leaves the tag of every cell outside the clicked cell's 3x3 block unchanged |
| Calculator.ToggleNonPanels | components/BOMCalculator/BOMCalculator.tsx:216 | once the sweep passes the clicked cell, a click on a 0 removes one non-panel cell and a click on a 1 adds one |
| Calculator.ClickMovesOneEmptyCell | components/BOMCalculator/BOMCalculator.tsx:214-219 | a click on a 0 lowers EmptyCell by one and raises the occupied total by one, a click on a 1 does the reverse, and the counters still add up to 625 |
| Calculator.InitialCountsOfEmptyGrid | components/BOMCalculator/BOMCalculator.tsx:189-208 | the initial counts (EmptyCell 625, all else 0) are exactly the counts of the initial all-zero grid |
| Calculator.EmptyGridNeedsNothing | components/BOMCalculator/BOMCalculator.tsx:189-211 | the bill of materials of a grid with no 1 (an all-zero grid in particular) is zero everywhere |
| Calculator.BomOfGrid | components/BOMCalculator/BOMCalculator.tsx:107-171 | for counts that come from a grid, frames are 2 per single panel, flashing and end clamps 4 per single and 2 per end panel, Lead is single + centre-bottom + bottom-mid panels, and seal rolls count six panel tags |
| Calculator.BomCalculator.CurrentBom | components/BOMCalculator/BOMCalculator.tsx:211 | the displayed bill of materials of a valid state has no negative quantity |
| Calculator.BomCalculator.constructor | components/BOMCalculator/BOMCalculator.tsx:189-208 | the component starts with the all-zero grid and the counts EmptyCell 625, all else 0, which are that grid's counts |
| Calculator.BomCalculator.HandleCellClick | components/BOMCalculator/BOMCalculator.tsx:214-219 | a click toggles the cell, keeps the grid 0/1, and sets the counts to the counts of the new grid |

## Left out

- `calculateTotalCost` and the panel and component price tables: the prices
  are floating-point currency amounts. The panel-type selection that feeds
  them is left out too.
- React rendering, the `useState` hooks and the panel-type `Select`: they are
  user interface. The state they hold is modelled as the fields of
  `BomCalculator`.
- Calculator.BomCalculator.HandleCellClick: the grid is a value (a sequence
  of sequences), not the source's nested arrays. `[...grid]` copies only the
  outer array, so the source also changes the row array shared with the
  previous state. That aliasing is not modelled. The new grid and the
  recount are.
- `components/BOMRules/BOMRules.tsx` and the calculator's test file
  belong to other revisions of the rules. Their corner tags, batten and lead
  tables and string-count formulas are not part of this model.
- The network, configuration and other pages of the application are not part
  of this model.
