/**
 * The second-floor seat map: the grid column of every seat (`calculateGridColumn`) and the
 * cell drawn for each entry of the floor's block table.
 */
module SeatMap2F {
  import opened Wrappers
  import opened TheaterTypes
  import opened LogStore
  import opened SeatBlocks
  import opened SecondFloorData
  import opened SeatCells

  /** The columns at which a block's first entry can be drawn. */
  const BlockStarts: set<int> := {1, 3, 9, 17, 18, 19, 20, 21, 32, 33, 45, 60, 74, 87, 100}

  /**
   * `calculateGridColumn`: the column of entry `seatIndex` of the block at `blockIndex` of row
   * `row`, the checks taken in the order the code makes them.
   */
  function GridColumn(row: int, blockIndex: int, seatIndex: int, area: Option<Area>): (col: int)
    ensures col - seatIndex in BlockStarts
  {
    if blockIndex == 0 && area == Some(LB) then
      (if row == 1 then 1 + seatIndex else if row == 2 then 3 + seatIndex else 1 + seatIndex)
    else if blockIndex == 2 && 1 <= row <= 4 then 9 + seatIndex
    else if blockIndex == 0 && row >= 5 then 17 + seatIndex
    else if blockIndex == 4 && row == 1 then 21 + seatIndex
    else if blockIndex == 4 && row == 2 then 21 - 1 + seatIndex
    else if blockIndex == 4 && row == 3 then 21 - 2 + seatIndex
    else if blockIndex == 4 && row == 4 then 21 - 3 + seatIndex
    else if blockIndex == 2 && row >= 5 then 32 + seatIndex
    else if blockIndex == 6 && row <= 4 then 33 + seatIndex
    else if blockIndex == 4 && row >= 5 then 45 + seatIndex
    else if blockIndex == 8 && row <= 4 then 45 + seatIndex
    else if blockIndex == 6 && row >= 5 then 60 + seatIndex
    else if blockIndex == 10 && row <= 4 then 60 + seatIndex
    else if blockIndex == 8 && row >= 5 then 74 + seatIndex
    else if blockIndex == 12 && row <= 4 then 74 + seatIndex
    else if blockIndex == 14 && row <= 4 then 87 + seatIndex
    else if blockIndex == 16 && area == Some(RB) then 100 + seatIndex
    else 9 + seatIndex
  }

  /** The cell the map draws for entry `seatIndex` of the block at `blockIndex` of `row`. */
  function DrawnCell(row: BlockRow, blockIndex: int, seatIndex: int, logs: seq<Log>): (c: Cell)
    requires 0 <= blockIndex < |row.blocks| && row.blocks[blockIndex].Some?
    requires 0 <= seatIndex < |row.blocks[blockIndex].value.seats|
    ensures c.column == GridColumn(row.rowNumber, blockIndex, seatIndex, row.blocks[blockIndex].value.area)
    ensures c.Spacer? <==> row.blocks[blockIndex].value.seats[seatIndex].None?
  {
    var block := row.blocks[blockIndex].value;
    RenderCell(2, row.rowNumber, GridColumn(row.rowNumber, blockIndex, seatIndex, block.area), block.area,
               block.seats[seatIndex], logs)
  }

  /** The column of seat n of `area` in row r, when the row has that seat. */
  function ColumnOf(r: int, area: Option<Area>, n: int): Option<int>
    requires 1 <= r <= 7
  {
    match Locate(RowSpecs(r), area, n, 0)
    case None => None
    case Some((k, i)) => Some(GridColumn(r, 2 * k, i, area))
  }

  /**
   * A seat with a column is really drawn there: the floor's row r has, at an even block index,
   * a block of that area whose entry is the seat, and its cell is a button for that seat at
   * that column.
   */
  lemma ColumnOfIsDrawn(r: int, area: Option<Area>, n: int, logs: seq<Log>)
    requires 1 <= r <= 7 && Locate(RowSpecs(r), area, n, 0).Some?
    ensures var (k, i) := Locate(RowSpecs(r), area, n, 0).value;
            var row := GenerateSecondFloor().rows[r - 1];
            2 * k < |row.blocks| && row.blocks[2 * k].Some? && row.blocks[2 * k].value.area == area &&
            i < |row.blocks[2 * k].value.seats| && row.blocks[2 * k].value.seats[i] == Some(n) &&
            DrawnCell(row, 2 * k, i, logs) == SeatButton(ColumnOf(r, area, n).value, SeatRecord(2, r, area, n, logs))
  {
    LocateFinds(RowSpecs(r), area, n, 0);
    var (k, i) := Locate(RowSpecs(r), area, n, 0).value;
    var row := GenerateSecondFloor().rows[r - 1];
    assert row.rowNumber == r && row.blocks == Aisled(RowBlocks(r));
    AisledAt(RowBlocks(r), k);
  }

  /** Row 1 seat 11 and row 2 seat 10 share column 21; row 2 seat 9 and row 3 seat 9 share a column. */
  lemma BlockTwoAlignment()
    ensures ColumnOf(1, None, 11) == Some(21) && ColumnOf(2, None, 10) == Some(21)
    ensures ColumnOf(2, None, 9).Some? && ColumnOf(2, None, 9) == ColumnOf(3, None, 9)
  {
  }

  /** Row 3 seat 3 is under row 2 seat 3, and row 4 seat 3 under row 3 seat 4. */
  lemma BlockOneAlignment()
    ensures ColumnOf(3, None, 3).Some? && ColumnOf(3, None, 3) == ColumnOf(2, None, 3)
    ensures ColumnOf(4, None, 3).Some? && ColumnOf(4, None, 3) == ColumnOf(3, None, 4)
  {
  }

  /** Seats R5-4, R6-3 and R7-2 all stand at column 17. */
  lemma BackRowsLeftAnchor()
    ensures ColumnOf(5, None, 4) == Some(17)
    ensures ColumnOf(6, None, 3) == Some(17)
    ensures ColumnOf(7, None, 2) == Some(17)
  {
  }

  /** The centre anchor: seat 26 of rows 1 to 6, and seat 25 of row 7, stand at column 45. */
  lemma CentreAnchor()
    ensures forall r :: 1 <= r <= 6 ==> ColumnOf(r, None, 26) == Some(45)
    ensures ColumnOf(7, None, 25) == Some(45)
  {
    assert ColumnOf(1, None, 26) == Some(45);
    assert ColumnOf(2, None, 26) == Some(45);
    assert ColumnOf(3, None, 26) == Some(45);
    assert ColumnOf(4, None, 26) == Some(45);
    assert ColumnOf(5, None, 26) == Some(45);
    assert ColumnOf(6, None, 26) == Some(45);
  }

  /** Row 2's LB7-LB10 stand under row 1's LB3-LB6. */
  lemma BalconyAlignment()
    ensures forall n :: 7 <= n <= 10 ==> ColumnOf(2, Some(LB), n).Some? && ColumnOf(2, Some(LB), n) == ColumnOf(1, Some(LB), n - 4)
  {
    assert ColumnOf(2, Some(LB), 7) == ColumnOf(1, Some(LB), 3) == Some(3);
    assert ColumnOf(2, Some(LB), 8) == ColumnOf(1, Some(LB), 4) == Some(4);
    assert ColumnOf(2, Some(LB), 9) == ColumnOf(1, Some(LB), 5) == Some(5);
    assert ColumnOf(2, Some(LB), 10) == ColumnOf(1, Some(LB), 6) == Some(6);
  }

  // ---------------------------------------------------------------------------
  // No two entries of a row in one column

  /** Within a block of the table, entry i stands i columns right of the block's first entry. */
  lemma ColumnShift(r: int, k: int, i: int)
    requires 1 <= r <= 7 && 0 <= k < |RowBlocks(r)|
    ensures GridColumn(r, 2 * k, i, RowBlocks(r)[k].area) == GridColumn(r, 2 * k, 0, RowBlocks(r)[k].area) + i
  {
  }

  /** Each block of row r ends left of where the next one starts. */
  predicate BlocksInOrder(r: int)
    requires 1 <= r <= 7
  {
    var bs := RowBlocks(r);
    forall k :: 0 <= k < |bs| - 1 ==>
      GridColumn(r, 2 * k, 0, bs[k].area) + |bs[k].seats| <= GridColumn(r, 2 * (k + 1), 0, bs[k + 1].area)
  }

  /** Do the blocks of `specs` from position k on, drawn in row r, each end left of the next one's start? */
  function InOrderFrom(r: int, specs: seq<BlockSpec>, k: nat): bool
    decreases |specs| - k
  {
    if k + 1 >= |specs| then true
    else GridColumn(r, 2 * k, 0, specs[k].area) + Width(specs[k]) <= GridColumn(r, 2 * (k + 1), 0, specs[k + 1].area)
         && InOrderFrom(r, specs, k + 1)
  }

  /** The order check of row r, read off its table. */
  lemma InOrderChecked(r: int)
    requires 1 <= r <= 7
    ensures InOrderFrom(r, RowSpecs(r), 0)
  {
    if r == 1 {
      Row1InOrder();
    } else if r == 2 {
      Row2InOrder();
    } else if r == 3 {
      Row3InOrder();
    } else if r == 4 {
      Row4InOrder();
    } else if r == 5 {
      Row5InOrder();
    } else if r == 6 {
      Row6InOrder();
    } else {
      Row7InOrder();
    }
  }

  // Each row on its own, so that one proof reads one table.

  lemma Row1InOrder()
    ensures InOrderFrom(1, Row1Specs, 0)
  {
  }

  lemma Row2InOrder()
    ensures InOrderFrom(2, Row2Specs, 0)
  {
  }

  lemma Row3InOrder()
    ensures InOrderFrom(3, Row3Specs, 0)
  {
  }

  lemma Row4InOrder()
    ensures InOrderFrom(4, Row4Specs, 0)
  {
  }

  lemma Row5InOrder()
    ensures InOrderFrom(5, Row5Specs, 0)
  {
  }

  lemma Row6InOrder()
    ensures InOrderFrom(6, Row6Specs, 0)
  {
  }

  lemma Row7InOrder()
    ensures InOrderFrom(7, Row7Specs, 0)
  {
  }

  lemma {:induction false} InOrderAt(r: int, specs: seq<BlockSpec>, k: nat, j: nat)
    requires InOrderFrom(r, specs, k) && k <= j && j + 1 < |specs|
    ensures GridColumn(r, 2 * j, 0, specs[j].area) + Width(specs[j]) <= GridColumn(r, 2 * (j + 1), 0, specs[j + 1].area)
    decreases j - k
  {
    if k < j {
      InOrderAt(r, specs, k + 1, j);
    }
  }

  /** Every row of the table passes the order check. */
  lemma AllBlocksInOrder(r: int)
    requires 1 <= r <= 7
    ensures BlocksInOrder(r)
  {
    InOrderChecked(r);
    forall k | 0 <= k < |RowBlocks(r)| - 1
      ensures GridColumn(r, 2 * k, 0, RowBlocks(r)[k].area) + |RowBlocks(r)[k].seats|
           <= GridColumn(r, 2 * (k + 1), 0, RowBlocks(r)[k + 1].area)
    {
      InOrderAt(r, RowSpecs(r), 0, k);
      ExpandWidth(RowSpecs(r)[k]);
    }
  }

  /**
   * In every row, of two entries (seats or spacers) the one further along the block list is
   * drawn further right, so no two entries share a column.
   */
  lemma EntriesLeftToRight(r: int, k1: int, i1: int, k2: int, i2: int)
    requires 1 <= r <= 7 && 0 <= k1 <= k2 < |RowBlocks(r)|
    requires 0 <= i1 < |RowBlocks(r)[k1].seats| && 0 <= i2 < |RowBlocks(r)[k2].seats|
    requires k1 < k2 || i1 < i2
    ensures GridColumn(r, 2 * k1, i1, RowBlocks(r)[k1].area) < GridColumn(r, 2 * k2, i2, RowBlocks(r)[k2].area)
  {
    var bs := RowBlocks(r);
    ColumnShift(r, k1, i1);
    ColumnShift(r, k2, i2);
    if k1 < k2 {
      var starts := seq(|bs|, k requires 0 <= k < |bs| => GridColumn(r, 2 * k, 0, bs[k].area));
      var widths: seq<nat> := seq(|bs|, k requires 0 <= k < |bs| => |bs[k].seats|);
      AllBlocksInOrder(r);
      StartsAscend(starts, widths, k1, k2);
    }
  }
}
