/**
 * The third-floor seat map: the grid column of every seat (`calculateGridColumn`), the cell
 * drawn for each entry of the floor's block table, and the test that highlights the selected
 * seat.
 */
module SeatMap3F {
  import opened Wrappers
  import opened TheaterTypes
  import opened LogStore
  import opened SeatBlocks
  import opened SeatIds
  import opened ThirdFloorData
  import opened SeatCells

  /** The columns at which a block's first entry can be drawn. */
  const BlockStarts: set<int> := {1, 2, 8, 10, 15, 17, 18, 19, 28, 29, 30, 31, 32, 44, 58, 59, 72, 84, 85, 86, 96}

  /**
   * `calculateGridColumn`: the column of entry `seatIndex` of the block at `blockIndex` of row
   * `row`; rows from 3 on and rows 1-2 have separate tables, and a combination neither table
   * knows is drawn at column 1.
   */
  function GridColumn(row: int, blockIndex: int, seatIndex: int, area: Option<Area>): (col: int)
    ensures col == 1 || col - seatIndex in BlockStarts
  {
    if row >= 3 then
      if blockIndex == 0 && area.None? && 3 <= row <= 7 then (if row == 3 then 10 else 15) + seatIndex
      else if blockIndex == 2 && 3 <= row <= 7 then [17, 30, 30, 29, 28][row - 3] + seatIndex
      else if blockIndex == 4 && 3 <= row <= 7 then (if row == 3 then 31 else 44) + seatIndex
      else if blockIndex == 6 && 3 <= row <= 7 then (if row == 3 then 44 else 58) + seatIndex
      else if blockIndex == 8 && 3 <= row <= 7 then (if row == 3 then 59 else 72) + seatIndex
      else if blockIndex == 10 && row == 3 then 72 + seatIndex
      else if blockIndex == 12 && row == 3 then 86 + seatIndex
      else 1
    else if blockIndex == 0 && area == Some(LB) then (if row == 2 then 2 else 1) + seatIndex
    else if blockIndex == 2 then 8 + seatIndex
    else if blockIndex == 4 then (if row == 2 then 19 - 1 else 19) + seatIndex
    else if blockIndex == 6 && row == 1 then 32 + seatIndex
    else if blockIndex == 6 && row == 2 then 31 + seatIndex
    else if blockIndex == 8 then 44 + seatIndex
    else if blockIndex == 10 then 59 + seatIndex
    else if blockIndex == 12 then 72 + seatIndex
    else if blockIndex == 14 && row == 1 then 84 + seatIndex
    else if blockIndex == 14 && row == 2 then 85 + seatIndex
    else if blockIndex == 16 && area == Some(RB) then 96 + seatIndex
    else 1
  }

  /**
   * The combinations the two tables know: from row 3 on, a plain block 0 and blocks 2-8 of
   * rows 3-7 and blocks 10 and 12 of row 3; below row 3, an LB block 0, blocks 2, 4, 8, 10
   * and 12, blocks 6 and 14 of rows 1 and 2, and an RB block 16.
   */
  predicate Matched(row: int, blockIndex: int, area: Option<Area>)
  {
    if row >= 3 then
      3 <= row <= 7 && ((blockIndex == 0 && area.None?) || blockIndex in {2, 4, 6, 8} || (row == 3 && blockIndex in {10, 12}))
    else
      (blockIndex == 0 && area == Some(LB)) || blockIndex in {2, 4, 8, 10, 12}
      || (blockIndex in {6, 14} && (row == 1 || row == 2)) || (blockIndex == 16 && area == Some(RB))
  }

  /**
   * Every combination the tables do not know is drawn at column 1, whatever the entry; a known
   * one is drawn at a block start plus the seat index.
   */
  lemma UnmatchedColumn(row: int, blockIndex: int, seatIndex: int, area: Option<Area>)
    ensures !Matched(row, blockIndex, area) ==> GridColumn(row, blockIndex, seatIndex, area) == 1
    ensures Matched(row, blockIndex, area) ==> GridColumn(row, blockIndex, seatIndex, area) - seatIndex in BlockStarts
  {
  }

  /** The cell the map draws for entry `seatIndex` of the block at `blockIndex` of `row`. */
  function DrawnCell(row: BlockRow, blockIndex: int, seatIndex: int, logs: seq<Log>): (c: Cell)
    requires 0 <= blockIndex < |row.blocks| && row.blocks[blockIndex].Some?
    requires 0 <= seatIndex < |row.blocks[blockIndex].value.seats|
    ensures c.column == GridColumn(row.rowNumber, blockIndex, seatIndex, row.blocks[blockIndex].value.area)
    ensures c.Spacer? <==> row.blocks[blockIndex].value.seats[seatIndex].None?
  {
    var block := row.blocks[blockIndex].value;
    RenderCell(3, row.rowNumber, GridColumn(row.rowNumber, blockIndex, seatIndex, block.area), block.area,
               block.seats[seatIndex], logs)
  }

  /** The column of seat n of `area` in row r, when the row has that seat. */
  function ColumnOf(r: int, area: Option<Area>, n: int): Option<int>
    requires 1 <= r <= 7
  {
    match Locate(RowSpecs(r), area, n, 0)
    case None => None
    case Some((k, i)) => Some(GridColumn(r, 2 * k, i, area))
  }

  /**
   * A seat with a column is really drawn there: the floor's row r has, at an even block index,
   * a block of that area whose entry is the seat, and its cell is a button for that seat at
   * that column.
   */
  lemma ColumnOfIsDrawn(r: int, area: Option<Area>, n: int, logs: seq<Log>)
    requires 1 <= r <= 7 && Locate(RowSpecs(r), area, n, 0).Some?
    ensures var (k, i) := Locate(RowSpecs(r), area, n, 0).value;
            var row := GenerateThirdFloor().rows[r - 1];
            2 * k < |row.blocks| && row.blocks[2 * k].Some? && row.blocks[2 * k].value.area == area &&
            i < |row.blocks[2 * k].value.seats| && row.blocks[2 * k].value.seats[i] == Some(n) &&
            DrawnCell(row, 2 * k, i, logs) == SeatButton(ColumnOf(r, area, n).value, SeatRecord(3, r, area, n, logs))
  {
    LocateFinds(RowSpecs(r), area, n, 0);
    var (k, i) := Locate(RowSpecs(r), area, n, 0).value;
    var row := GenerateThirdFloor().rows[r - 1];
    assert row.rowNumber == r && row.blocks == Aisled(RowBlocks(r));
    AisledAt(RowBlocks(r), k);
  }

  /** Row 2's LB7 stands at column 2 under row 1's LB4; row 2 seat 10 at column 19 under row 1 seat 11. */
  lemma FrontRowsAlignment()
    ensures ColumnOf(2, Some(LB), 7) == Some(2) && ColumnOf(1, Some(LB), 4) == Some(2)
    ensures ColumnOf(2, None, 10) == Some(19) && ColumnOf(1, None, 11) == Some(19)
  {
  }

  /**
   * Seat 16 of rows 4 to 6 stands at column 30; seat 15 of rows 6 and 7 at column 29; row 7
   * seat 2 and row 6 seat 3 at column 15.
   */
  lemma BackRowsAlignment()
    ensures ColumnOf(4, None, 16) == Some(30) && ColumnOf(5, None, 16) == Some(30) && ColumnOf(6, None, 16) == Some(30)
    ensures ColumnOf(6, None, 15) == Some(29) && ColumnOf(7, None, 15) == Some(29)
    ensures ColumnOf(6, None, 3) == Some(15) && ColumnOf(7, None, 2) == Some(15)
  {
  }

  /** Seat 26 stands at column 44 in all seven rows. */
  lemma CentreAnchor()
    ensures forall r :: 1 <= r <= 7 ==> ColumnOf(r, None, 26) == Some(44)
  {
    assert ColumnOf(1, None, 26) == Some(44);
    assert ColumnOf(2, None, 26) == Some(44);
    assert ColumnOf(3, None, 26) == Some(44);
    assert ColumnOf(4, None, 26) == Some(44);
    assert ColumnOf(5, None, 26) == Some(44);
    assert ColumnOf(6, None, 26) == Some(44);
    assert ColumnOf(7, None, 26) == Some(44);
  }

  /** Seat 50 of rows 4 to 7 and the first seat of the sixth block of rows 1 to 3 (45, 46, 46) share column 72. */
  lemma RightAnchor()
    ensures forall r :: 4 <= r <= 7 ==> ColumnOf(r, None, 50) == Some(72)
    ensures ColumnOf(1, None, 45) == Some(72) && ColumnOf(2, None, 46) == Some(72) && ColumnOf(3, None, 46) == Some(72)
    ensures RowBlocks(1)[6].seats[0] == Some(45) && RowBlocks(2)[6].seats[0] == Some(46) && RowBlocks(3)[5].seats[0] == Some(46)
  {
    assert ColumnOf(4, None, 50) == Some(72);
    assert ColumnOf(5, None, 50) == Some(72);
    assert ColumnOf(6, None, 50) == Some(72);
    assert ColumnOf(7, None, 50) == Some(72);
  }

  // ---------------------------------------------------------------------------
  // Highlighting the selected seat

  /** The highlight test as the third-floor map writes it: same floor, row and number. */
  predicate IsSelectedAsWritten(selected: Option<Seat>, seat: Seat)
  {
    selected.Some? && selected.value.floor == seat.floor && selected.value.row == seat.row
    && selected.value.number == seat.number
  }

  /**
   * The test as written highlights two seats at once: with LB3 of row 1 selected, plain seat 3
   * of row 1, another seat of the table with another id, is highlighted too.
   */
  lemma AsWrittenHighlightsBalconyTwin(logs: seq<Log>)
    ensures var lb3 := SeatRecord(3, 1, Some(LB), 3, logs);
            var plain3 := SeatRecord(3, 1, None, 3, logs);
            3 in AreaNumbers(RowBlocks(1), Some(LB)) && 3 in AreaNumbers(RowBlocks(1), None) &&
            lb3.id != plain3.id && IsSelectedAsWritten(Some(lb3), plain3)
  {
    TwinsSeated();
    TwinIdsDiffer();
  }

  lemma TwinsSeated()
    ensures 3 in AreaNumbers(RowBlocks(1), Some(LB)) && 3 in AreaNumbers(RowBlocks(1), None)
  {
    BalconyThreeSeated();
    PlainThreeSeated();
  }

  lemma BalconyThreeSeated()
    ensures 3 in AreaNumbers(RowBlocks(1), Some(LB))
  {
    ThirdFloorNumbers(1, Some(LB), 3);
  }

  lemma PlainThreeSeated()
    ensures 3 in AreaNumbers(RowBlocks(1), None)
  {
    ThirdFloorNumbers(1, None, 3);
  }

  lemma TwinIdsDiffer()
    ensures SeatIdOf(3, 1, Some(LB), 3) == "3F-1-LB3" && SeatIdOf(3, 1, None, 3) == "3F-1-3"
  {
  }

  /**
   * Highlighting by id, the test the first-floor map uses: a seat of the table is highlighted
   * exactly when it is the selected seat of the table.
   */
  lemma SelectedByIdIsExact(r1: int, a1: Option<Area>, n1: int, r2: int, a2: Option<Area>, n2: int, logs: seq<Log>)
    requires 1 <= r1 <= 7 && 1 <= r2 <= 7
    requires n1 in AreaNumbers(RowBlocks(r1), a1) && n2 in AreaNumbers(RowBlocks(r2), a2)
    ensures SelectedById(Some(SeatRecord(3, r1, a1, n1, logs)), SeatRecord(3, r2, a2, n2, logs))
        <==> r1 == r2 && a1 == a2 && n1 == n2
  {
    ThirdFloorNumbers(r1, a1, n1);
    ThirdFloorNumbers(r2, a2, n2);
    if SeatIdOf(3, r1, a1, n1) == SeatIdOf(3, r2, a2, n2) {
      SeatIdInjective(3, r1, a1, n1, 3, r2, a2, n2);
    }
  }

  // ---------------------------------------------------------------------------
  // No two entries of a row in one column

  /** Within a block of the table, entry i stands i columns right of the block's first entry. */
  lemma ColumnShift(r: int, k: int, i: int)
    requires 1 <= r <= 7 && 0 <= k < |RowBlocks(r)|
    ensures GridColumn(r, 2 * k, i, RowBlocks(r)[k].area) == GridColumn(r, 2 * k, 0, RowBlocks(r)[k].area) + i
  {
    BalconyAreas();
  }

  /** Each block of row r ends left of where the next one starts. */
  predicate BlocksInOrder(r: int)
    requires 1 <= r <= 7
  {
    var bs := RowBlocks(r);
    forall k :: 0 <= k < |bs| - 1 ==>
      GridColumn(r, 2 * k, 0, bs[k].area) + |bs[k].seats| <= GridColumn(r, 2 * (k + 1), 0, bs[k + 1].area)
  }

  /** Do the blocks of `specs` from position k on, drawn in row r, each end left of the next one's start? */
  function InOrderFrom(r: int, specs: seq<BlockSpec>, k: nat): bool
    decreases |specs| - k
  {
    if k + 1 >= |specs| then true
    else GridColumn(r, 2 * k, 0, specs[k].area) + Width(specs[k]) <= GridColumn(r, 2 * (k + 1), 0, specs[k + 1].area)
         && InOrderFrom(r, specs, k + 1)
  }

  /** The order check of row r, read off its table. */
  lemma InOrderChecked(r: int)
    requires 1 <= r <= 7
    ensures InOrderFrom(r, RowSpecs(r), 0)
  {
    if r == 1 {
      Row1InOrder();
    } else if r == 2 {
      Row2InOrder();
    } else if r == 3 {
      Row3InOrder();
    } else if r == 4 {
      Row4InOrder();
    } else if r == 5 {
      Row5InOrder();
    } else if r == 6 {
      Row6InOrder();
    } else {
      Row7InOrder();
    }
  }

  // Each row on its own, so that one proof reads one table.

  lemma Row1InOrder()
    ensures InOrderFrom(1, Row1Specs, 0)
  {
  }

  lemma Row2InOrder()
    ensures InOrderFrom(2, Row2Specs, 0)
  {
  }

  lemma Row3InOrder()
    ensures InOrderFrom(3, Row3Specs, 0)
  {
  }

  lemma Row4InOrder()
    ensures InOrderFrom(4, Row4Specs, 0)
  {
  }

  lemma Row5InOrder()
    ensures InOrderFrom(5, Row5Specs, 0)
  {
  }

  lemma Row6InOrder()
    ensures InOrderFrom(6, Row6Specs, 0)
  {
  }

  lemma Row7InOrder()
    ensures InOrderFrom(7, Row7Specs, 0)
  {
  }

  lemma {:induction false} InOrderAt(r: int, specs: seq<BlockSpec>, k: nat, j: nat)
    requires InOrderFrom(r, specs, k) && k <= j && j + 1 < |specs|
    ensures GridColumn(r, 2 * j, 0, specs[j].area) + Width(specs[j]) <= GridColumn(r, 2 * (j + 1), 0, specs[j + 1].area)
    decreases j - k
  {
    if k < j {
      InOrderAt(r, specs, k + 1, j);
    }
  }

  /** Every row of the table passes the order check. */
  lemma AllBlocksInOrder(r: int)
    requires 1 <= r <= 7
    ensures BlocksInOrder(r)
  {
    InOrderChecked(r);
    forall k | 0 <= k < |RowBlocks(r)| - 1
      ensures GridColumn(r, 2 * k, 0, RowBlocks(r)[k].area) + |RowBlocks(r)[k].seats|
           <= GridColumn(r, 2 * (k + 1), 0, RowBlocks(r)[k + 1].area)
    {
      InOrderAt(r, RowSpecs(r), 0, k);
      ExpandWidth(RowSpecs(r)[k]);
    }
  }

  /**
   * In every row, of two entries (seats or spacers) the one further along the block list is
   * drawn further right, so no two entries share a column.
   */
  lemma EntriesLeftToRight(r: int, k1: int, i1: int, k2: int, i2: int)
    requires 1 <= r <= 7 && 0 <= k1 <= k2 < |RowBlocks(r)|
    requires 0 <= i1 < |RowBlocks(r)[k1].seats| && 0 <= i2 < |RowBlocks(r)[k2].seats|
    requires k1 < k2 || i1 < i2
    ensures GridColumn(r, 2 * k1, i1, RowBlocks(r)[k1].area) < GridColumn(r, 2 * k2, i2, RowBlocks(r)[k2].area)
  {
    var bs := RowBlocks(r);
    ColumnShift(r, k1, i1);
    ColumnShift(r, k2, i2);
    if k1 < k2 {
      var starts := seq(|bs|, k requires 0 <= k < |bs| => GridColumn(r, 2 * k, 0, bs[k].area));
      var widths: seq<nat> := seq(|bs|, k requires 0 <= k < |bs| => |bs[k].seats|);
      AllBlocksInOrder(r);
      StartsAscend(starts, widths, k1, k2);
    }
  }
}
