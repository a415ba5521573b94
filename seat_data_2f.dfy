/** `generateSecondFloor`: the block table of the second floor, rows 1 to 7. */
module SecondFloorData {
  import opened Wrappers
  import opened TheaterTypes
  import opened SeatBlocks
  import opened SeatIds

  /** Row 1: LB 1-6, then 2-10, 11-18, 19-25, 26-37, 38-44, 45-52, 53-61, RB 1-6. */
  const Row1Specs: seq<BlockSpec> := [
    Numbered(Some(LB), 0, 1, 6, 0),
    Numbered(None, 0, 2, 10, 0),
    Numbered(None, 0, 11, 18, 0),
    Numbered(None, 0, 19, 25, 0),
    Numbered(None, 0, 26, 37, 0),
    Numbered(None, 0, 38, 44, 0),
    Numbered(None, 0, 45, 52, 0),
    Numbered(None, 0, 53, 61, 0),
    Numbered(Some(RB), 0, 1, 6, 0)]

  /** Row 2: LB 7-10, then 1-8, 9-17, 18-25, 26-37, 38-45, 46-54, 55-62, RB 7-10. */
  const Row2Specs: seq<BlockSpec> := [
    Numbered(Some(LB), 0, 7, 10, 0),
    Numbered(None, 0, 1, 8, 0),
    Numbered(None, 0, 9, 17, 0),
    Numbered(None, 0, 18, 25, 0),
    Numbered(None, 0, 26, 37, 0),
    Numbered(None, 0, 38, 45, 0),
    Numbered(None, 0, 46, 54, 0),
    Numbered(None, 0, 55, 62, 0),
    Numbered(Some(RB), 0, 7, 10, 0)]

  /** Row 3: empty LB (4 spacers), two spacers then 3-7 then one spacer, 8-17, ..., 56-60, empty RB. */
  const Row3Specs: seq<BlockSpec> := [
    Spacers(Some(LB), 4),
    Numbered(None, 2, 3, 7, 1),
    Numbered(None, 0, 8, 17, 0),
    Numbered(None, 0, 18, 25, 0),
    Numbered(None, 0, 26, 37, 0),
    Numbered(None, 0, 38, 45, 0),
    Numbered(None, 0, 46, 55, 0),
    Numbered(None, 0, 56, 60, 0),
    Spacers(Some(RB), 4)]

  /** Row 4: empty LB, three spacers then 3-5, 6-16, 17-25, 26-37, 38-46, 47-57, 58-60, empty RB. */
  const Row4Specs: seq<BlockSpec> := [
    Spacers(Some(LB), 4),
    Numbered(None, 3, 3, 5, 0),
    Numbered(None, 0, 6, 16, 0),
    Numbered(None, 0, 17, 25, 0),
    Numbered(None, 0, 26, 37, 0),
    Numbered(None, 0, 38, 46, 0),
    Numbered(None, 0, 47, 57, 0),
    Numbered(None, 0, 58, 60, 0),
    Spacers(Some(RB), 4)]

  /** Row 5: five blocks, 4-15, 16-25, 26-37, 38-47, 48-59. */
  const Row5Specs: seq<BlockSpec> := [
    Numbered(None, 0, 4, 15, 0),
    Numbered(None, 0, 16, 25, 0),
    Numbered(None, 0, 26, 37, 0),
    Numbered(None, 0, 38, 47, 0),
    Numbered(None, 0, 48, 59, 0)]

  /** Row 6: five blocks, 3-14, 15-25, 26-37, 38-48, 49-60. */
  const Row6Specs: seq<BlockSpec> := [
    Numbered(None, 0, 3, 14, 0),
    Numbered(None, 0, 15, 25, 0),
    Numbered(None, 0, 26, 37, 0),
    Numbered(None, 0, 38, 48, 0),
    Numbered(None, 0, 49, 60, 0)]

  /** Row 7: four blocks, 2-13, 14-24, 25-36, 37-49. */
  const Row7Specs: seq<BlockSpec> := [
    Numbered(None, 0, 2, 13, 0),
    Numbered(None, 0, 14, 24, 0),
    Numbered(None, 0, 25, 36, 0),
    Numbered(None, 0, 37, 49, 0)]

  /** The specs of row r. */
  function RowSpecs(r: int): (specs: seq<BlockSpec>)
    requires 1 <= r <= 7
    ensures AllWellFormed(specs)
  {
    if r == 1 then Row1Specs
    else if r == 2 then Row2Specs
    else if r == 3 then Row3Specs
    else if r == 4 then Row4Specs
    else if r == 5 then Row5Specs
    else if r == 6 then Row6Specs
    else Row7Specs
  }

  /** The blocks of row r in order, without the aisles. */
  function RowBlocks(r: int): seq<SeatBlock>
    requires 1 <= r <= 7
  {
    Blocks(RowSpecs(r))
  }

  /** `generateSecondFloor`: floor 2, rows 1 to 7 in order, each alternating block and aisle. */
  function GenerateSecondFloor(): (f: BlockFloor)
    ensures f.floor == 2 && |f.rows| == 7
    ensures forall i :: 0 <= i < 7 ==>
              f.rows[i].rowNumber == i + 1 && f.rows[i].blocks == Aisled(RowBlocks(i + 1)) && Alternates(f.rows[i].blocks)
  {
    BlockFloor(2, seq(7, i requires 0 <= i < 7 => BlockRow(i + 1, Aisled(RowBlocks(i + 1)))))
  }

  /** Row 1 has nine blocks of 6 (LB), 9, 8, 7, 12, 7, 8, 9 and 6 (RB) seats. */
  lemma RowOneBlockSizes()
    ensures |RowBlocks(1)| == 9
    ensures forall k :: 0 <= k < 9 ==> |RowBlocks(1)[k].seats| == [6, 9, 8, 7, 12, 7, 8, 9, 6][k]
    ensures RowBlocks(1)[0].area == Some(LB) && RowBlocks(1)[8].area == Some(RB)
    ensures forall k :: 1 <= k < 8 ==> RowBlocks(1)[k].area == None
  {
  }

  /** Rows 5, 6 and 7 hold 56, 58 and 48 seats. */
  lemma BackRowSeatCounts()
    ensures SeatCount(RowBlocks(5)) == 56
    ensures SeatCount(RowBlocks(6)) == 58
    ensures SeatCount(RowBlocks(7)) == 48
  {
    Row5SeatCount();
    Row6SeatCount();
    Row7SeatCount();
  }

  // Each row on its own, so that one proof reads one table.

  lemma Row5SeatCount()
    ensures SeatCount(RowBlocks(5)) == 56
  {
    SeatCountOfSpecs(Row5Specs, 0);
    assert Blocks(Row5Specs)[0..] == Blocks(Row5Specs);
  }

  lemma Row6SeatCount()
    ensures SeatCount(RowBlocks(6)) == 58
  {
    SeatCountOfSpecs(Row6Specs, 0);
    assert Blocks(Row6Specs)[0..] == Blocks(Row6Specs);
  }

  lemma Row7SeatCount()
    ensures SeatCount(RowBlocks(7)) == 48
  {
    SeatCountOfSpecs(Row7Specs, 0);
    assert Blocks(Row7Specs)[0..] == Blocks(Row7Specs);
  }

  /**
   * Rows 3 and 4 keep their balcony blocks, four spacers each with no seat; rows 5 to 7 have
   * no balcony block at all.
   */
  lemma BalconyAreas()
    ensures forall r :: 3 <= r <= 4 ==>
              var bs := RowBlocks(r);
              |bs| == 9 && bs[0] == SeatBlock(Some(LB), Nulls(4)) && bs[8] == SeatBlock(Some(RB), Nulls(4))
    ensures forall r, k :: 5 <= r <= 7 && 0 <= k < |RowBlocks(r)| ==> RowBlocks(r)[k].area == None
  {
  }

  /** The numbers each row holds in `area` (no area: the plain blocks), as one run lo..hi; lo > hi is none. */
  function NumberRun(r: int, area: Option<Area>): (bounds: (int, int))
    requires 1 <= r <= 7
    ensures bounds.0 >= 1
  {
    match area
    case None => [(2, 61), (1, 62), (3, 60), (3, 60), (4, 59), (3, 60), (2, 49)][r - 1]
    case Some(_) => if r == 1 then (1, 6) else if r == 2 then (7, 10) else (1, 0)
  }

  /** The run check of one row and area, read off the specs. */
  lemma RunChecked(r: int, area: Option<Area>)
    requires 1 <= r <= 7
    ensures RunsOnFrom(RowSpecs(r), area, NumberRun(r, area).0, 0, |RowSpecs(r)|) == Some(NumberRun(r, area).1 + 1)
  {
    match area
    case None => PlainRunChecked(r);
    case Some(a) => BalconyRunChecked(r, a);
  }

  lemma PlainRunChecked(r: int)
    requires 1 <= r <= 7
    ensures RunsOnFrom(RowSpecs(r), None, NumberRun(r, None).0, 0, |RowSpecs(r)|) == Some(NumberRun(r, None).1 + 1)
  {
    if r == 1 {
      assert RowSpecs(r) == Row1Specs && |Row1Specs| == 9;
    } else if r == 2 {
      assert RowSpecs(r) == Row2Specs && |Row2Specs| == 9;
    } else if r == 3 {
      assert RowSpecs(r) == Row3Specs && |Row3Specs| == 9;
    } else if r == 4 {
      assert RowSpecs(r) == Row4Specs && |Row4Specs| == 9;
    } else if r == 5 {
      assert RowSpecs(r) == Row5Specs && |Row5Specs| == 5;
    } else if r == 6 {
      assert RowSpecs(r) == Row6Specs && |Row6Specs| == 5;
    } else {
      assert RowSpecs(r) == Row7Specs && |Row7Specs| == 4;
    }
  }

  lemma BalconyRunChecked(r: int, a: Area)
    requires 1 <= r <= 7
    ensures RunsOnFrom(RowSpecs(r), Some(a), NumberRun(r, Some(a)).0, 0, |RowSpecs(r)|) == Some(NumberRun(r, Some(a)).1 + 1)
  {
    if r == 1 {
      assert RowSpecs(r) == Row1Specs && |Row1Specs| == 9;
    } else if r == 2 {
      assert RowSpecs(r) == Row2Specs && |Row2Specs| == 9;
    } else if r == 3 {
      assert RowSpecs(r) == Row3Specs && |Row3Specs| == 9;
    } else if r == 4 {
      assert RowSpecs(r) == Row4Specs && |Row4Specs| == 9;
    } else if r == 5 {
      assert RowSpecs(r) == Row5Specs && |Row5Specs| == 5;
    } else if r == 6 {
      assert RowSpecs(r) == Row6Specs && |Row6Specs| == 5;
    } else {
      assert RowSpecs(r) == Row7Specs && |Row7Specs| == 4;
    }
  }

  /**
   * In every row the plain blocks cover one unbroken ascending run of numbers, and so do the
   * LB and the RB block.
   */
  lemma SecondFloorNumbers(r: int, area: Option<Area>)
    requires 1 <= r <= 7
    ensures AreaNumbers(RowBlocks(r), area) == Range(NumberRun(r, area).0, NumberRun(r, area).1)
  {
    var (lo, hi) := NumberRun(r, area);
    RunChecked(r, area);
    RunsOnNumbers(RowSpecs(r), area, lo, hi + 1, 0, |RowSpecs(r)|);
    assert RowBlocks(r)[0..|RowBlocks(r)|] == RowBlocks(r);
  }

  /** No two seats of the floor share an id. */
  lemma SecondFloorIdsUnique(r1: int, a1: Option<Area>, j1: int, r2: int, a2: Option<Area>, j2: int)
    requires 1 <= r1 <= 7 && 1 <= r2 <= 7
    requires 0 <= j1 < |AreaNumbers(RowBlocks(r1), a1)| && 0 <= j2 < |AreaNumbers(RowBlocks(r2), a2)|
    requires SeatIdOf(2, r1, a1, AreaNumbers(RowBlocks(r1), a1)[j1])
          == SeatIdOf(2, r2, a2, AreaNumbers(RowBlocks(r2), a2)[j2])
    ensures r1 == r2 && a1 == a2 && j1 == j2
  {
    SecondFloorNumbers(r1, a1);
    SecondFloorNumbers(r2, a2);
    SeatIdInjective(2, r1, a1, AreaNumbers(RowBlocks(r1), a1)[j1], 2, r2, a2, AreaNumbers(RowBlocks(r2), a2)[j2]);
  }
}
