/** `generateThirdFloor`: the block table of the third floor, rows 1 to 7. */
module ThirdFloorData {
  import opened Wrappers
  import opened TheaterTypes
  import opened SeatBlocks
  import opened SeatIds

  /** Row 1: LB 3-6, then 3-10, 11-18, 19-25, 26-37, 38-44, 45-52, 53-60, RB 3-6. */
  const Row1Specs: seq<BlockSpec> := [
    Numbered(Some(LB), 0, 3, 6, 0),
    Numbered(None, 0, 3, 10, 0),
    Numbered(None, 0, 11, 18, 0),
    Numbered(None, 0, 19, 25, 0),
    Numbered(None, 0, 26, 37, 0),
    Numbered(None, 0, 38, 44, 0),
    Numbered(None, 0, 45, 52, 0),
    Numbered(None, 0, 53, 60, 0),
    Numbered(Some(RB), 0, 3, 6, 0)]

  /** Row 2: LB 7-9, then 1-8, 9-17, 18-25, 26-37, 38-45, 46-54, 55-62, RB 7-9. */
  const Row2Specs: seq<BlockSpec> := [
    Numbered(Some(LB), 0, 7, 9, 0),
    Numbered(None, 0, 1, 8, 0),
    Numbered(None, 0, 9, 17, 0),
    Numbered(None, 0, 18, 25, 0),
    Numbered(None, 0, 26, 37, 0),
    Numbered(None, 0, 38, 45, 0),
    Numbered(None, 0, 46, 54, 0),
    Numbered(None, 0, 55, 62, 0),
    Numbered(Some(RB), 0, 7, 9, 0)]

  /** Row 3: seven blocks, 3-7, 8-17, 18-25, 26-37, 38-45, 46-55, 56-60. */
  const Row3Specs: seq<BlockSpec> := [
    Numbered(None, 0, 3, 7, 0),
    Numbered(None, 0, 8, 17, 0),
    Numbered(None, 0, 18, 25, 0),
    Numbered(None, 0, 26, 37, 0),
    Numbered(None, 0, 38, 45, 0),
    Numbered(None, 0, 46, 55, 0),
    Numbered(None, 0, 56, 60, 0)]

  /** Row 4: five blocks, 4-15, 16-25, 26-37, 38-42, 50-61. */
  const Row4Specs: seq<BlockSpec> := [
    Numbered(None, 0, 4, 15, 0),
    Numbered(None, 0, 16, 25, 0),
    Numbered(None, 0, 26, 37, 0),
    Numbered(None, 0, 38, 42, 0),
    Numbered(None, 0, 50, 61, 0)]

  /** Row 5: five blocks, 4-15, 16-25, 26-37, 38-43, 50-61. */
  const Row5Specs: seq<BlockSpec> := [
    Numbered(None, 0, 4, 15, 0),
    Numbered(None, 0, 16, 25, 0),
    Numbered(None, 0, 26, 37, 0),
    Numbered(None, 0, 38, 43, 0),
    Numbered(None, 0, 50, 61, 0)]

  /** Row 6: five blocks, 3-14, 15-25, 26-37, 38-43, 50-61. */
  const Row6Specs: seq<BlockSpec> := [
    Numbered(None, 0, 3, 14, 0),
    Numbered(None, 0, 15, 25, 0),
    Numbered(None, 0, 26, 37, 0),
    Numbered(None, 0, 38, 43, 0),
    Numbered(None, 0, 50, 61, 0)]

  /** Row 7: five blocks, 2-13, 14-25, 26-37, 38-49, 50-61. */
  const Row7Specs: seq<BlockSpec> := [
    Numbered(None, 0, 2, 13, 0),
    Numbered(None, 0, 14, 25, 0),
    Numbered(None, 0, 26, 37, 0),
    Numbered(None, 0, 38, 49, 0),
    Numbered(None, 0, 50, 61, 0)]

  /** The specs of row r. */
  function RowSpecs(r: int): (specs: seq<BlockSpec>)
    requires 1 <= r <= 7
    ensures AllWellFormed(specs)
  {
    if r == 1 then Row1Specs
    else if r == 2 then Row2Specs
    else if r == 3 then Row3Specs
    else if r == 4 then Row4Specs
    else if r == 5 then Row5Specs
    else if r == 6 then Row6Specs
    else Row7Specs
  }

  /** The blocks of row r in order, without the aisles. */
  function RowBlocks(r: int): seq<SeatBlock>
    requires 1 <= r <= 7
  {
    Blocks(RowSpecs(r))
  }

  /** `generateThirdFloor`: floor 3, rows 1 to 7 in order, each alternating block and aisle. */
  function GenerateThirdFloor(): (f: BlockFloor)
    ensures f.floor == 3 && |f.rows| == 7
    ensures forall i :: 0 <= i < 7 ==>
              f.rows[i].rowNumber == i + 1 && f.rows[i].blocks == Aisled(RowBlocks(i + 1)) && Alternates(f.rows[i].blocks)
  {
    BlockFloor(3, seq(7, i requires 0 <= i < 7 => BlockRow(i + 1, Aisled(RowBlocks(i + 1)))))
  }

  /**
   * Rows 1 and 2 have nine blocks, the LB block first, the RB block last and none between;
   * rows 3 to 7 have no balcony block.
   */
  lemma BalconyAreas()
    ensures forall r :: 1 <= r <= 2 ==>
              var bs := RowBlocks(r);
              |bs| == 9 && bs[0].area == Some(LB) && bs[8].area == Some(RB) &&
              forall k :: 1 <= k < 8 ==> bs[k].area == None
    ensures forall r, k :: 3 <= r <= 7 && 0 <= k < |RowBlocks(r)| ==> RowBlocks(r)[k].area == None
  {
  }

  /** Rows 1 to 7 hold 66, 68, 58, 51, 52, 53 and 60 seats. */
  lemma SeatCounts()
    ensures SeatCount(RowBlocks(1)) == 66
    ensures SeatCount(RowBlocks(2)) == 68
    ensures SeatCount(RowBlocks(3)) == 58
    ensures SeatCount(RowBlocks(4)) == 51
    ensures SeatCount(RowBlocks(5)) == 52
    ensures SeatCount(RowBlocks(6)) == 53
    ensures SeatCount(RowBlocks(7)) == 60
  {
    Row1SeatCount();
    Row2SeatCount();
    Row3SeatCount();
    Row4SeatCount();
    Row5SeatCount();
    Row6SeatCount();
    Row7SeatCount();
  }

  // Each row on its own, so that one proof reads one table.

  lemma Row1SeatCount()
    ensures SeatCount(RowBlocks(1)) == 66
  {
    RowSeatCount(1);
  }

  lemma Row2SeatCount()
    ensures SeatCount(RowBlocks(2)) == 68
  {
    RowSeatCount(2);
  }

  lemma Row3SeatCount()
    ensures SeatCount(RowBlocks(3)) == 58
  {
    RowSeatCount(3);
  }

  lemma Row4SeatCount()
    ensures SeatCount(RowBlocks(4)) == 51
  {
    RowSeatCount(4);
  }

  lemma Row5SeatCount()
    ensures SeatCount(RowBlocks(5)) == 52
  {
    RowSeatCount(5);
  }

  lemma Row6SeatCount()
    ensures SeatCount(RowBlocks(6)) == 53
  {
    RowSeatCount(6);
  }

  lemma Row7SeatCount()
    ensures SeatCount(RowBlocks(7)) == 60
  {
    RowSeatCount(7);
  }

  /** Row r's seat count, read off its specs. */
  lemma RowSeatCount(r: int)
    requires 1 <= r <= 7
    ensures SeatCount(RowBlocks(r)) == SpecCount(RowSpecs(r), 0)
  {
    SeatCountOfSpecs(RowSpecs(r), 0);
    assert RowBlocks(r)[0..] == RowBlocks(r);
  }

  /** Where the centre block sits in row r's block list. */
  function CentreIndex(r: int): (k: nat)
    requires 1 <= r <= 7
    ensures k < |RowBlocks(r)|
  {
    if r <= 2 then 4 else if r == 3 then 3 else 2
  }

  /** Every row has the plain centre block 26-37. */
  lemma CentreBlock(r: int)
    requires 1 <= r <= 7
    ensures RowBlocks(r)[CentreIndex(r)] == SeatBlock(None, Run(26, 37))
  {
    assert Nulls(0) == [];
    assert Nulls(0) + Run(26, 37) + Nulls(0) == Run(26, 37);
  }

  /** The numbers each row holds in `area` (no area: the plain blocks) lie in lo..hi; lo > hi is none. */
  function NumberRun(r: int, area: Option<Area>): (bounds: (int, int))
    requires 1 <= r <= 7
    ensures bounds.0 >= 1
  {
    match area
    case None => [(3, 60), (1, 62), (3, 60), (4, 61), (4, 61), (3, 61), (2, 61)][r - 1]
    case Some(_) => if r == 1 then (3, 6) else if r == 2 then (7, 9) else (1, 0)
  }

  /** The plain numbers row r leaves out of its run, as gs..ge; gs > ge is none. */
  function Omitted(r: int): (gap: (int, int))
    requires 1 <= r <= 7
  {
    if r == 4 then (43, 49) else if 5 <= r <= 6 then (44, 49) else (1, 0)
  }

  /** The run check of the plain blocks of a row without a gap, read off the specs. */
  lemma PlainRunChecked(r: int)
    requires r in {1, 2, 3, 7}
    ensures RunsOnFrom(RowSpecs(r), None, NumberRun(r, None).0, 0, |RowSpecs(r)|) == Some(NumberRun(r, None).1 + 1)
  {
    if r == 1 {
      assert RowSpecs(r) == Row1Specs && |Row1Specs| == 9;
    } else if r == 2 {
      assert RowSpecs(r) == Row2Specs && |Row2Specs| == 9;
    } else if r == 3 {
      assert RowSpecs(r) == Row3Specs && |Row3Specs| == 7;
    } else {
      assert RowSpecs(r) == Row7Specs && |Row7Specs| == 5;
    }
  }

  /** The run check of one balcony area of a row, read off the specs. */
  lemma BalconyRunChecked(r: int, a: Area)
    requires 1 <= r <= 7
    ensures RunsOnFrom(RowSpecs(r), Some(a), NumberRun(r, Some(a)).0, 0, |RowSpecs(r)|) == Some(NumberRun(r, Some(a)).1 + 1)
  {
    if r == 1 {
      assert RowSpecs(r) == Row1Specs && |Row1Specs| == 9;
    } else if r == 2 {
      assert RowSpecs(r) == Row2Specs && |Row2Specs| == 9;
    } else if r == 3 {
      assert RowSpecs(r) == Row3Specs && |Row3Specs| == 7;
    } else if r == 4 {
      assert RowSpecs(r) == Row4Specs && |Row4Specs| == 5;
    } else if r == 5 {
      assert RowSpecs(r) == Row5Specs && |Row5Specs| == 5;
    } else if r == 6 {
      assert RowSpecs(r) == Row6Specs && |Row6Specs| == 5;
    } else {
      assert RowSpecs(r) == Row7Specs && |Row7Specs| == 5;
    }
  }

  /** The run checks of rows 4 to 6, in two stretches around the gap, read off the specs. */
  lemma GapRunsChecked(r: int)
    requires 4 <= r <= 6
    ensures RunsOnFrom(RowSpecs(r), None, NumberRun(r, None).0, 0, 4) == Some(Omitted(r).0)
    ensures RunsOnFrom(RowSpecs(r), None, 50, 4, 5) == Some(62)
  {
    if r == 4 {
      assert RowSpecs(r) == Row4Specs && |Row4Specs| == 5;
    } else if r == 5 {
      assert RowSpecs(r) == Row5Specs && |Row5Specs| == 5;
    } else {
      assert RowSpecs(r) == Row6Specs && |Row6Specs| == 5;
    }
  }

  /** The rows without a gap: in `area` they hold one unbroken ascending run. */
  lemma UnbrokenNumbers(r: int, area: Option<Area>)
    requires 1 <= r <= 7 && (area.Some? || r !in {4, 5, 6})
    ensures AreaNumbers(RowBlocks(r), area) == Range(NumberRun(r, area).0, NumberRun(r, area).1)
  {
    var (lo, hi) := NumberRun(r, area);
    match area {
      case None => PlainRunChecked(r);
      case Some(a) => BalconyRunChecked(r, a);
    }
    RunsOnNumbers(RowSpecs(r), area, lo, hi + 1, 0, |RowSpecs(r)|);
    assert RowBlocks(r)[0..|RowBlocks(r)|] == RowBlocks(r);
  }

  /** Rows 4 to 6: the plain numbers run up to the gap and on again after it. */
  lemma GapNumbers(r: int)
    requires 4 <= r <= 6
    ensures AreaNumbers(RowBlocks(r), None)
         == Range(NumberRun(r, None).0, Omitted(r).0 - 1) + Range(Omitted(r).1 + 1, NumberRun(r, None).1)
  {
    var lo := NumberRun(r, None).0;
    var (gs, ge) := Omitted(r);
    GapRunsChecked(r);
    RunsOnNumbers(RowSpecs(r), None, lo, gs, 0, 4);
    RunsOnNumbers(RowSpecs(r), None, 50, 62, 4, 5);
    var bs := RowBlocks(r);
    assert bs == bs[0..4] + bs[4..5];
    AreaNumbersAppend(bs[0..4], bs[4..5], None);
  }

  /**
   * A number is in row r's `area` exactly when it lies in the row's run and, for the plain
   * blocks, outside the row's gap.
   */
  lemma ThirdFloorNumbers(r: int, area: Option<Area>, n: int)
    requires 1 <= r <= 7
    ensures n in AreaNumbers(RowBlocks(r), area) <==>
              NumberRun(r, area).0 <= n <= NumberRun(r, area).1 && !(area.None? && Omitted(r).0 <= n <= Omitted(r).1)
  {
    var (lo, hi) := NumberRun(r, area);
    var (gs, ge) := Omitted(r);
    if area.None? && 4 <= r <= 6 {
      assert lo < gs <= ge < hi;
      GapNumbers(r);
      InRange(lo, gs - 1, n);
      InRange(ge + 1, hi, n);
    } else {
      UnbrokenNumbers(r, area);
      InRange(lo, hi, n);
    }
  }

  /** Row 4 leaves out 43-49, rows 5 and 6 leave out 44-49, and row 7 runs from 38 to 49 unbroken. */
  lemma OmittedNumbers()
    ensures forall n :: 43 <= n <= 49 ==> n !in AreaNumbers(RowBlocks(4), None)
    ensures 42 in AreaNumbers(RowBlocks(4), None) && 50 in AreaNumbers(RowBlocks(4), None)
    ensures forall r, n :: 5 <= r <= 6 && 44 <= n <= 49 ==> n !in AreaNumbers(RowBlocks(r), None)
    ensures forall r :: 5 <= r <= 6 ==> 43 in AreaNumbers(RowBlocks(r), None) && 50 in AreaNumbers(RowBlocks(r), None)
    ensures forall n :: 38 <= n <= 49 ==> n in AreaNumbers(RowBlocks(7), None)
  {
    forall r, n | 4 <= r <= 7 && 38 <= n <= 50
      ensures n in AreaNumbers(RowBlocks(r), None) <==> !(Omitted(r).0 <= n <= Omitted(r).1)
    {
      ThirdFloorNumbers(r, None, n);
    }
  }

  /** The numbers of each row and area strictly ascend, so none is repeated. */
  lemma NumbersAscend(r: int, area: Option<Area>, i: int, j: int)
    requires 1 <= r <= 7 && 0 <= i < j < |AreaNumbers(RowBlocks(r), area)|
    ensures AreaNumbers(RowBlocks(r), area)[i] < AreaNumbers(RowBlocks(r), area)[j]
  {
    if area.None? && 4 <= r <= 6 {
      GapNumbers(r);
      TwoRangesAscend(NumberRun(r, None).0, Omitted(r).0 - 1, Omitted(r).1 + 1, NumberRun(r, None).1, i, j);
    } else {
      UnbrokenNumbers(r, area);
    }
  }

  /** No two seats of the floor share an id. */
  lemma ThirdFloorIdsUnique(r1: int, a1: Option<Area>, j1: int, r2: int, a2: Option<Area>, j2: int)
    requires 1 <= r1 <= 7 && 1 <= r2 <= 7
    requires 0 <= j1 < |AreaNumbers(RowBlocks(r1), a1)| && 0 <= j2 < |AreaNumbers(RowBlocks(r2), a2)|
    requires SeatIdOf(3, r1, a1, AreaNumbers(RowBlocks(r1), a1)[j1])
          == SeatIdOf(3, r2, a2, AreaNumbers(RowBlocks(r2), a2)[j2])
    ensures r1 == r2 && a1 == a2 && j1 == j2
  {
    var n1, n2 := AreaNumbers(RowBlocks(r1), a1)[j1], AreaNumbers(RowBlocks(r2), a2)[j2];
    ThirdFloorNumbers(r1, a1, n1);
    ThirdFloorNumbers(r2, a2, n2);
    SeatIdInjective(3, r1, a1, n1, 3, r2, a2, n2);
    if j1 < j2 { NumbersAscend(r1, a1, j1, j2); }
    if j2 < j1 { NumbersAscend(r1, a1, j2, j1); }
  }
}
