/**
 * The shape shared by the balcony floors (2F and 3F): each row is a list of seat blocks with a
 * `null` aisle between neighbours; a block is a list of seat numbers and `null` spacers,
 * optionally tagged as the left (LB) or right (RB) balcony.
 */
module SeatBlocks {
  import opened Wrappers
  import opened TheaterTypes

  datatype BlockRow = BlockRow(rowNumber: int, blocks: seq<Option<SeatBlock>>)

  datatype BlockFloor = BlockFloor(floor: FloorNumber, rows: seq<BlockRow>)

  /**
   * How one block of a table is written: `Spacers(area, k)` is k spacers; `Numbered(area, lead,
   * first, last, trail)` is lead spacers, the numbers first..last, then trail spacers.
   */
  datatype BlockSpec =
    | Spacers(area: Option<Area>, count: nat)
    | Numbered(area: Option<Area>, lead: nat, first: int, last: int, trail: nat)

  predicate WellFormed(spec: BlockSpec)
  {
    spec.Numbered? ==> spec.first <= spec.last
  }

  predicate AllWellFormed(specs: seq<BlockSpec>)
  {
    forall i :: 0 <= i < |specs| ==> WellFormed(specs[i])
  }

  /** How many entries, seats and spacers, a spec's block has. */
  function Width(spec: BlockSpec): nat
  {
    match spec
    case Spacers(_, count) => count
    case Numbered(_, lead, first, last, trail) => lead + (if first <= last then last - first + 1 else 0) + trail
  }

  /** The block a spec writes. */
  function Expand(spec: BlockSpec): (b: SeatBlock)
    requires WellFormed(spec)
    ensures b.area == spec.area
  {
    match spec
    case Spacers(area, count) => SeatBlock(area, Nulls(count))
    case Numbered(area, lead, first, last, trail) => SeatBlock(area, Nulls(lead) + Run(first, last) + Nulls(trail))
  }

  function Blocks(specs: seq<BlockSpec>): (bs: seq<SeatBlock>)
    requires AllWellFormed(specs)
    ensures |bs| == |specs| && forall i :: 0 <= i < |specs| ==> bs[i] == Expand(specs[i])
  {
    seq(|specs|, i requires 0 <= i < |specs| => Expand(specs[i]))
  }

  /** Block, aisle, block, ..., block: the blocks in order with a `null` between neighbours. */
  function Aisled(bs: seq<SeatBlock>): (r: seq<Option<SeatBlock>>)
    ensures |r| == if |bs| == 0 then 0 else 2 * |bs| - 1
    ensures forall i :: 0 <= i < |r| ==> r[i] == if i % 2 == 0 then Some(bs[i / 2]) else None
  {
    seq(if |bs| == 0 then 0 else 2 * |bs| - 1, i requires 0 <= i < 2 * |bs| - 1 =>
      if i % 2 == 0 then Some(bs[i / 2]) else None)
  }

  /** Block k of the list is entry 2k of the aisled row. */
  lemma AisledAt(bs: seq<SeatBlock>, k: nat)
    requires k < |bs|
    ensures 2 * k < |Aisled(bs)| && Aisled(bs)[2 * k] == Some(bs[k])
  {
    assert (2 * k) % 2 == 0 && (2 * k) / 2 == k;
  }

  lemma ExpandWidth(spec: BlockSpec)
    requires WellFormed(spec)
    ensures |Expand(spec).seats| == Width(spec)
  {
  }

  /**
   * Blocks laid out left to right, each starting no earlier than the previous one's start plus
   * its width: a block ends before any later block starts.
   */
  lemma {:induction false} StartsAscend(starts: seq<int>, widths: seq<nat>, k1: int, k2: int)
    requires |starts| == |widths|
    requires forall k :: 0 <= k < |starts| - 1 ==> starts[k] + widths[k] <= starts[k + 1]
    requires 0 <= k1 < k2 < |starts|
    ensures starts[k1] + widths[k1] <= starts[k2]
    decreases k2 - k1
  {
    if k1 + 1 < k2 {
      StartsAscend(starts, widths, k1 + 1, k2);
      assert starts[k1 + 1] + widths[k1 + 1] <= starts[k2];
    }
  }

  /** A row that starts and ends with a block and alternates block and aisle. */
  predicate Alternates(blocks: seq<Option<SeatBlock>>)
  {
    |blocks| % 2 == 1 && forall i :: 0 <= i < |blocks| ==> (blocks[i].Some? <==> i % 2 == 0)
  }

  // ---------------------------------------------------------------------------
  // Seat numbers of blocks

  /** a, a+1, ..., b (empty when a > b). */
  function Range(a: int, b: int): (r: seq<int>)
    ensures |r| == if a <= b then b - a + 1 else 0
    ensures forall i :: 0 <= i < |r| ==> r[i] == a + i
  {
    if a <= b then seq(b - a + 1, i => a + i) else []
  }

  lemma RangeAppend(a: int, b: int, c: int)
    requires a <= b + 1 <= c + 1
    ensures Range(a, b) + Range(b + 1, c) == Range(a, c)
  {
  }

  lemma InRange(a: int, b: int, n: int)
    ensures n in Range(a, b) <==> a <= n <= b
  {
    if a <= n <= b {
      assert Range(a, b)[n - a] == n;
    }
  }

  /** Two runs one after the other, the second starting above the first's end, strictly ascend. */
  lemma TwoRangesAscend(a: int, b: int, c: int, d: int, i: int, j: int)
    requires b < c && 0 <= i < j < |Range(a, b) + Range(c, d)|
    ensures (Range(a, b) + Range(c, d))[i] < (Range(a, b) + Range(c, d))[j]
  {
    var x, y, s := Range(a, b), Range(c, d), Range(a, b) + Range(c, d);
    if i < |x| { assert s[i] == x[i]; } else { assert s[i] == y[i - |x|]; }
    if j < |x| { assert s[j] == x[j]; } else { assert s[j] == y[j - |x|]; }
  }

  /** The numbers of a seat list in order, spacers skipped. */
  function Numbers(s: seq<Option<int>>): seq<int>
  {
    if |s| == 0 then [] else (if s[0].Some? then [s[0].value] else []) + Numbers(s[1..])
  }

  lemma {:induction false} NumbersAppend(a: seq<Option<int>>, b: seq<Option<int>>)
    ensures Numbers(a + b) == Numbers(a) + Numbers(b)
  {
    if |a| > 0 {
      assert (a + b)[1..] == a[1..] + b;
      NumbersAppend(a[1..], b);
    } else {
      assert a + b == b;
    }
  }

  lemma {:induction false} NumbersRun(a: int, b: int)
    requires a <= b
    ensures Numbers(Run(a, b)) == Range(a, b)
    decreases b - a
  {
    var r := Run(a, b);
    if a < b {
      assert r[1..] == Run(a + 1, b);
      NumbersRun(a + 1, b);
      assert Range(a, b) == [a] + Range(a + 1, b);
    } else {
      assert r[1..] == [];
    }
  }

  lemma {:induction false} NumbersNulls(n: nat)
    ensures Numbers(Nulls(n)) == []
  {
    if n > 0 {
      assert Nulls(n)[1..] == Nulls(n - 1);
      NumbersNulls(n - 1);
    }
  }

  /** A spec's block holds exactly the numbers first..last, or none. */
  lemma ExpandNumbers(spec: BlockSpec)
    requires WellFormed(spec)
    ensures Numbers(Expand(spec).seats) == if spec.Numbered? then Range(spec.first, spec.last) else []
  {
    match spec
    case Spacers(_, count) =>
      NumbersNulls(count);
    case Numbered(_, lead, first, last, trail) =>
      NumbersAppend(Nulls(lead) + Run(first, last), Nulls(trail));
      NumbersAppend(Nulls(lead), Run(first, last));
      NumbersNulls(lead);
      NumbersRun(first, last);
      NumbersNulls(trail);
  }

  /** The numbers of the blocks of `area` (no area: the plain blocks), block by block. */
  function AreaNumbers(bs: seq<SeatBlock>, area: Option<Area>): seq<int>
  {
    if |bs| == 0 then []
    else (if bs[0].area == area then Numbers(bs[0].seats) else []) + AreaNumbers(bs[1..], area)
  }

  /** The seats of a row: its blocks' numbers, all areas together. */
  function SeatCount(bs: seq<SeatBlock>): nat
  {
    if |bs| == 0 then 0 else |Numbers(bs[0].seats)| + SeatCount(bs[1..])
  }

  // ---------------------------------------------------------------------------
  // The same, read off the specs from position k on

  /**
   * Reading the blocks of `area` at positions k up to (not including) e in order, do their
   * numbers run on without a gap from n? The number after the last one when they do; `None`
   * when they do not.
   */
  function RunsOnFrom(specs: seq<BlockSpec>, area: Option<Area>, n: int, k: nat, e: nat): Option<int>
    requires e <= |specs|
    decreases e - k
  {
    if k >= e then Some(n)
    else if specs[k].area != area || specs[k].Spacers? then RunsOnFrom(specs, area, n, k + 1, e)
    else if specs[k].first == n && specs[k].first <= specs[k].last then RunsOnFrom(specs, area, specs[k].last + 1, k + 1, e)
    else None
  }

  /** When the blocks of `area` at k..e run on from n to m - 1, their numbers are exactly n, ..., m - 1. */
  lemma {:induction false} RunsOnNumbers(specs: seq<BlockSpec>, area: Option<Area>, n: int, m: int, k: nat, e: nat)
    requires AllWellFormed(specs) && k <= e <= |specs| && RunsOnFrom(specs, area, n, k, e) == Some(m)
    ensures n <= m && AreaNumbers(Blocks(specs)[k..e], area) == Range(n, m - 1)
    decreases e - k
  {
    var bs := Blocks(specs)[k..e];
    if k < e {
      var rest := Blocks(specs)[k + 1..e];
      assert bs[1..] == rest;
      assert bs[0] == Expand(specs[k]);
      ExpandNumbers(specs[k]);
      if specs[k].area != area || specs[k].Spacers? {
        RunsOnNumbers(specs, area, n, m, k + 1, e);
        assert AreaNumbers(bs, area) == [] + AreaNumbers(rest, area);
      } else {
        RunsOnNumbers(specs, area, specs[k].last + 1, m, k + 1, e);
        assert AreaNumbers(bs, area) == Range(n, specs[k].last) + AreaNumbers(rest, area);
        RangeAppend(n, specs[k].last, m - 1);
      }
    }
  }

  /** The numbers of `area` in two neighbouring stretches of blocks are those of the first, then the second. */
  lemma {:induction false} AreaNumbersAppend(a: seq<SeatBlock>, b: seq<SeatBlock>, area: Option<Area>)
    ensures AreaNumbers(a + b, area) == AreaNumbers(a, area) + AreaNumbers(b, area)
  {
    if |a| == 0 {
      assert a + b == b;
    } else {
      assert (a + b)[1..] == a[1..] + b;
      AreaNumbersAppend(a[1..], b, area);
    }
  }

  /** The number of seats the specs from position k on write. */
  function SpecCount(specs: seq<BlockSpec>, k: nat): nat
    decreases |specs| - k
  {
    if k >= |specs| then 0
    else (if specs[k].Numbered? && specs[k].first <= specs[k].last then specs[k].last - specs[k].first + 1 else 0)
         + SpecCount(specs, k + 1)
  }

  /** The seat count of the blocks is the sum of the specs' run lengths. */
  lemma {:induction false} SeatCountOfSpecs(specs: seq<BlockSpec>, k: nat)
    requires AllWellFormed(specs) && k <= |specs|
    ensures SeatCount(Blocks(specs)[k..]) == SpecCount(specs, k)
    decreases |specs| - k
  {
    if k < |specs| {
      assert Blocks(specs)[k..][1..] == Blocks(specs)[k + 1..];
      ExpandNumbers(specs[k]);
      SeatCountOfSpecs(specs, k + 1);
    }
  }

  /**
   * Where seat n of `area` is written, looking from position k on: the block's position in
   * the list and the seat's index in the block.
   */
  function Locate(specs: seq<BlockSpec>, area: Option<Area>, n: int, k: nat): Option<(nat, nat)>
    decreases |specs| - k
  {
    if k >= |specs| then None
    else if specs[k].Numbered? && specs[k].area == area && specs[k].first <= n <= specs[k].last then
      Some((k, specs[k].lead + (n - specs[k].first)))
    else Locate(specs, area, n, k + 1)
  }

  /** A located seat is really there: block b of the list has that area and holds n at index i. */
  lemma {:induction false} LocateFinds(specs: seq<BlockSpec>, area: Option<Area>, n: int, k: nat)
    requires AllWellFormed(specs) && Locate(specs, area, n, k).Some?
    ensures var (b, i) := Locate(specs, area, n, k).value;
            b < |specs| && Blocks(specs)[b].area == area &&
            i < |Blocks(specs)[b].seats| && Blocks(specs)[b].seats[i] == Some(n)
    decreases |specs| - k
  {
    if specs[k].Numbered? && specs[k].area == area && specs[k].first <= n <= specs[k].last {
      var s := specs[k];
      var seats := Nulls(s.lead) + Run(s.first, s.last) + Nulls(s.trail);
      assert seats[s.lead + (n - s.first)] == Run(s.first, s.last)[n - s.first];
    } else {
      LocateFinds(specs, area, n, k + 1);
    }
  }
}
