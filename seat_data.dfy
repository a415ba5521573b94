/**
 * The first-floor seat map: every row is a 62-column grid (left block 13, aisle 2,
 * centre 32, aisle 2, right block 13) filled from a row table.
 */
module SeatData {
  import opened Wrappers
  import opened Text
  import opened TheaterTypes
  import opened SeatIds

  /** Columns of the 1F grid. */
  const Columns := 62

  /** One entry of a row table: `Gap` is `null` (an aisle or a missing seat). */
  datatype RowItem = Gap | SeatNumber(n: int) | DoorItem(door: Door) | LabelItem(rowLabel: RowLabel)

  /** A row of 62 empty slots. */
  function Blank(): (row: seq<Slot>)
    ensures |row| == Columns && forall k :: 0 <= k < Columns ==> row[k] == Empty
  {
    seq(Columns, _ => Empty)
  }

  // ---------------------------------------------------------------------------
  // buildExplicitRow

  /** The seat an explicit row places for number `n`. */
  function ExplicitSeat(row: int, n: int): (s: Seat)
    ensures s.id == SeatIdOf(1, row, None, n) && s.floor == 1 && s.row == row && s.number == n && s.status == Vacant
    ensures s.section == Left <==> n <= 25
    ensures s.section == Right <==> n >= 38
  {
    Seat(SeatIdOf(1, row, None, n), 1, row, n, if n <= 25 then Left else if n >= 38 then Right else Center, Vacant)
  }

  /**
   * The aisle labels: a gap right after seat 25 or seat 37 of the table becomes the row number;
   * every other entry is kept.
   */
  function InjectLabels(rowNum: int, items: seq<RowItem>): (r: seq<RowItem>)
    ensures |r| == |items|
    ensures forall i :: 0 <= i < |items| && items[i] != Gap ==> r[i] == items[i]
    ensures forall i :: 0 <= i < |items| && items[i] == Gap ==>
              (r[i] == LabelItem(RowLabel(rowNum)) <==> i > 0 && (items[i - 1] == SeatNumber(25) || items[i - 1] == SeatNumber(37)))
    ensures forall i :: 0 <= i < |items| && items[i] == Gap ==> r[i] in {Gap, LabelItem(RowLabel(rowNum))}
  {
    seq(|items|, i requires 0 <= i < |items| =>
      if items[i] == Gap && i > 0 && (items[i - 1] == SeatNumber(25) || items[i - 1] == SeatNumber(37))
      then LabelItem(RowLabel(rowNum))
      else items[i])
  }

  /** Columns an entry takes: a door its span, anything else one. */
  function Width(it: RowItem): int
  {
    if it.DoorItem? then it.door.span else 1
  }

  /** Sum of the widths, accumulated left to right. */
  function VisualLength(items: seq<RowItem>): int
  {
    if items == [] then 0 else VisualLength(items[..|items| - 1]) + Width(items[|items| - 1])
  }

  lemma {:induction false} VisualLengthConcat(a: seq<RowItem>, b: seq<RowItem>)
    ensures VisualLength(a + b) == VisualLength(a) + VisualLength(b)
  {
    if b == [] {
      assert a + b == a;
    } else {
      assert (a + b)[..|a + b| - 1] == a + b[..|b| - 1];
      VisualLengthConcat(a, b[..|b| - 1]);
    }
  }

  /** With spans of at least one the visual length is at least the count; without doors it is the count. */
  lemma {:induction false} VisualLengthAtLeastLength(items: seq<RowItem>)
    requires forall it :: it in items ==> Width(it) >= 1
    ensures VisualLength(items) >= |items|
    ensures (forall it :: it in items ==> !it.DoorItem?) ==> VisualLength(items) == |items|
  {
    if items != [] {
      var init := items[..|items| - 1];
      assert forall it :: it in init ==> it in items;
      VisualLengthAtLeastLength(init);
    }
  }

  /** A JavaScript array write: an index outside [0, length) does not touch the elements. */
  function Put(row: seq<Slot>, idx: int, s: Slot): (r: seq<Slot>)
    ensures |r| == |row|
    ensures forall k :: 0 <= k < |row| ==> r[k] == if k == idx then s else row[k]
  {
    if 0 <= idx < |row| then row[idx := s] else row
  }

  /** The slot written for an entry. */
  function SlotFor(rowNum: int, it: RowItem): Slot
  {
    match it
    case Gap => Empty
    case SeatNumber(n) => SeatSlot(ExplicitSeat(rowNum, n))
    case DoorItem(d) => DoorSlot(d)
    case LabelItem(l) => LabelSlot(l)
  }

  /** Placement of `items` from column `idx` on, left to right; nothing is written from column 62 on. */
  function Place(rowNum: int, items: seq<RowItem>, row: seq<Slot>, idx: int): (r: seq<Slot>)
    ensures |r| == |row|
    decreases |items|
  {
    if items == [] || idx >= Columns then row
    else Place(rowNum, items[1..], Put(row, idx, SlotFor(rowNum, items[0])), idx + Width(items[0]))
  }

  /** Where placement of a labelled row starts: half the room left over, rounded down. */
  function Padding(processed: seq<RowItem>): int
  {
    (Columns - VisualLength(processed)) / 2
  }

  /** The row `buildExplicitRow(rowNum, items)` returns. */
  function ExplicitRow(rowNum: int, items: seq<RowItem>): (r: seq<Slot>)
    ensures |r| == Columns
  {
    var processed := InjectLabels(rowNum, items);
    Place(rowNum, processed, Blank(), Padding(processed))
  }

  /** Column where entry j of `items` is placed when placement starts at column `idx`. */
  function Start(items: seq<RowItem>, idx: int, j: int): int
    requires 0 <= j <= |items|
  {
    idx + VisualLength(items[..j])
  }

  /** The start of entry j+1 is the start of entry j of the tail, shifted by the head's width. */
  lemma StartOfTail(items: seq<RowItem>, idx: int, j: int)
    requires 0 <= j < |items|
    ensures Start(items, idx, j + 1) == Start(items[1..], idx + Width(items[0]), j)
  {
    assert items[..j + 1] == [items[0]] + items[1..][..j];
    VisualLengthConcat([items[0]], items[1..][..j]);
    assert [items[0]][..0] == [];
  }

  /** With spans of at least one, no entry starts before `idx + j`. */
  lemma StartAtLeast(items: seq<RowItem>, idx: int, j: int)
    requires 0 <= j <= |items|
    requires forall it :: it in items ==> Width(it) >= 1
    ensures Start(items, idx, j) >= idx + j
  {
    assert forall it :: it in items[..j] ==> it in items;
    VisualLengthAtLeastLength(items[..j]);
  }

  /** Placement from column `idx` on leaves the columns before `idx` as they were. */
  lemma {:induction false} PlaceBefore(rowNum: int, items: seq<RowItem>, row: seq<Slot>, idx: int, k: int)
    requires 0 <= k < idx && k < |row|
    requires forall it :: it in items ==> Width(it) >= 1
    ensures Place(rowNum, items, row, idx)[k] == row[k]
    decreases |items|
  {
    if items != [] && idx < Columns {
      assert forall it :: it in items[1..] ==> it in items;
      PlaceBefore(rowNum, items[1..], Put(row, idx, SlotFor(rowNum, items[0])), idx + Width(items[0]), k);
    }
  }

  /** With spans of at least one, entry j lands at its start column whenever that column is in the grid. */
  lemma {:induction false} PlaceSlots(rowNum: int, items: seq<RowItem>, row: seq<Slot>, idx: int, j: int)
    requires |row| == Columns
    requires forall it :: it in items ==> Width(it) >= 1
    requires 0 <= j < |items| && 0 <= Start(items, idx, j) < Columns
    ensures Place(rowNum, items, row, idx)[Start(items, idx, j)] == SlotFor(rowNum, items[j])
    decreases j
  {
    var rest := items[1..];
    var row' := Put(row, idx, SlotFor(rowNum, items[0]));
    var idx' := idx + Width(items[0]);
    StartAtLeast(items, idx, j);
    assert Place(rowNum, items, row, idx) == Place(rowNum, rest, row', idx');
    assert forall it :: it in rest ==> it in items;
    if j == 0 {
      assert Start(items, idx, 0) == idx by { assert items[..0] == []; }
      PlaceBefore(rowNum, rest, row', idx', idx);
    } else {
      StartOfTail(items, idx, j - 1);
      assert items[j] == rest[j - 1];
      PlaceSlots(rowNum, rest, row', idx', j - 1);
    }
  }

  /** One step of placement: the entry at position i is written, unless column 62 is reached. */
  lemma PlaceStep(rowNum: int, items: seq<RowItem>, i: int, row: seq<Slot>, idx: int)
    requires 0 <= i < |items|
    ensures Place(rowNum, items[i..], row, idx) ==
            Place(rowNum, items[i + 1..],
                  if idx < Columns then Put(row, idx, SlotFor(rowNum, items[i])) else row,
                  if idx < Columns then idx + Width(items[i]) else idx)
  {
    assert items[i..][0] == items[i] && items[i..][1..] == items[i + 1..];
    if idx >= Columns {
      assert Place(rowNum, items[i + 1..], row, idx) == row;
    }
  }

  /** The `forEach` that sums the widths. */
  method MeasureVisualLength(items: seq<RowItem>) returns (visualLength: int)
    ensures visualLength == VisualLength(items)
  {
    visualLength := 0;
    var i := 0;
    while i < |items|
      invariant 0 <= i <= |items|
      invariant visualLength == VisualLength(items[..i])
    {
      assert items[..i + 1][..i] == items[..i];
      visualLength := visualLength + Width(items[i]);
      i := i + 1;
    }
    assert items[..|items|] == items;
  }

  /** The placing `forEach`: entries written left to right from column `start`, skipped from column 62 on. */
  method PlaceItems(rowNum: int, items: seq<RowItem>, a: array<Slot>, start: int)
    modifies a
    ensures a[..] == Place(rowNum, items, old(a[..]), start)
  {
    ghost var target := Place(rowNum, items, a[..], start);
    var idx := start;
    var i := 0;
    assert items[0..] == items;
    while i < |items|
      invariant 0 <= i <= |items|
      invariant Place(rowNum, items[i..], a[..], idx) == target
    {
      ghost var row0, idx0 := a[..], idx;
      PlaceStep(rowNum, items, i, row0, idx0);
      if idx < Columns {
        var item := items[i];
        if 0 <= idx < a.Length {
          a[idx] := SlotFor(rowNum, item);
        }
        idx := idx + Width(item);
      }
      assert a[..] == if idx0 < Columns then Put(row0, idx0, SlotFor(rowNum, items[i])) else row0;
      i := i + 1;
    }
    assert items[i..] == [];
  }

  /** `buildExplicitRow`: label injection, visual length, centring padding, then left-to-right placement. */
  method BuildExplicitRow(rowNum: int, items: seq<RowItem>) returns (r: seq<Slot>)
    ensures |r| == Columns
    ensures r == ExplicitRow(rowNum, items)
  {
    var processed := InjectLabels(rowNum, items);
    var a := new Slot[Columns](_ => Empty);
    var visualLength := MeasureVisualLength(processed);
    var padding := (Columns - visualLength) / 2;
    assert a[..] == Blank();
    PlaceItems(rowNum, processed, a, padding);
    r := a[..];
  }

  /**
   * In a row without doors, entry j lands at column floor((62 - n) / 2) + j, n being the
   * number of entries, carrying the label-injected entry.
   */
  lemma DoorFreeRowSlot(rowNum: int, items: seq<RowItem>, j: int)
    requires forall it :: it in items ==> !it.DoorItem?
    requires 0 <= j < |items| && 0 <= (Columns - |items|) / 2 + j < Columns
    ensures ExplicitRow(rowNum, items)[(Columns - |items|) / 2 + j] == SlotFor(rowNum, InjectLabels(rowNum, items)[j])
  {
    var p := InjectLabels(rowNum, items);
    assert forall it :: it in p ==> !it.DoorItem? by {
      forall it | it in p ensures !it.DoorItem? {
        var i :| 0 <= i < |p| && p[i] == it;
        assert items[i] in items;
      }
    }
    VisualLengthAtLeastLength(p);
    assert Padding(p) == (Columns - |items|) / 2;
    assert forall it :: it in p[..j] ==> it in p;
    VisualLengthAtLeastLength(p[..j]);
    assert Start(p, Padding(p), j) == (Columns - |items|) / 2 + j;
    PlaceSlots(rowNum, p, Blank(), Padding(p), j);
  }

  // ---------------------------------------------------------------------------
  // buildCustomRow

  /** A block of consecutive seat numbers, both ends included. */
  datatype Block = Block(start: int, end: int)

  predicate InBlocks(blocks: seq<Block>, n: int)
  {
    exists b :: b in blocks && b.start <= n <= b.end
  }

  /** Column of seat n in a custom row: left of the first break n-1, centre n+1, right n+3. */
  function CustomIndex(n: int): int
  {
    if n <= 25 then n - 1 else if n <= 37 then n + 1 else n + 3
  }

  /** The seat number a custom row can hold at column k: the inverse of `CustomIndex`. */
  function CustomSeatAt(k: int): (r: Option<int>)
    ensures r.Some? ==> CustomIndex(r.value) == k
    ensures forall n :: CustomIndex(n) == k ==> r == Some(n)
  {
    if k <= 24 then Some(k + 1)
    else if 27 <= k <= 38 then Some(k - 1)
    else if k >= 41 then Some(k - 3)
    else None
  }

  function CustomSeat(row: int, n: int): Seat
  {
    Seat(SeatIdOf(1, row, None, n), 1, row, n, Center, Vacant)
  }

  /** Column k of a custom row: the seat mapped there if its number is in a block, else empty. */
  function CustomSlot(rowNum: int, blocks: seq<Block>, k: int): Slot
  {
    match CustomSeatAt(k)
    case Some(n) => if InBlocks(blocks, n) then SeatSlot(CustomSeat(rowNum, n)) else Empty
    case None => Empty
  }

  /** The row `buildCustomRow(rowNum, blocks)` returns. */
  function CustomRow(rowNum: int, blocks: seq<Block>): (row: seq<Slot>)
    ensures |row| == Columns
  {
    seq(Columns, k requires 0 <= k < Columns => CustomSlot(rowNum, blocks, k))
  }

  /** Every seat of every block is at its mapped column when that column is in the grid. */
  lemma CustomRowPlacesBlocks(rowNum: int, blocks: seq<Block>, n: int)
    requires InBlocks(blocks, n) && 0 <= CustomIndex(n) < Columns
    ensures CustomRow(rowNum, blocks)[CustomIndex(n)] == SeatSlot(CustomSeat(rowNum, n))
  {
    assert CustomSeatAt(CustomIndex(n)) == Some(n);
  }

  /** Columns 25-26 and 39-40 stay empty: the two-column aisles around the centre block. */
  lemma CustomRowAisles(rowNum: int, blocks: seq<Block>)
    ensures forall k :: k in {25, 26, 39, 40} ==> CustomRow(rowNum, blocks)[k] == Empty
  {
    forall k | k in {25, 26, 39, 40} ensures CustomRow(rowNum, blocks)[k] == Empty {
      assert CustomSeatAt(k) == None;
    }
  }

  /** `buildCustomRow`: each block's seats written, in block order, at their mapped columns. */
  method BuildCustomRow(rowNum: int, blocks: seq<Block>) returns (r: seq<Slot>)
    ensures r == CustomRow(rowNum, blocks)
  {
    var a := new Slot[Columns](_ => Empty);
    var bi := 0;
    while bi < |blocks|
      invariant 0 <= bi <= |blocks|
      invariant a.Length == Columns
      invariant forall k :: 0 <= k < Columns ==> a[k] == CustomSlot(rowNum, blocks[..bi], k)
    {
      var block := blocks[bi];
      var n := block.start;
      while n <= block.end
        invariant block.start <= n && (n <= block.end + 1 || n == block.start)
        invariant forall k :: 0 <= k < Columns ==>
                    a[k] == if CustomSeatAt(k).Some? && block.start <= CustomSeatAt(k).value < n
                            then SeatSlot(CustomSeat(rowNum, CustomSeatAt(k).value))
                            else CustomSlot(rowNum, blocks[..bi], k)
        decreases block.end - n
      {
        var index := CustomIndex(n);
        if 0 <= index < Columns {
          a[index] := SeatSlot(CustomSeat(rowNum, n));
        }
        n := n + 1;
      }
      assert blocks[..bi + 1] == blocks[..bi] + [block];
      forall m ensures InBlocks(blocks[..bi + 1], m) <==> InBlocks(blocks[..bi], m) || block.start <= m < n {
        if block.start <= m < n {
          assert block in blocks[..bi + 1];
        }
        if InBlocks(blocks[..bi + 1], m) {
          var b :| b in blocks[..bi + 1] && b.start <= m <= b.end;
          if b !in blocks[..bi] {
            assert b == block;
          }
        }
      }
      bi := bi + 1;
    }
    assert blocks[..bi] == blocks;
    r := a[..];
  }

  // ---------------------------------------------------------------------------
  // buildRow

  /** Column of seat n in a standard row: 1..13 at n-1, 14..45 at n+1, 46..58 at n+3, other numbers nowhere. */
  function StandardIndex(n: int): Option<int>
  {
    if 1 <= n <= 13 then Some(n - 1)
    else if 14 <= n <= 45 then Some(n + 1)
    else if 46 <= n <= 58 then Some(n + 3)
    else None
  }

  /** The seat number a standard row can hold at column k: the inverse of `StandardIndex`. */
  function StandardSeatAt(k: int): (r: Option<int>)
    ensures r.Some? ==> StandardIndex(r.value) == Some(k)
    ensures forall n :: StandardIndex(n) == Some(k) ==> r == Some(n)
  {
    if 0 <= k <= 12 then Some(k + 1)
    else if 15 <= k <= 46 then Some(k - 1)
    else if 49 <= k <= 61 then Some(k - 3)
    else None
  }

  function StandardSeat(row: int, n: int): (s: Seat)
    ensures s.id == SeatIdOf(1, row, None, n) && s.floor == 1 && s.row == row && s.number == n && s.status == Vacant
    ensures s.section == Left <==> n <= 13
    ensures s.section == Right <==> n >= 46
  {
    Seat(SeatIdOf(1, row, None, n), 1, row, n, if n <= 13 then Left else if n >= 46 then Right else Center, Vacant)
  }

  /** The left door, over the whole left block. */
  const LeftDoor := Door("扉2", 13, None)
  /** The right door, over the whole right block. */
  const RightDoor := Door("扉3", 13, None)

  /** Column k of a standard row holding seats startSeat..endSeat, before doors are added. */
  function StandardSlot(rowNum: int, startSeat: int, endSeat: int, k: int): Slot
  {
    match StandardSeatAt(k)
    case Some(n) => if startSeat <= n <= endSeat then SeatSlot(StandardSeat(rowNum, n)) else Empty
    case None => Empty
  }

  /** Widening the range by seat n changes only the column of n. */
  lemma StandardSlotStep(rowNum: int, startSeat: int, n: int, k: int)
    requires startSeat <= n
    ensures StandardSlot(rowNum, startSeat, n, k)
         == if StandardIndex(n) == Some(k) then SeatSlot(StandardSeat(rowNum, n)) else StandardSlot(rowNum, startSeat, n - 1, k)
  {
    var at := StandardSeatAt(k);
    if at.Some? && at.value == n {
      assert StandardIndex(n) == Some(k);
    } else {
      assert StandardIndex(n) != Some(k);
    }
  }

  /** The row `buildRow(rowNum, startSeat, endSeat, { left, right })` returns. */
  function StandardRow(rowNum: int, startSeat: int, endSeat: int, doorLeft: bool, doorRight: bool): (row: seq<Slot>)
    ensures |row| == Columns
  {
    seq(Columns, k requires 0 <= k < Columns =>
      if doorLeft && k == 0 then DoorSlot(LeftDoor)
      else if doorRight && k == 49 then DoorSlot(RightDoor)
      else StandardSlot(rowNum, startSeat, endSeat, k))
  }

  /** Seat n of the range is at its standard column unless a door took that column. */
  lemma StandardRowPlacesSeats(rowNum: int, startSeat: int, endSeat: int, doorLeft: bool, doorRight: bool, n: int)
    requires startSeat <= n <= endSeat && StandardIndex(n).Some?
    requires !(doorLeft && n == 1) && !(doorRight && n == 46)
    ensures StandardRow(rowNum, startSeat, endSeat, doorLeft, doorRight)[StandardIndex(n).value] == SeatSlot(StandardSeat(rowNum, n))
  {
    assert StandardSeatAt(StandardIndex(n).value) == Some(n);
  }

  /** Columns 13-14 and 47-48 stay empty, whatever the range: the aisles between the blocks. */
  lemma StandardRowAisles(rowNum: int, startSeat: int, endSeat: int, doorLeft: bool, doorRight: bool)
    ensures forall k :: k in {13, 14, 47, 48} ==> StandardRow(rowNum, startSeat, endSeat, doorLeft, doorRight)[k] == Empty
  {
    forall k | k in {13, 14, 47, 48} ensures StandardRow(rowNum, startSeat, endSeat, doorLeft, doorRight)[k] == Empty {
      assert StandardSeatAt(k) == None;
    }
  }

  /** `buildRow`: seats startSeat..endSeat at their standard columns, then the requested doors. */
  method BuildRow(rowNum: int, startSeat: int, endSeat: int, doorLeft: bool, doorRight: bool) returns (r: seq<Slot>)
    ensures r == StandardRow(rowNum, startSeat, endSeat, doorLeft, doorRight)
  {
    var a := new Slot[Columns](_ => Empty);
    var n := startSeat;
    while n <= endSeat
      invariant startSeat <= n && (n <= endSeat + 1 || n == startSeat)
      invariant a.Length == Columns
      invariant forall k :: 0 <= k < Columns ==> a[k] == StandardSlot(rowNum, startSeat, n - 1, k)
      decreases endSeat - n
    {
      var index := StandardIndex(n);
      if index.Some? {
        a[index.value] := SeatSlot(StandardSeat(rowNum, n));
      }
      forall k | 0 <= k < Columns {
        StandardSlotStep(rowNum, startSeat, n, k);
      }
      n := n + 1;
    }
    if doorLeft {
      a[0] := DoorSlot(LeftDoor);
    }
    if doorRight {
      a[49] := DoorSlot(RightDoor);
    }
    r := a[..];
  }

  // ---------------------------------------------------------------------------
  // The row tables of generateFirstFloor

  /** A row table: seat numbers, and `None` for the table's `null` entries. */
  type RowTable = seq<Option<int>>

  /** A table's entries as row items. */
  function TableItems(table: RowTable): (items: seq<RowItem>)
    ensures |items| == |table|
    ensures forall i :: 0 <= i < |table| ==> items[i] == if table[i].Some? then SeatNumber(table[i].value) else Gap
    ensures forall it :: it in items ==> !it.DoorItem?
  {
    seq(|table|, i requires 0 <= i < |table| => if table[i].Some? then SeatNumber(table[i].value) else Gap)
  }

  const Row1Config: RowTable :=
    Run(23, 25) + [None] + Run(26, 37) + [None] + Run(38, 40)
  const Row2Config: RowTable :=
    Run(20, 25) + [None] + Run(26, 37) + [None] + Run(38, 43)
  const Row3Config: RowTable :=
    Run(18, 25) + [None] + Run(26, 37) + [None] + Run(38, 45)
  const Row4Config: RowTable :=
    Run(16, 25) + [None] + Run(26, 37) + [None] + Run(38, 47)
  /** Rows 5 to 8. */
  const CommonRowData: RowTable :=
    Run(14, 25) + [None] + Run(26, 37) + [None] + Run(38, 49)
  const Row9Config: RowTable :=
    Run(13, 13) + [None] + Run(14, 25) + [None] + Run(26, 37) + [None] + Run(38, 49) + [None] + Run(50, 50)
  const Row10Config: RowTable :=
    Run(12, 13) + [None] + Run(14, 25) + [None] + Run(26, 37) + [None] + Run(38, 49) + [None] + Run(50, 51)
  const Row11Config: RowTable :=
    Run(10, 13) + [None] + Run(14, 25) + [None] + Run(26, 37) + [None] + Run(38, 49) + [None] + Run(50, 53)
  /** Rows 12 and 13. */
  const Row12Config: RowTable :=
    Run(9, 13) + [None] + Run(14, 25) + [None] + Run(26, 37) + [None] + Run(38, 49) + [None] + Run(50, 54)
  const Row14Config: RowTable :=
    Run(8, 13) + [None] + Run(14, 25) + [None] + Run(26, 37) + [None] + Run(38, 49) + [None] + Run(50, 55)
  /** Rows 15 to 17: the same entries as row 14, declared separately. */
  const CommonRow15To17: RowTable :=
    Run(8, 13) + [None] + Run(14, 25) + [None] + Run(26, 37) + [None] + Run(38, 49) + [None] + Run(50, 55)
  const Row18Config: RowTable :=
    Run(7, 13) + [None] + Run(14, 25) + [None] + Run(26, 37) + [None] + Run(38, 49) + [None] + Run(50, 56)
  const Row19Config: RowTable :=
    Run(6, 13) + [None] + Run(14, 25) + [None] + Run(26, 37) + [None] + Run(38, 49) + [None] + Run(50, 57)
  /** Rows 20 to 22: seats 14-19 and 47-49 give way to the doors (six and three gaps). */
  const CommonRow20To22: RowTable :=
    Run(5, 13) + [None] + Nulls(6) + Run(20, 25) + [None] + Run(26, 37) + [None] + Run(38, 46) + Nulls(3) + [None] + Run(50, 58)
  /** Rows 23 and 24. */
  const CommonRow23To24: RowTable :=
    Run(5, 13) + [None] + Run(14, 25) + [None] + Run(26, 37) + [None] + Run(38, 49) + [None] + Run(50, 58)
  /** Row 25: seat 14 is missing (a gap in its place). */
  const Row25Config: RowTable :=
    Run(5, 13) + [None] + [None] + Run(15, 25) + [None] + Run(26, 37) + [None] + Run(38, 49) + [None] + Run(50, 58)
  /** Row 26: seats 5-13 and 50-58 are missing, kept as nine gaps each. */
  const Row26Config: RowTable :=
    Nulls(9) + [None] + Run(14, 25) + [None] + Run(26, 37) + [None] + Run(38, 49) + [None] + Nulls(9)

  /** The tables of rows 1 to 26, in order (rows sharing a table list it again). */
  const RowConfigs: seq<RowTable> := [
    Row1Config, Row2Config, Row3Config, Row4Config,
    CommonRowData, CommonRowData, CommonRowData, CommonRowData,
    Row9Config, Row10Config, Row11Config, Row12Config, Row12Config,
    Row14Config, CommonRow15To17, CommonRow15To17, CommonRow15To17,
    Row18Config, Row19Config, CommonRow20To22, CommonRow20To22, CommonRow20To22,
    CommonRow23To24, CommonRow23To24, Row25Config, Row26Config]

  /** The table row r is built from. */
  function RowConfig(r: int): RowTable
    requires 1 <= r <= 26
  {
    RowConfigs[r - 1]
  }

  /** Row r of the first floor: its table laid out, with curve 0. */
  function FirstFloorRow(r: int): (row: SeatRow)
    requires 1 <= r <= 26
    ensures row.rowNumber == r && |row.seats| == Columns
  {
    SeatRow(r, ExplicitRow(r, TableItems(RowConfig(r))), Some(0), None)
  }
}

/** `generateFirstFloor` and what its rows look like. */
module FirstFloor {
  import opened Wrappers
  import opened TheaterTypes
  import opened SeatData

  /** `generateFirstFloor`: floor 1, rows 1 to 26 in order, each built from its table with curve 0. */
  method GenerateFirstFloor() returns (f: FloorMap)
    ensures f.floor == 1 && |f.rows| == 26
    ensures forall i :: 0 <= i < 26 ==> f.rows[i] == FirstFloorRow(i + 1)
  {
    var rows: seq<SeatRow> := [];
    var r := 1;
    while r <= 26
      invariant 1 <= r <= 27 && |rows| == r - 1
      invariant forall i :: 0 <= i < r - 1 ==> rows[i] == FirstFloorRow(i + 1)
    {
      var seats := BuildExplicitRow(r, TableItems(RowConfig(r)));
      var row := SeatRow(r, seats, Some(0), None);
      assert row == FirstFloorRow(r);
      rows := rows + [row];
      r := r + 1;
    }
    f := FloorMap(1, rows);
  }

  /** `generateSeatData`: the seat table of the main map holds just the first floor. */
  method GenerateSeatData() returns (floors: seq<FloorMap>)
    ensures |floors| == 1 && floors[0].floor == 1 && |floors[0].rows| == 26
    ensures forall i :: 0 <= i < 26 ==> floors[0].rows[i] == FirstFloorRow(i + 1)
  {
    var first := GenerateFirstFloor();
    floors := [first];
  }

  /**
   * Column 12 holds seat 14 in rows 23, 24 and 26 (the row-26 table was adjusted to put it
   * there) and is empty in row 25, which lacks seat 14.
   */
  lemma Seat14Column(r: int)
    requires 23 <= r <= 26
    ensures FirstFloorRow(r).seats[12] == if r == 25 then Empty else SeatSlot(ExplicitSeat(r, 14))
  {
    if r == 25 {
      assert RowConfig(r) == Row25Config;
      Row25Front();
      ColumnTwelve(r, Row25Config);
    } else if r == 26 {
      assert RowConfig(r) == Row26Config;
      Row26Front();
      ColumnTwelve(r, Row26Config);
    } else {
      assert RowConfig(r) == CommonRow23To24;
      Row23To24Front();
      ColumnTwelve(r, CommonRow23To24);
    }
  }

  /** In a 58-entry table whose entry 9 is a gap, column 12 shows entry 10. */
  lemma ColumnTwelve(r: int, table: RowTable)
    requires |table| == 58 && table[9] == None
    ensures ExplicitRow(r, TableItems(table))[12] == if table[10].Some? then SeatSlot(ExplicitSeat(r, table[10].value)) else Empty
  {
    var items := TableItems(table);
    DoorFreeRowSlot(r, items, 10);
    assert items[9] == Gap;
  }

  // The 58-entry tables of rows 23 to 26 around column 12: entry 9 is a gap, entry 10 seat 14 or a gap.

  lemma Row23To24Front()
    ensures |CommonRow23To24| == 58 && CommonRow23To24[9] == None && CommonRow23To24[10] == Some(14)
  {
    assert CommonRow23To24[..10] == Run(5, 13) + [None];
  }

  lemma Row25Front()
    ensures |Row25Config| == 58 && Row25Config[9] == None && Row25Config[10] == None
  {
    assert Row25Config[..11] == Run(5, 13) + [None] + [None];
  }

  lemma Row26Front()
    ensures |Row26Config| == 58 && Row26Config[9] == None && Row26Config[10] == Some(14)
  {
    assert Row26Config[..10] == Nulls(9) + [None];
  }
}
