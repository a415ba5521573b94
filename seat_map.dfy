/**
 * The first-floor seat map: the seat table merged with the logs (a logged seat shows as
 * logged), the radius each row is drawn on, the box a door is drawn in, and the selection
 * highlight.
 */
module SeatMap {
  import opened Wrappers
  import opened TheaterTypes
  import opened LogStore
  import opened SeatIds
  import opened SeatCells
  import opened SeatData

  // ---------------------------------------------------------------------------
  // Merging the logs into the seat table

  /** One slot after the merge: a seat with a log shows as logged; everything else is kept. */
  function MergeSlot(slot: Slot, logs: seq<Log>): (r: Slot)
    ensures r.Empty? <==> slot.Empty?
    ensures !slot.SeatSlot? ==> r == slot
    ensures slot.SeatSlot? ==> r.SeatSlot? && r.seat.(status := slot.seat.status) == slot.seat
    ensures slot.SeatSlot? ==> (r.seat.status == Logged <==> slot.seat.status == Logged || exists l :: l in logs && l.seatId == slot.seat.id)
    ensures slot.SeatSlot? && (forall l :: l in logs ==> l.seatId != slot.seat.id) ==> r == slot
  {
    match slot
    case SeatSlot(seat) =>
      SeatSlot(seat.(status := if FindBySeat(logs, seat.id).Some? then Logged else seat.status))
    case _ => slot
  }

  function MergeRow(row: SeatRow, logs: seq<Log>): (r: SeatRow)
    ensures r.rowNumber == row.rowNumber && r.curve == row.curve && r.offset == row.offset
    ensures |r.seats| == |row.seats| && forall k :: 0 <= k < |row.seats| ==> r.seats[k] == MergeSlot(row.seats[k], logs)
  {
    row.(seats := seq(|row.seats|, k requires 0 <= k < |row.seats| => MergeSlot(row.seats[k], logs)))
  }

  /** `mergedFloorMap`: the same floors, rows and slots, every slot merged with the logs. */
  function MergeFloors(floors: seq<FloorMap>, logs: seq<Log>): (r: seq<FloorMap>)
    ensures |r| == |floors|
    ensures forall i :: 0 <= i < |floors| ==>
              r[i].floor == floors[i].floor && |r[i].rows| == |floors[i].rows| &&
              forall j :: 0 <= j < |floors[i].rows| ==> r[i].rows[j] == MergeRow(floors[i].rows[j], logs)
  {
    seq(|floors|, i requires 0 <= i < |floors| =>
      floors[i].(rows := seq(|floors[i].rows|, j requires 0 <= j < |floors[i].rows| => MergeRow(floors[i].rows[j], logs))))
  }

  /** Merging twice with the same logs gives what merging once gives. */
  lemma MergeIdempotent(floors: seq<FloorMap>, logs: seq<Log>)
    ensures MergeFloors(MergeFloors(floors, logs), logs) == MergeFloors(floors, logs)
  {
    var once := MergeFloors(floors, logs);
    var twice := MergeFloors(once, logs);
    forall i | 0 <= i < |floors|
      ensures twice[i] == once[i]
    {
      forall j | 0 <= j < |floors[i].rows|
        ensures twice[i].rows[j] == once[i].rows[j]
      {
        var row := floors[i].rows[j];
        forall k | 0 <= k < |row.seats|
          ensures MergeSlot(MergeSlot(row.seats[k], logs), logs) == MergeSlot(row.seats[k], logs)
        {
        }
        assert twice[i].rows[j].seats == once[i].rows[j].seats;
      }
      assert twice[i].rows == once[i].rows;
    }
  }

  /** With no logs the merge changes nothing. */
  lemma MergeWithoutLogs(floors: seq<FloorMap>)
    ensures MergeFloors(floors, []) == floors
  {
    var r := MergeFloors(floors, []);
    forall i | 0 <= i < |floors|
      ensures r[i] == floors[i]
    {
      forall j | 0 <= j < |floors[i].rows|
        ensures r[i].rows[j] == floors[i].rows[j]
      {
        assert r[i].rows[j].seats == floors[i].rows[j].seats;
      }
      assert r[i].rows == floors[i].rows;
    }
  }

  /** Right after a log is added for a seat of the table, that seat shows as logged. */
  lemma LoggedAfterAdd(floors: seq<FloorMap>, logs: seq<Log>, data: LogData, id: string, i: int, j: int, k: int)
    requires 0 <= i < |floors| && 0 <= j < |floors[i].rows| && 0 <= k < |floors[i].rows[j].seats|
    requires floors[i].rows[j].seats[k].SeatSlot? && floors[i].rows[j].seats[k].seat.id == data.seatId
    ensures MergeFloors(floors, [WithId(data, id)] + logs)[i].rows[j].seats[k].seat.status == Logged
  {
    FindBySeatAfterAdd(logs, data, id);
  }

  // ---------------------------------------------------------------------------
  // Row radius and door boxes

  const BaseRadius := 2500
  const RowDepth := 30
  const CrossAisleGap := 60

  /** The radius row `row` is drawn on: one row depth further out per row, plus the two aisles. */
  function RowRadius(row: int): int
  {
    BaseRadius + row * RowDepth + (if row >= 14 then RowDepth else 0) + (if row >= 20 then CrossAisleGap else 0)
  }

  /**
   * Rows lie one row depth apart, except one more row depth between rows 13 and 14 and the
   * cross aisle between rows 19 and 20; so the radius strictly grows with the row number.
   */
  lemma RowRadiusSteps(row: int)
    ensures RowRadius(row + 1) - RowRadius(row) == if row == 13 then 60 else if row == 19 then 90 else 30
    ensures forall later :: later > row ==> RowRadius(later) > RowRadius(row)
  {
  }

  /** `item.rowSpan || 1`: how many rows a door covers; an absent or zero value counts as one. */
  function DoorRows(door: Door): (n: int)
    ensures n != 0
    ensures door.rowSpan.Some? && door.rowSpan.value != 0 ==> n == door.rowSpan.value
    ensures door.rowSpan.None? ==> n == 1
  {
    match door.rowSpan
    case None => 1
    case Some(v) => if v == 0 then 1 else v
  }

  /** The width and height a door is drawn with; a door with an empty caption is not drawn. */
  function DoorBox(door: Door): (box: Option<(int, int)>)
    ensures box.None? <==> door.caption == ""
    ensures box.Some? ==> box.value.0 == door.span * 14 && box.value.1 == DoorRows(door) * RowDepth
  {
    if door.caption == "" then None else Some((door.span * 14, DoorRows(door) * RowDepth))
  }

  /** The two doors of the first floor are drawn 182 wide and one row (30) high. */
  lemma TableDoorBoxes()
    ensures DoorBox(LeftDoor) == Some((182, 30)) && DoorBox(RightDoor) == Some((182, 30))
  {
  }

  // ---------------------------------------------------------------------------
  // Selection

  /**
   * Highlighting by id picks out exactly the selected seat: two first-floor seats, each
   * carrying the id of its own row and number, match iff they have the same row and number.
   */
  lemma FirstFloorSelection(selected: Seat, seat: Seat)
    requires selected.row >= 0 && selected.number >= 0 && seat.row >= 0 && seat.number >= 0
    requires selected.id == SeatIdOf(1, selected.row, None, selected.number)
    requires seat.id == SeatIdOf(1, seat.row, None, seat.number)
    ensures SelectedById(Some(selected), seat) <==> selected.row == seat.row && selected.number == seat.number
  {
    if selected.id == seat.id {
      SeatIdInjective(1, selected.row, None, selected.number, 1, seat.row, None, seat.number);
    }
  }
}
