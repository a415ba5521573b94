/**
 * What the seat maps draw for one entry of a seat list: an invisible spacer for `null`, or a
 * seat button whose seat record carries the id, the position and the logged status.
 */
module SeatCells {
  import opened Wrappers
  import opened Text
  import opened TheaterTypes
  import opened SeatIds
  import opened LogStore

  /** One drawn grid cell: a hidden spacer or a seat button, both at a grid column. */
  datatype Cell = Spacer(column: int) | SeatButton(column: int, seat: Seat)

  /** The seat record a balcony-floor button hands to the log form when clicked. */
  function SeatRecord(floor: FloorNumber, row: int, area: Option<Area>, n: int, logs: seq<Log>): (s: Seat)
    ensures s.id == SeatIdOf(floor, row, area, n)
    ensures s.floor == floor && s.row == row && s.number == n && s.section == Center
    ensures s.status == Logged <==> exists l :: l in logs && l.seatId == s.id
    ensures s.status == Vacant <==> forall l :: l in logs ==> l.seatId != s.id
  {
    var id := SeatIdOf(floor, row, area, n);
    Seat(id, floor, row, n, Center, if FindBySeat(logs, id).Some? then Logged else Vacant)
  }

  /** The cell drawn for entry `seatNum` of a block of `area` in `row`, placed at `column`. */
  function RenderCell(floor: FloorNumber, row: int, column: int, area: Option<Area>, seatNum: Option<int>, logs: seq<Log>): (c: Cell)
    ensures c.column == column
    ensures c.Spacer? <==> seatNum.None?
    ensures c.SeatButton? ==> c.seat.id == SeatIdOf(floor, row, area, seatNum.value) && c.seat.number == seatNum.value
    ensures c.SeatButton? ==> (c.seat.status == Logged <==> FindBySeat(logs, c.seat.id).Some?)
  {
    match seatNum
    case None => Spacer(column)
    case Some(n) => SeatButton(column, SeatRecord(floor, row, area, n, logs))
  }

  /** Once a log for a seat is added, that seat is drawn as logged, whatever other logs exist. */
  lemma LoggedOnceAdded(floor: FloorNumber, row: int, area: Option<Area>, n: int, logs: seq<Log>, data: LogData, id: string)
    requires data.seatId == SeatIdOf(floor, row, area, n)
    ensures SeatRecord(floor, row, area, n, [WithId(data, id)] + logs).status == Logged
  {
    FindBySeatAfterAdd(logs, data, id);
  }

  /**
   * A balcony seat and the plain seat with the same number never share an id, so a log of
   * one never marks the other.
   */
  lemma BalconySeatOwnId(floor: FloorNumber, row: nat, a: Area, n: nat, logs: seq<Log>, data: LogData, id: string)
    requires data.seatId == SeatIdOf(floor, row, Some(a), n)
    ensures SeatRecord(floor, row, Some(a), n, [WithId(data, id)] + logs).status == Logged
    ensures SeatRecord(floor, row, None, n, [WithId(data, id)] + logs).status
         == SeatRecord(floor, row, None, n, logs).status
  {
    FindBySeatAfterAdd(logs, data, id);
    if SeatIdOf(floor, row, Some(a), n) == SeatIdOf(floor, row, None, n) {
      SeatIdInjective(floor, row, Some(a), n, floor, row, None, n);
    }
  }

  /** A seat is shown selected iff it has the selected seat's id. */
  predicate SelectedById(selected: Option<Seat>, seat: Seat)
  {
    selected.Some? && selected.value.id == seat.id
  }
}
