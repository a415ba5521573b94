/** Seats, doors, row labels, blocks, floors, logs and theatres of the seat-map screens. */
module TheaterTypes {
  import opened Wrappers

  type FloorNumber = f: int | 1 <= f <= 3 witness 1

  datatype SeatStatus = Vacant | Selected | Logged

  datatype Section = Left | Center | Right

  /** A seat; `id` is `"<floor>F-<row>-<number>"`, with the balcony area before the number on 2F/3F. */
  datatype Seat = Seat(id: string, floor: FloorNumber, row: int, number: int, section: Section, status: SeatStatus)

  /** A door drawn across `span` seat columns and `rowSpan` rows (absent or 0 means one row). */
  datatype Door = Door(caption: string, span: int, rowSpan: Option<int>)

  /** The row number printed in an aisle. */
  datatype RowLabel = RowLabel(value: int)

  /** Left or right balcony. */
  datatype Area = LB | RB

  /** A run of seat numbers on 2F/3F; `None` is an invisible spacer. */
  datatype SeatBlock = SeatBlock(area: Option<Area>, seats: seq<Option<int>>)

  /** One cell of a 1F row: `Empty` is JavaScript's `null` (an invisible gap). */
  datatype Slot = Empty | SeatSlot(seat: Seat) | DoorSlot(door: Door) | LabelSlot(rowLabel: RowLabel)

  datatype SeatRow = SeatRow(rowNumber: int, seats: seq<Slot>, curve: Option<int>, offset: Option<int>)

  datatype FloorMap = FloorMap(floor: FloorNumber, rows: seq<SeatRow>)

  datatype TimeType = Matinee | Soiree | Custom

  /** A visit record anchored to one seat. */
  datatype Log = Log(id: string, seatId: string, title: string, date: string, showTime: string,
                     timeType: TimeType, theater: string, memo: string)

  /** A log without its id: what the log form submits. */
  datatype LogData = LogData(seatId: string, title: string, date: string, showTime: string,
                             timeType: TimeType, theater: string, memo: string)

  datatype Theater = Theater(id: string, name: string, address: string)

  /** Seat numbers a..b in order. */
  function Run(a: int, b: int): (r: seq<Option<int>>)
    requires a <= b
    ensures |r| == b - a + 1 && forall i :: 0 <= i < |r| ==> r[i] == Some(a + i)
  {
    seq(b - a + 1, i => Some(a + i))
  }

  /** n consecutive `null` entries. */
  function Nulls(n: nat): (r: seq<Option<int>>)
    ensures |r| == n && forall i :: 0 <= i < n ==> r[i] == None
  {
    seq(n, _ => None)
  }
}
