/** Ticket records, their five statuses and the per-status display configuration. */
module TicketTypes {
  import opened Wrappers

  datatype TicketStatus = Applying | WonUnpaid | PaidUnissued | Issued | Watched

  /** The statuses in the order the status configuration lists them (and the screens show them). */
  const AllStatuses: seq<TicketStatus> := [Applying, WonUnpaid, PaidUnissued, Issued, Watched]

  /** `TicketStatus` has exactly five values, each listed once in `AllStatuses`. */
  lemma AllStatusesExactlyFive()
    ensures |AllStatuses| == 5
    ensures forall s: TicketStatus :: s in AllStatuses
    ensures forall i, j :: 0 <= i < j < |AllStatuses| ==> AllStatuses[i] != AllStatuses[j]
  {
    forall s: TicketStatus ensures s in AllStatuses {
      match s
      case Applying => assert AllStatuses[0] == s;
      case WonUnpaid => assert AllStatuses[1] == s;
      case PaidUnissued => assert AllStatuses[2] == s;
      case Issued => assert AllStatuses[3] == s;
      case Watched => assert AllStatuses[4] == s;
    }
  }

  /**
   * The six schedule fields; each may be absent. Application bounds, result and issue
   * dates are `YYYY-MM-DD`; payment deadline and show date are `YYYY-MM-DDTHH:MM:SS`.
   */
  datatype TicketDates = TicketDates(
    applicationStart: Option<string>,
    applicationEnd: Option<string>,
    resultDate: Option<string>,
    paymentDeadline: Option<string>,
    ticketIssueDate: Option<string>,
    showDate: Option<string>)

  datatype Ticket = Ticket(
    id: string,
    title: string,
    status: TicketStatus,
    dates: TicketDates,
    venue: Option<string>,
    seatInfo: Option<string>,
    memo: Option<string>,
    createdAt: string,
    updatedAt: string)

  /** A ticket without id and timestamps: what the ticket form submits. */
  datatype TicketData = TicketData(
    title: string,
    status: TicketStatus,
    dates: TicketDates,
    venue: Option<string>,
    seatInfo: Option<string>,
    memo: Option<string>)

  /** JavaScript truthiness of an optional string: set and not empty. */
  predicate Present(o: Option<string>)
  {
    o.Some? && o.value != ""
  }

  /** The six schedule fields in declaration order (`Object.values(ticket.dates)`). */
  function DateFields(d: TicketDates): (r: seq<Option<string>>)
    ensures |r| == 6
    ensures r[0] == d.applicationStart && r[5] == d.showDate
  {
    [d.applicationStart, d.applicationEnd, d.resultDate, d.paymentDeadline, d.ticketIssueDate, d.showDate]
  }

  datatype StatusConfig = StatusConfig(
    caption: string, color: string, bgColor: string, borderColor: string,
    icon: string, description: string, important: bool)

  /** The display configuration of each status. */
  function StatusConfigOf(s: TicketStatus): StatusConfig
  {
    match s
    case Applying =>
      StatusConfig("申し込み中", "#06b6d4", "#e0f2fe", "#0891b2", "📝", "チケット申込期間中", false)
    case WonUnpaid =>
      StatusConfig("当選・未入金", "#ef4444", "#fee2e2", "#dc2626", "⚠️", "入金締切に注意！", true)
    case PaidUnissued =>
      StatusConfig("入金済み・未発券", "#10b981", "#d1fae5", "#059669", "💳", "発券開始をお待ちください", false)
    case Issued =>
      StatusConfig("発券済み", "#f59e0b", "#fef3c7", "#d97706", "🎫", "公演当日をお楽しみに！", false)
    case Watched =>
      StatusConfig("観劇済み", "#ec4899", "#fce7f3", "#db2777", "💕", "思い出を記録しましょう", false)
  }

  /** Every status has a label of its own. */
  function GetStatusLabel(s: TicketStatus): (text: string)
    ensures text != ""
    ensures forall t: TicketStatus :: t != s ==> StatusConfigOf(t).caption != text
  {
    StatusConfigOf(s).caption
  }

  /** Every status has a colour of its own, written `#rrggbb`. */
  function GetStatusColor(s: TicketStatus): (color: string)
    ensures |color| == 7 && color[0] == '#'
    ensures forall t: TicketStatus :: t != s ==> StatusConfigOf(t).color != color
  {
    StatusConfigOf(s).color
  }

  /** Only "won, unpaid" is flagged important. */
  function IsImportantStatus(s: TicketStatus): (b: bool)
    ensures b <==> s == WonUnpaid
  {
    StatusConfigOf(s).important == true
  }
}
