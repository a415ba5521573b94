/**
 * The ticket form: the text of its inputs, filled from the ticket being edited (or from the
 * defaults), and the ticket data it submits, where a date and a time are joined into one
 * `YYYY-MM-DDTHH:MM:00` value and blank inputs are left out.
 */
module TicketForm {
  import opened Wrappers
  import opened Text
  import opened TicketTypes
  import opened TicketStore

  /** The inputs of the form, as the text they hold. */
  datatype FormFields = FormFields(
    title: string,
    status: TicketStatus,
    venue: string,
    seatInfo: string,
    memo: string,
    applicationStart: string,
    applicationEnd: string,
    resultDate: string,
    paymentDeadline: string,
    paymentDeadlineTime: string,
    ticketIssueDate: string,
    showDate: string,
    showTime: string)

  const DefaultPaymentTime := "23:59"
  const DefaultShowTime := "13:00"

  /** `value || ""`: an absent value shows as an empty input. */
  function TextOf(o: Option<string>): (s: string)
    ensures o.None? ==> s == ""
    ensures o.Some? ==> s == o.value
  {
    if o.Some? then o.value else ""
  }

  /** `value || undefined`: an empty input is left out. */
  function OrAbsent(s: string): (o: Option<string>)
    ensures o.None? <==> s == ""
    ensures o.Some? ==> o.value == s && Present(o)
  {
    if s == "" then None else Some(s)
  }

  /** The date input of a stored date-and-time: the text before `T`, or empty when the value is unset. */
  function DatePartOf(o: Option<string>): (s: string)
    ensures 'T' !in s
    ensures !Present(o) ==> s == ""
    ensures Present(o) ==> |s| <= |o.value| && s == o.value[..|s|] && ('T' in o.value ==> |s| < |o.value| && o.value[|s|] == 'T')
    ensures Present(o) && 'T' !in o.value ==> s == o.value
  {
    if Present(o) then BeforeFirst(o.value, 'T') else ""
  }

  /**
   * The time input of a stored date-and-time: up to five characters after the first `T`,
   * or the default when the value is unset, has no `T`, or has nothing after it.
   */
  function TimePartOf(o: Option<string>, default: string): (s: string)
    ensures !Present(o) || 'T' !in o.value ==> s == default
    ensures Present(o) && 'T' in o.value ==>
              var seg := SecondPart(o.value, 'T').value;
              (seg == "" ==> s == default) && (seg != "" ==> s == Take(seg, 5))
  {
    if !Present(o) then default
    else match SecondPart(o.value, 'T')
      case None => default
      case Some(after) => if Take(after, 5) == "" then default else Take(after, 5)
  }

  /** The inputs when the form opens: from the ticket being edited, or blank with the default status and times. */
  function InitialFields(initial: Option<Ticket>): (f: FormFields)
    ensures initial.None? ==> f == FormFields("", Applying, "", "", "", "", "", "", "", DefaultPaymentTime, "", "", DefaultShowTime)
    ensures initial.Some? ==> f.title == initial.value.title && f.status == initial.value.status
    ensures initial.Some? ==>
              var t := initial.value;
              f.venue == TextOf(t.venue) && f.seatInfo == TextOf(t.seatInfo) && f.memo == TextOf(t.memo)
    ensures initial.Some? ==>
              var d := initial.value.dates;
              f.applicationStart == TextOf(d.applicationStart) && f.applicationEnd == TextOf(d.applicationEnd)
              && f.resultDate == TextOf(d.resultDate) && f.ticketIssueDate == TextOf(d.ticketIssueDate)
    ensures initial.Some? ==>
              var d := initial.value.dates;
              f.paymentDeadline == DatePartOf(d.paymentDeadline)
              && f.paymentDeadlineTime == TimePartOf(d.paymentDeadline, DefaultPaymentTime)
              && f.showDate == DatePartOf(d.showDate) && f.showTime == TimePartOf(d.showDate, DefaultShowTime)
  {
    match initial
    case None => FormFields("", Applying, "", "", "", "", "", "", "", DefaultPaymentTime, "", "", DefaultShowTime)
    case Some(t) =>
      FormFields(t.title, t.status, TextOf(t.venue), TextOf(t.seatInfo), TextOf(t.memo),
                 TextOf(t.dates.applicationStart), TextOf(t.dates.applicationEnd), TextOf(t.dates.resultDate),
                 DatePartOf(t.dates.paymentDeadline), TimePartOf(t.dates.paymentDeadline, DefaultPaymentTime),
                 TextOf(t.dates.ticketIssueDate),
                 DatePartOf(t.dates.showDate), TimePartOf(t.dates.showDate, DefaultShowTime))
  }

  /** `${date}T${time}:00` when both inputs are filled, else nothing. */
  function JoinDateTime(date: string, time: string): (o: Option<string>)
    ensures o.Some? <==> date != "" && time != ""
    ensures o.Some? ==> Present(o) && o.value == date + "T" + time + ":00"
  {
    if date != "" && time != "" then Some(date + "T" + time + ":00") else None
  }

  /** No optional value of the data is an empty string. */
  predicate NoBlanks(d: TicketData)
  {
    (d.venue.Some? ==> Present(d.venue)) && (d.seatInfo.Some? ==> Present(d.seatInfo))
    && (d.memo.Some? ==> Present(d.memo))
    && forall o :: o in DateFields(d.dates) && o.Some? ==> Present(o)
  }

  /** `handleSubmit`: the data handed to `onSave`. */
  function Submission(f: FormFields): (d: TicketData)
    ensures d.title == f.title && d.status == f.status
    ensures d.dates.paymentDeadline.Some? <==> f.paymentDeadline != "" && f.paymentDeadlineTime != ""
    ensures d.dates.showDate.Some? <==> f.showDate != "" && f.showTime != ""
    ensures d.venue.None? <==> f.venue == ""
    ensures d.seatInfo.None? <==> f.seatInfo == ""
    ensures d.memo.None? <==> f.memo == ""
    ensures d.dates.applicationStart.None? <==> f.applicationStart == ""
    ensures d.dates.applicationEnd.None? <==> f.applicationEnd == ""
    ensures d.dates.resultDate.None? <==> f.resultDate == ""
    ensures d.dates.ticketIssueDate.None? <==> f.ticketIssueDate == ""
    ensures d.dates.paymentDeadline == JoinDateTime(f.paymentDeadline, f.paymentDeadlineTime)
    ensures d.dates.showDate == JoinDateTime(f.showDate, f.showTime)
    ensures f.venue != "" ==> d.venue == Some(f.venue)
    ensures f.seatInfo != "" ==> d.seatInfo == Some(f.seatInfo)
    ensures f.memo != "" ==> d.memo == Some(f.memo)
    ensures f.applicationStart != "" ==> d.dates.applicationStart == Some(f.applicationStart)
    ensures f.applicationEnd != "" ==> d.dates.applicationEnd == Some(f.applicationEnd)
    ensures f.resultDate != "" ==> d.dates.resultDate == Some(f.resultDate)
    ensures f.ticketIssueDate != "" ==> d.dates.ticketIssueDate == Some(f.ticketIssueDate)
    ensures NoBlanks(d)
  {
    TicketData(f.title, f.status,
      TicketDates(OrAbsent(f.applicationStart), OrAbsent(f.applicationEnd), OrAbsent(f.resultDate),
                  JoinDateTime(f.paymentDeadline, f.paymentDeadlineTime),
                  OrAbsent(f.ticketIssueDate),
                  JoinDateTime(f.showDate, f.showTime)),
      OrAbsent(f.venue), OrAbsent(f.seatInfo), OrAbsent(f.memo))
  }

  /** Re-reading a joined value gives back the date and the five-character time. */
  lemma SplitJoined(date: string, time: string, default: string)
    requires date != "" && 'T' !in date && |time| == 5 && 'T' !in time
    ensures DatePartOf(JoinDateTime(date, time)) == date
    ensures TimePartOf(JoinDateTime(date, time), default) == time
  {
    var rest := time + ":00";
    assert 'T' !in rest by {
      assert forall i :: 0 <= i < |rest| ==> rest[i] == if i < 5 then time[i] else ":00"[i - 5];
    }
    assert date + "T" + time + ":00" == date + ['T'] + rest;
    SplitJoin(date, 'T', rest);
    assert Take(rest, 5) == time;
  }

  /** What the date and time inputs can hold: a date without `T`, and an empty or `HH:MM` time. */
  predicate DateTimeInputs(date: string, time: string)
  {
    'T' !in date && (time == "" || (|time| == 5 && 'T' !in time))
  }

  /** One joined value re-opens as inputs that join to the same value again. */
  lemma JoinedReopens(date: string, time: string, default: string)
    requires DateTimeInputs(date, time) && |default| == 5
    ensures JoinDateTime(DatePartOf(JoinDateTime(date, time)), TimePartOf(JoinDateTime(date, time), default))
         == JoinDateTime(date, time)
  {
    if date != "" && time != "" {
      SplitJoined(date, time, default);
    }
  }

  /**
   * Editing round trip: opening the form on a ticket whose data the form submitted, and
   * submitting without a change, submits the same data.
   */
  lemma ReopenSubmitsSame(f: FormFields, t: Ticket)
    requires DateTimeInputs(f.paymentDeadline, f.paymentDeadlineTime)
    requires DateTimeInputs(f.showDate, f.showTime)
    requires DataOf(t) == Submission(f)
    ensures Submission(InitialFields(Some(t))) == DataOf(t)
  {
    JoinedReopens(f.paymentDeadline, f.paymentDeadlineTime, DefaultPaymentTime);
    JoinedReopens(f.showDate, f.showTime, DefaultShowTime);
  }

  /** The open form: its inputs, changed one at a time as the user types. */
  class TicketFormView {
    var fields: FormFields

    /** The form opens on the ticket being edited, or blank. */
    constructor (initial: Option<Ticket>)
      ensures fields == InitialFields(initial)
    {
      fields := InitialFields(initial);
    }

    method SetPaymentDeadline(date: string)
      modifies this
      ensures fields == old(fields).(paymentDeadline := date)
    {
      fields := fields.(paymentDeadline := date);
    }

    method SetPaymentDeadlineTime(time: string)
      modifies this
      ensures fields == old(fields).(paymentDeadlineTime := time)
    {
      fields := fields.(paymentDeadlineTime := time);
    }

    method SetShowDate(date: string)
      modifies this
      ensures fields == old(fields).(showDate := date)
    {
      fields := fields.(showDate := date);
    }

    method SetShowTime(time: string)
      modifies this
      ensures fields == old(fields).(showTime := time)
    {
      fields := fields.(showTime := time);
    }

    /** `handleSubmit`: what the form hands to `onSave`; the inputs are left as they are. */
    method Submit() returns (data: TicketData)
      ensures data == Submission(fields)
    {
      data := Submission(fields);
    }
  }
}
