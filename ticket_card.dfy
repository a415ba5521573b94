/**
 * The ticket card: which upcoming date it highlights (payment deadline, then issue date,
 * then show date, the first that is still ahead) and whether a date is shown with a time.
 * Instants are seconds since 0001-01-01 00:00 local time; `now` is the current instant.
 */
module TicketCard {
  import opened Wrappers
  import opened CivilDate
  import opened TicketTypes
  import opened TicketForm

  datatype ImportantKind = PaymentDue | IssueStart | ShowDay

  datatype ImportantDate = ImportantDate(kind: ImportantKind, date: string)

  /** `field && new Date(field) > now`: set, readable, and strictly after now. */
  predicate Ahead(field: Option<string>, now: int)
  {
    Present(field) && ParseInstant(field.value).Some? && ParseInstant(field.value).value > now
  }

  /** `getNextImportantDate`: the first of payment deadline, issue date and show date still ahead. */
  function NextImportantDate(d: TicketDates, now: int): (r: Option<ImportantDate>)
    ensures Ahead(d.paymentDeadline, now) ==> r == Some(ImportantDate(PaymentDue, d.paymentDeadline.value))
    ensures !Ahead(d.paymentDeadline, now) && Ahead(d.ticketIssueDate, now) ==> r == Some(ImportantDate(IssueStart, d.ticketIssueDate.value))
    ensures !Ahead(d.paymentDeadline, now) && !Ahead(d.ticketIssueDate, now) && Ahead(d.showDate, now)
            ==> r == Some(ImportantDate(ShowDay, d.showDate.value))
    ensures r.None? <==> !Ahead(d.paymentDeadline, now) && !Ahead(d.ticketIssueDate, now) && !Ahead(d.showDate, now)
  {
    if Ahead(d.paymentDeadline, now) then Some(ImportantDate(PaymentDue, d.paymentDeadline.value))
    else if Ahead(d.ticketIssueDate, now) then Some(ImportantDate(IssueStart, d.ticketIssueDate.value))
    else if Ahead(d.showDate, now) then Some(ImportantDate(ShowDay, d.showDate.value))
    else None
  }

  /** The highlighted date is always strictly after now, and it is one of the three fields. */
  lemma HighlightIsAhead(d: TicketDates, now: int)
    requires NextImportantDate(d, now).Some?
    ensures var r := NextImportantDate(d, now).value;
            ParseInstant(r.date).Some? && ParseInstant(r.date).value > now
            && Some(r.date) in [d.paymentDeadline, d.ticketIssueDate, d.showDate]
  {
  }

  /** A payment deadline still ahead is chosen whatever the issue and show dates are. */
  lemma PaymentDeadlineWins(d: TicketDates, now: int, issue: Option<string>, show: Option<string>)
    requires Ahead(d.paymentDeadline, now)
    ensures NextImportantDate(d.(ticketIssueDate := issue, showDate := show), now) == NextImportantDate(d, now)
  {
  }

  /** Once no date is ahead, none becomes ahead again as time goes on. */
  lemma NothingAheadStays(d: TicketDates, now: int, later: int)
    requires now <= later && NextImportantDate(d, now).None?
    ensures NextImportantDate(d, later).None?
  {
  }

  /** While the highlighted date is still ahead, a later look highlights the same date. */
  lemma HighlightKeptUntilPassed(d: TicketDates, now: int, later: int)
    requires now <= later && NextImportantDate(d, now).Some?
    requires var r := NextImportantDate(d, now).value; ParseInstant(r.date).value > later
    ensures NextImportantDate(d, later) == NextImportantDate(d, now)
  {
  }

  /** `formatDateTime`'s `hasTime`: a date is shown with a time iff its text contains `T`. */
  predicate ShowsTime(dateString: string)
  {
    'T' in dateString
  }

  /** Values the ticket form joins from a date and a time are shown with a time; plain dates are not. */
  lemma FormValuesShowTime(date: string, time: string)
    requires date != "" && time != "" && 'T' !in date
    ensures ShowsTime(JoinDateTime(date, time).value)
    ensures !ShowsTime(date)
  {
    assert JoinDateTime(date, time).value[|date|] == 'T';
  }
}
