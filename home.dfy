/**
 * The home page's "next event": every date field of every ticket that falls today or later
 * becomes a candidate, and the earliest candidate is shown, with a "days left" caption.
 * A day is an integer day number; `today` is the day number of the current local date.
 */
module Home {
  import opened Wrappers
  import opened Text
  import opened CivilDate
  import opened TicketTypes
  import opened Collections
  import TicketForm

  /** The fields the page lists, in the order it lists them (the application start is not one). */
  datatype UpcomingKind = ApplyEnd | ResultAnnounced | PaymentDue | IssueStart | ShowDay

  /** One candidate: its day, its date text, its time text (`HH:MM` or empty), its kind and ticket. */
  datatype Upcoming = Upcoming(day: int, dateStr: string, timeStr: string, kind: UpcomingKind, ticket: Ticket)

  /** The date field a kind reads. */
  function FieldOf(d: TicketDates, kind: UpcomingKind): Option<string>
  {
    match kind
    case ApplyEnd => d.applicationEnd
    case ResultAnnounced => d.resultDate
    case PaymentDue => d.paymentDeadline
    case IssueStart => d.ticketIssueDate
    case ShowDay => d.showDate
  }

  /** The day of a date field's date part (before `T`), when that part reads as a date. */
  function DayOf(s: string): Option<int>
  {
    ParseDateKey(BeforeFirst(s, 'T'))
  }

  /** A field is a candidate iff it is set, its date part reads as a date, and that day is not past. */
  predicate Qualifies(field: Option<string>, today: int)
  {
    Present(field) && DayOf(field.value).Some? && DayOf(field.value).value >= today
  }

  /** `addEvent`: the candidate a date field gives. */
  function Candidate(field: Option<string>, kind: UpcomingKind, ticket: Ticket, today: int): (r: Option<Upcoming>)
    ensures r.Some? <==> Qualifies(field, today)
    ensures r.Some? ==> r.value.day >= today && Some(r.value.day) == DayOf(field.value)
    ensures r.Some? ==> r.value.dateStr == BeforeFirst(field.value, 'T') && r.value.kind == kind && r.value.ticket == ticket
    ensures r.Some? ==> |r.value.timeStr| <= 5 && ('T' !in field.value ==> r.value.timeStr == "")
    ensures r.Some? && 'T' in field.value ==> r.value.timeStr == Take(SecondPart(field.value, 'T').value, 5)
  {
    if !Qualifies(field, today) then None
    else
      var s := field.value;
      var timeStr := if 'T' in s then Take(SecondPart(s, 'T').value, 5) else "";
      Some(Upcoming(DayOf(s).value, BeforeFirst(s, 'T'), timeStr, kind, ticket))
  }

  /**
   * A payment deadline or show date the ticket form stored from a date and an `HH:MM` time
   * shows that date and that time.
   */
  lemma StoredDateTimeShown(date: string, hhmm: string, kind: UpcomingKind, ticket: Ticket, today: int)
    requires date != "" && 'T' !in date && 'T' !in hhmm && |hhmm| == 5
    requires Qualifies(TicketForm.JoinDateTime(date, hhmm), today)
    ensures var c := Candidate(TicketForm.JoinDateTime(date, hhmm), kind, ticket, today).value;
            c.dateStr == date && c.timeStr == hhmm
  {
    var rest := hhmm + ":00";
    assert 'T' !in rest by {
      assert forall i :: 0 <= i < |rest| ==> rest[i] == if i < 5 then hhmm[i] else ":00"[i - 5];
    }
    assert date + "T" + hhmm + ":00" == date + ['T'] + rest;
    SplitJoin(date, 'T', rest);
    assert Take(rest, 5) == hhmm;
  }

  /** The candidates of one ticket, in field order. */
  function TicketCandidates(t: Ticket, today: int): seq<Upcoming>
  {
    Somes([Candidate(t.dates.applicationEnd, ApplyEnd, t, today),
           Candidate(t.dates.resultDate, ResultAnnounced, t, today),
           Candidate(t.dates.paymentDeadline, PaymentDue, t, today),
           Candidate(t.dates.ticketIssueDate, IssueStart, t, today),
           Candidate(t.dates.showDate, ShowDay, t, today)])
  }

  /** The present values, in order. */
  function Somes<T(!new)>(os: seq<Option<T>>): (r: seq<T>)
    ensures forall x :: x in r <==> Some(x) in os
  {
    if os == [] then []
    else
      assert os == [os[0]] + os[1..];
      (if os[0].Some? then [os[0].value] else []) + Somes(os[1..])
  }

  /** All candidates: ticket after ticket, each ticket's in field order. */
  function AllCandidates(tickets: seq<Ticket>, today: int): seq<Upcoming>
  {
    FlatMap(t => TicketCandidates(t, today), tickets)
  }

  /** A value is a candidate of a ticket iff it is the candidate its kind's field gives. */
  lemma TicketCandidateMember(t: Ticket, today: int, c: Upcoming)
    ensures c in TicketCandidates(t, today) <==> c.ticket == t && Candidate(FieldOf(t.dates, c.kind), c.kind, t, today) == Some(c)
  {
  }

  /** A value is a candidate iff its ticket is in the list and its kind's field gives it. */
  lemma {:induction false} AllCandidatesMember(tickets: seq<Ticket>, today: int, c: Upcoming)
    ensures c in AllCandidates(tickets, today)
        <==> c.ticket in tickets && Candidate(FieldOf(c.ticket.dates, c.kind), c.kind, c.ticket, today) == Some(c)
  {
    if tickets != [] {
      assert AllCandidates(tickets, today) == TicketCandidates(tickets[0], today) + AllCandidates(tickets[1..], today);
      AllCandidatesMember(tickets[1..], today, c);
      TicketCandidateMember(tickets[0], today, c);
      assert tickets == [tickets[0]] + tickets[1..];
    }
  }

  /** There is no candidate iff no ticket has a field of the five that is set and not past. */
  lemma {:induction false} NoCandidates(tickets: seq<Ticket>, today: int)
    ensures AllCandidates(tickets, today) == []
        <==> forall t, kind :: t in tickets ==> !Qualifies(FieldOf(t.dates, kind), today)
  {
    if tickets != [] {
      var t := tickets[0];
      assert AllCandidates(tickets, today) == TicketCandidates(t, today) + AllCandidates(tickets[1..], today);
      NoCandidates(tickets[1..], today);
      assert tickets == [t] + tickets[1..];
      if TicketCandidates(t, today) == [] {
        forall kind ensures !Qualifies(FieldOf(t.dates, kind), today) {
          if Qualifies(FieldOf(t.dates, kind), today) {
            var c := Candidate(FieldOf(t.dates, kind), kind, t, today).value;
            TicketCandidateMember(t, today, c);
          }
        }
      } else {
        var c := TicketCandidates(t, today)[0];
        TicketCandidateMember(t, today, c);
        assert Qualifies(FieldOf(t.dates, c.kind), today);
      }
    }
  }

  /** The application start never makes a candidate: changing it changes no candidate's day, text or kind. */
  lemma IgnoresApplicationStart(t: Ticket, today: int, start: Option<string>)
    ensures var t' := t.(dates := t.dates.(applicationStart := start));
            |TicketCandidates(t', today)| == |TicketCandidates(t, today)| &&
            forall k :: 0 <= k < |TicketCandidates(t, today)| ==>
              TicketCandidates(t', today)[k] == TicketCandidates(t, today)[k].(ticket := t')
  {
    var t' := t.(dates := t.dates.(applicationStart := start));
    var os := [Candidate(t.dates.applicationEnd, ApplyEnd, t, today),
               Candidate(t.dates.resultDate, ResultAnnounced, t, today),
               Candidate(t.dates.paymentDeadline, PaymentDue, t, today),
               Candidate(t.dates.ticketIssueDate, IssueStart, t, today),
               Candidate(t.dates.showDate, ShowDay, t, today)];
    var os' := [Candidate(t'.dates.applicationEnd, ApplyEnd, t', today),
                Candidate(t'.dates.resultDate, ResultAnnounced, t', today),
                Candidate(t'.dates.paymentDeadline, PaymentDue, t', today),
                Candidate(t'.dates.ticketIssueDate, IssueStart, t', today),
                Candidate(t'.dates.showDate, ShowDay, t', today)];
    forall i | 0 <= i < 5
      ensures os'[i] == if os[i].Some? then Some(os[i].value.(ticket := t')) else None
    {
      var fields := [t.dates.applicationEnd, t.dates.resultDate, t.dates.paymentDeadline, t.dates.ticketIssueDate, t.dates.showDate];
      var kinds := [ApplyEnd, ResultAnnounced, PaymentDue, IssueStart, ShowDay];
      assert os[i] == Candidate(fields[i], kinds[i], t, today);
      assert os'[i] == Candidate(fields[i], kinds[i], t', today);
      CandidateRetag(fields[i], kinds[i], t, t', today);
    }
    SomesRetag(os, os', t');
  }

  /** A candidate's only tie to its ticket is the ticket it carries. */
  lemma CandidateRetag(field: Option<string>, kind: UpcomingKind, t: Ticket, t': Ticket, today: int)
    ensures Candidate(field, kind, t', today)
         == if Candidate(field, kind, t, today).Some? then Some(Candidate(field, kind, t, today).value.(ticket := t')) else None
  {
  }

  /** Giving every present candidate another ticket gives the same candidates with that ticket. */
  lemma {:induction false} SomesRetag(os: seq<Option<Upcoming>>, os': seq<Option<Upcoming>>, t': Ticket)
    requires |os'| == |os|
    requires forall i :: 0 <= i < |os| ==> os'[i] == if os[i].Some? then Some(os[i].value.(ticket := t')) else None
    ensures |Somes(os')| == |Somes(os)|
    ensures forall k :: 0 <= k < |Somes(os)| ==> Somes(os')[k] == Somes(os)[k].(ticket := t')
  {
    if os != [] {
      SomesRetag(os[1..], os'[1..], t');
    }
  }

  /** `forEach` with `addEvent`: the candidates are pushed ticket by ticket. */
  method CollectCandidates(tickets: seq<Ticket>, today: int) returns (all: seq<Upcoming>)
    ensures all == AllCandidates(tickets, today)
  {
    all := [];
    var i := 0;
    while i < |tickets|
      invariant 0 <= i <= |tickets|
      invariant all == AllCandidates(tickets[..i], today)
    {
      assert tickets[..i + 1] == tickets[..i] + [tickets[i]];
      FlatMapSnoc(t => TicketCandidates(t, today), tickets[..i], tickets[i]);
      all := all + TicketCandidates(tickets[i], today);
      i := i + 1;
    }
    assert tickets[..|tickets|] == tickets;
  }

  /**
   * Where a stable sort by day puts its first element: a candidate with the smallest day,
   * and of those the first discovered.
   */
  function EarliestIndex(cs: seq<Upcoming>): (k: nat)
    requires cs != []
    ensures k < |cs|
    ensures forall j :: 0 <= j < |cs| ==> cs[k].day <= cs[j].day
    ensures forall j :: 0 <= j < k ==> cs[j].day > cs[k].day
  {
    if |cs| == 1 then 0
    else
      var k := 1 + EarliestIndex(cs[1..]);
      assert forall j :: 1 <= j < |cs| ==> cs[j] == cs[1..][j - 1];
      if cs[0].day <= cs[k].day then 0 else k
  }

  /** `nextEvent`: collect, sort by day, take the first; nothing when there is no candidate. */
  method NextEvent(tickets: seq<Ticket>, today: int) returns (next: Option<Upcoming>)
    ensures next.None? <==> AllCandidates(tickets, today) == []
    ensures next.Some? ==> var cs := AllCandidates(tickets, today);
              next == Some(cs[EarliestIndex(cs)])
  {
    var all := CollectCandidates(tickets, today);
    if |all| > 0 {
      next := Some(all[EarliestIndex(all)]);
    } else {
      next := None;
    }
  }

  /**
   * The next event is a candidate not in the past, no candidate is earlier, and every
   * candidate discovered before it is strictly later.
   */
  lemma NextEventIsEarliest(tickets: seq<Ticket>, today: int, c: Upcoming, pos: nat)
    requires var cs := AllCandidates(tickets, today); cs != [] && c == cs[EarliestIndex(cs)] && pos == EarliestIndex(cs)
    ensures c.day >= today && c.ticket in tickets
    ensures forall d :: d in AllCandidates(tickets, today) ==> c.day <= d.day
    ensures forall j :: 0 <= j < pos ==> AllCandidates(tickets, today)[j].day > c.day
  {
    AllCandidatesMember(tickets, today, c);
  }

  // ---------------------------------------------------------------------------
  // "Days left"

  /** `getDaysLeft`: today, tomorrow, or "N days left", N the distance in days either way. */
  function DaysLeft(eventDay: int, today: int): (text: string)
    ensures text == "今日!!" <==> eventDay == today
    ensures text == "明日!" <==> (eventDay - today == 1 || today - eventDay == 1)
    ensures var n := if eventDay >= today then eventDay - today else today - eventDay;
            n >= 2 ==> text == "あと " + NatToString(n) + " 日"
  {
    var n := if eventDay >= today then eventDay - today else today - eventDay;
    if n == 0 then "今日!!"
    else if n == 1 then "明日!"
    else
      var t := "あと " + NatToString(n) + " 日";
      assert t[0] == 'あ';
      t
  }

  /** The caption depends only on the distance: a day as far in the past reads the same. */
  lemma DaysLeftSymmetric(today: int, n: nat)
    ensures DaysLeft(today + n, today) == DaysLeft(today - n, today)
  {
  }

  /** The number in "あと N 日" reads back as the distance in days. */
  lemma DaysLeftReadsBack(eventDay: int, today: int)
    requires eventDay - today >= 2
    ensures var text := DaysLeft(eventDay, today);
            |text| >= 5 && AllDigits(text[3..|text| - 2]) && DigitsValue(text[3..|text| - 2]) == eventDay - today
  {
    var n: nat := eventDay - today;
    var text := DaysLeft(eventDay, today);
    assert text == "あと " + NatToString(n) + " 日";
    assert text[3..|text| - 2] == NatToString(n);
    NatToStringRoundTrip(n);
  }
}
