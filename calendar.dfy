/**
 * The ticket calendar: a month grid (blank cells up to the first weekday, then the days of
 * the month), month navigation, the "today" highlight, and the events a day shows.
 */
module Calendar {
  import opened Wrappers
  import opened Text
  import opened CivilDate
  import opened TicketTypes
  import opened Collections

  // ---------------------------------------------------------------------------
  // The month grid

  /** `new Date(year, month, 1).getDay()`: the column (0 = Sunday) of the first of the month. */
  function FirstDayOfWeek(y: int, m: int): (w: int)
    ensures 0 <= w <= 6
  {
    Weekday(MakeDay(y, m, 1))
  }

  /**
   * The cells of the month: `FirstDayOfWeek` blanks, then the days 1 to the length of the
   * month, with nothing after the last day.
   */
  function MonthGrid(y: int, m: int): (g: seq<Option<int>>)
    requires 0 <= m < 12
    ensures |g| == FirstDayOfWeek(y, m) + DaysInMonth(y, m)
    ensures forall i :: 0 <= i < FirstDayOfWeek(y, m) ==> g[i] == None
    ensures forall i :: FirstDayOfWeek(y, m) <= i < |g| ==> g[i] == Some(i - FirstDayOfWeek(y, m) + 1)
  {
    var blanks := FirstDayOfWeek(y, m);
    seq(blanks + DaysInMonth(y, m), i => if i < blanks then None else Some(i - blanks + 1))
  }

  /** Every day of the month appears once, and the grid ends with the last day. */
  lemma DayCellUnique(y: int, m: int, d: int)
    requires 0 <= m < 12 && 1 <= d <= DaysInMonth(y, m)
    ensures var g := MonthGrid(y, m);
            forall i :: 0 <= i < |g| ==> (g[i] == Some(d) <==> i == FirstDayOfWeek(y, m) + d - 1)
    ensures MonthGrid(y, m)[|MonthGrid(y, m)| - 1] == Some(DaysInMonth(y, m))
  {
  }

  /** Each day of the month stands in the column (position modulo 7) of its own weekday. */
  lemma DayInWeekdayColumn(y: int, m: int, d: int)
    requires 0 <= m < 12 && 1 <= d <= DaysInMonth(y, m)
    ensures (FirstDayOfWeek(y, m) + d - 1) % 7 == Weekday(MakeDay(y, m, d))
  {
    var first := MakeDay(y, m, 1);
    var w := FirstDayOfWeek(y, m);
    assert MakeDay(y, m, d) == first + d - 1;
    var q := (first + 1) / 7;
    assert first + 1 == 7 * q + w;
    ShiftByWeeks(q, w + d - 1);
  }

  /** Adding whole weeks does not change the weekday. */
  lemma ShiftByWeeks(q: int, n: int)
    ensures (7 * q + n) % 7 == n % 7
  {
  }

  /** The grid's length is the Gregorian month length as the code reads it: day 0 of the next month. */
  lemma GridLengthFromNextMonth(y: int, m: int)
    requires 0 <= m < 12
    ensures MakeDay(y, m + 1, 0) == MakeDay(y, m, DaysInMonth(y, m))
    ensures |MonthGrid(y, m)| - FirstDayOfWeek(y, m) == DaysInMonth(y, m)
  {
    DayZeroOfNextMonth(y, m);
  }

  // ---------------------------------------------------------------------------
  // Month navigation

  /** `new Date(y, m + delta, 1)` read back as a year and a month in 0..11. */
  function ShiftMonth(y: int, m: int, delta: int): (r: (int, int))
    ensures 0 <= r.1 < 12
  {
    (y + (m + delta) / 12, (m + delta) % 12)
  }

  /** The shifted month is the one `new Date(y, m + delta, 1)` lands in, year overflow included. */
  lemma ShiftMonthIsDateOverflow(y: int, m: int, delta: int)
    ensures var (y1, m1) := ShiftMonth(y, m, delta); MakeDay(y1, m1, 1) == MakeDay(y, m + delta, 1)
  {
  }

  /** Going forward and then back (or back and then forward) returns to the month; the year rolls over. */
  lemma NavigationRoundTrip(y: int, m: int)
    requires 0 <= m < 12
    ensures var (y1, m1) := ShiftMonth(y, m, 1); ShiftMonth(y1, m1, -1) == (y, m)
    ensures var (y1, m1) := ShiftMonth(y, m, -1); ShiftMonth(y1, m1, 1) == (y, m)
    ensures ShiftMonth(y, m, 1) == if m == 11 then (y + 1, 0) else (y, m + 1)
    ensures ShiftMonth(y, m, -1) == if m == 0 then (y - 1, 11) else (y, m - 1)
  {
    if m == 11 {
      assert ShiftMonth(y, m, 1) == (y + 1, 0);
      assert ShiftMonth(y + 1, 0, -1) == (y, 11);
    } else {
      assert ShiftMonth(y, m, 1) == (y, m + 1);
      assert ShiftMonth(y, m + 1, -1) == (y, m);
    }
    if m == 0 {
      assert ShiftMonth(y, m, -1) == (y - 1, 11);
      assert ShiftMonth(y - 1, 11, 1) == (y, 0);
    } else {
      assert ShiftMonth(y, m, -1) == (y, m - 1);
      assert ShiftMonth(y, m - 1, 1) == (y, m);
    }
  }

  /** The month the calendar shows (`currentDate`, of which only the year and month are read). */
  class CalendarView {
    var year: int
    var month: int

    predicate Valid()
      reads this
    {
      0 <= month < 12
    }

    /** Opens on today's month. */
    constructor (todayYear: int, todayMonth: int)
      requires 0 <= todayMonth < 12
      ensures Valid() && year == todayYear && month == todayMonth
    {
      year := todayYear;
      month := todayMonth;
    }

    /** `goToPreviousMonth`: day 1 of the month before. */
    method GoToPreviousMonth()
      requires Valid()
      modifies this
      ensures Valid() && (year, month) == ShiftMonth(old(year), old(month), -1)
    {
      var (y, m) := ShiftMonth(year, month, -1);
      year, month := y, m;
    }

    /** `goToNextMonth`: day 1 of the month after. */
    method GoToNextMonth()
      requires Valid()
      modifies this
      ensures Valid() && (year, month) == ShiftMonth(old(year), old(month), 1)
    {
      var (y, m) := ShiftMonth(year, month, 1);
      year, month := y, m;
    }

    /** `goToToday`: back to today's month. */
    method GoToToday(todayYear: int, todayMonth: int)
      requires 0 <= todayMonth < 12
      modifies this
      ensures Valid() && year == todayYear && month == todayMonth
    {
      year, month := todayYear, todayMonth;
    }

    /** `calendarDays`: the blanks, then the days, pushed one at a time. */
    method CalendarDays() returns (days: seq<Option<int>>)
      requires Valid()
      ensures days == MonthGrid(year, month)
    {
      var firstDayOfWeek := FirstDayOfWeek(year, month);
      var daysInMonth := DaysInMonth(year, month);
      days := [];
      var i := 0;
      while i < firstDayOfWeek
        invariant 0 <= i <= firstDayOfWeek && |days| == i
        invariant forall k :: 0 <= k < i ==> days[k] == None
      {
        days := days + [None];
        i := i + 1;
      }
      var day := 1;
      while day <= daysInMonth
        invariant 1 <= day <= daysInMonth + 1 && |days| == firstDayOfWeek + day - 1
        invariant forall k :: 0 <= k < firstDayOfWeek ==> days[k] == None
        invariant forall k :: firstDayOfWeek <= k < |days| ==> days[k] == Some(k - firstDayOfWeek + 1)
      {
        days := days + [Some(day)];
        day := day + 1;
      }
    }

    /** `isToday(day)`: the shown year and month and the given day are today's. */
    predicate IsToday(day: int, todayYear: int, todayMonth: int, todayDate: int)
      reads this
    {
      year == todayYear && month == todayMonth && day == todayDate
    }

    /** `getDateEvents(day)`: the events of the day's key, ticket by ticket. */
    method GetDateEvents(tickets: seq<Ticket>, day: nat) returns (events: seq<DayEvent>)
      requires Valid()
      ensures events == DayEvents(tickets, FormatDateKey(year, month, day))
    {
      var key := FormatDateKey(year, month, day);
      events := EventsOn(tickets, key);
    }
  }

  /** The `forEach` of `getDateEvents`: each ticket's events are pushed in turn. */
  method EventsOn(tickets: seq<Ticket>, key: string) returns (events: seq<DayEvent>)
    ensures events == DayEvents(tickets, key)
  {
    events := [];
    var i := 0;
    while i < |tickets|
      invariant 0 <= i <= |tickets|
      invariant events == DayEvents(tickets[..i], key)
    {
      DayEventsSnoc(tickets, i, key);
      events := events + TicketEvents(tickets[i], key);
      i := i + 1;
    }
    assert tickets[..|tickets|] == tickets;
  }

  /**
   * After `goToToday`, exactly one cell of the grid is highlighted as today: the cell that
   * holds today's date.
   */
  lemma TodayHighlightedOnce(view: CalendarView, todayYear: int, todayMonth: int, todayDate: int)
    requires view.Valid() && view.year == todayYear && view.month == todayMonth
    requires 1 <= todayDate <= DaysInMonth(todayYear, todayMonth)
    ensures var g := MonthGrid(todayYear, todayMonth);
            forall i :: 0 <= i < |g| && g[i].Some? ==>
              (view.IsToday(g[i].value, todayYear, todayMonth, todayDate) <==> i == FirstDayOfWeek(todayYear, todayMonth) + todayDate - 1)
  {
    DayCellUnique(todayYear, todayMonth, todayDate);
  }

  // ---------------------------------------------------------------------------
  // Events of a day

  datatype DayEventKind = ApplyPeriod | ResultDay | PaymentDay | IssueDay | ShowDay

  /** The order in which a ticket's events are pushed. */
  function Rank(k: DayEventKind): int
  {
    match k
    case ApplyPeriod => 0
    case ResultDay => 1
    case PaymentDay => 2
    case IssueDay => 3
    case ShowDay => 4
  }

  /** One event shown in a day cell; its colours are those of `StatusConfigOf(ticket.status)`. */
  datatype DayEvent = DayEvent(kind: DayEventKind, ticket: Ticket)

  /** The key lies within the application period, both bounds given (string comparison). */
  predicate InApplication(d: TicketDates, key: string)
  {
    Present(d.applicationStart) && Present(d.applicationEnd)
    && LexLe(d.applicationStart.value, key) && LexLe(key, d.applicationEnd.value)
  }

  /** A date field that matches the key as a whole string. */
  predicate OnWholeDate(field: Option<string>, key: string)
  {
    Present(field) && key == field.value
  }

  /** A date-and-time field whose date part (before `T`) matches the key. */
  predicate OnDatePart(field: Option<string>, key: string)
  {
    Present(field) && key == BeforeFirst(field.value, 'T')
  }

  /** Does a ticket with these dates show an event of kind `k` on the day `key`? */
  predicate Fires(d: TicketDates, key: string, k: DayEventKind)
  {
    match k
    case ApplyPeriod => InApplication(d, key)
    case ResultDay => OnWholeDate(d.resultDate, key)
    case PaymentDay => OnDatePart(d.paymentDeadline, key)
    case IssueDay => OnWholeDate(d.ticketIssueDate, key)
    case ShowDay => OnDatePart(d.showDate, key)
  }

  /** The five kinds in the order the code tests them. */
  const AllKinds: seq<DayEventKind> := [ApplyPeriod, ResultDay, PaymentDay, IssueDay, ShowDay]

  /** The kinds are listed once each, by rank. */
  lemma AllKindsRanked()
    ensures IncreasingBy(Rank, AllKinds)
    ensures forall k :: k in AllKinds
  {
    assert Rank(AllKinds[0]) == 0 && Rank(AllKinds[1]) == 1 && Rank(AllKinds[2]) == 2;
    assert Rank(AllKinds[3]) == 3 && Rank(AllKinds[4]) == 4;
    forall k ensures k in AllKinds {
      assert AllKinds[Rank(k)] == k;
    }
  }

  /** Keeping the kinds a test accepts keeps each accepted kind once, in rank order. */
  lemma KindsKept(p: DayEventKind -> bool)
    ensures forall k :: k in Filter(p, AllKinds) <==> p(k)
    ensures IncreasingBy(Rank, Filter(p, AllKinds))
  {
    AllKindsRanked();
    FilterIncreasing(p, Rank, AllKinds);
  }

  /**
   * The kinds of event one ticket shows on the day `key`: each kind whose condition holds,
   * once, in the order the code pushes them.
   */
  function TicketEventKinds(d: TicketDates, key: string): (ks: seq<DayEventKind>)
    ensures forall k :: k in ks <==> Fires(d, key, k)
    ensures IncreasingBy(Rank, ks)
  {
    KindsKept(k => Fires(d, key, k));
    Filter(k => Fires(d, key, k), AllKinds)
  }

  /** One event per kind, all for ticket `t`. */
  function EventsOfKinds(ks: seq<DayEventKind>, t: Ticket): (es: seq<DayEvent>)
    ensures |es| == |ks|
  {
    if ks == [] then [] else [DayEvent(ks[0], t)] + EventsOfKinds(ks[1..], t)
  }

  function TicketEvents(t: Ticket, key: string): seq<DayEvent>
  {
    EventsOfKinds(TicketEventKinds(t.dates, key), t)
  }

  /** The events of the day `key`: each ticket's events, ticket after ticket. */
  function DayEvents(tickets: seq<Ticket>, key: string): seq<DayEvent>
  {
    FlatMap(t => TicketEvents(t, key), tickets)
  }

  /** The events of two lists of tickets are those of the first list, then those of the second. */
  lemma DayEventsAppend(a: seq<Ticket>, b: seq<Ticket>, key: string)
    ensures DayEvents(a + b, key) == DayEvents(a, key) + DayEvents(b, key)
  {
    FlatMapAppend(t => TicketEvents(t, key), a, b);
  }

  /** One more ticket adds its own events at the end. */
  lemma DayEventsSnoc(tickets: seq<Ticket>, i: int, key: string)
    requires 0 <= i < |tickets|
    ensures DayEvents(tickets[..i + 1], key) == DayEvents(tickets[..i], key) + TicketEvents(tickets[i], key)
  {
    assert tickets[..i + 1] == tickets[..i] + [tickets[i]];
    FlatMapSnoc(t => TicketEvents(t, key), tickets[..i], tickets[i]);
  }

  /** An event of a ticket's own list is of that ticket, of a kind in the list. */
  lemma {:induction false} EventsOfKindsMember(ks: seq<DayEventKind>, t: Ticket, e: DayEvent)
    ensures e in EventsOfKinds(ks, t) <==> e.ticket == t && e.kind in ks
  {
    if ks != [] {
      EventsOfKindsMember(ks[1..], t, e);
      assert ks == [ks[0]] + ks[1..];
    }
  }

  /** A ticket shows an event of a kind on a day iff it is in the list and the kind's condition holds. */
  lemma {:induction false} DayEventsMember(tickets: seq<Ticket>, key: string, e: DayEvent)
    ensures e in DayEvents(tickets, key) <==> e.ticket in tickets && Fires(e.ticket.dates, key, e.kind)
  {
    if tickets != [] {
      assert DayEvents(tickets, key) == TicketEvents(tickets[0], key) + DayEvents(tickets[1..], key);
      DayEventsMember(tickets[1..], key, e);
      EventsOfKindsMember(TicketEventKinds(tickets[0].dates, key), tickets[0], e);
      assert tickets == [tickets[0]] + tickets[1..];
    }
  }

  /** A ticket with no dates at all shows no events. */
  lemma NoDatesNoEvents(t: Ticket, key: string)
    requires t.dates == TicketDates(None, None, None, None, None, None)
    ensures TicketEvents(t, key) == []
  {
  }

  /**
   * A payment deadline or show date stored as `date + "T" + time` is shown on exactly the
   * day `date`.
   */
  lemma DateAndTimeShownOnItsDay(date: string, time: string, key: string)
    requires date != "" && 'T' !in date
    ensures OnDatePart(Some(date + "T" + time), key) <==> key == date
  {
    var s := date + "T" + time;
    var r := BeforeFirst(s, 'T');
    assert s[|date|] == 'T';
    assert forall i :: 0 <= i < |date| ==> s[i] == date[i];
    assert |r| == |date|;
    assert r == s[..|date|] == date;
  }
}
