/**
 * The ticket store: an ordered list of tickets, newest first, that every change writes
 * back to browser storage under the key "oshigoto-tickets".
 */
module TicketStore {
  import opened Wrappers
  import opened Text
  import opened TicketTypes
  import opened Collections

  /** The user-editable part of a ticket. */
  function DataOf(t: Ticket): TicketData
  {
    TicketData(t.title, t.status, t.dates, t.venue, t.seatInfo, t.memo)
  }

  /** A new ticket: the submitted data, a fresh id, created and updated at `now`. */
  function NewTicket(data: TicketData, id: string, now: string): (t: Ticket)
    ensures DataOf(t) == data
    ensures t.id == id && t.createdAt == now && t.updatedAt == now
  {
    Ticket(id, data.title, data.status, data.dates, data.venue, data.seatInfo, data.memo, now, now)
  }

  /** `t` with every editable field taken from `data`; id and creation time are kept. */
  function Rewritten(t: Ticket, data: TicketData, now: string): (r: Ticket)
    ensures DataOf(r) == data
    ensures r.id == t.id && r.createdAt == t.createdAt && r.updatedAt == now
  {
    NewTicket(data, t.id, t.createdAt).(updatedAt := now)
  }

  /** `t` with a new status; title, dates, venue, seat and memo are untouched. */
  function WithStatus(t: Ticket, status: TicketStatus, now: string): (r: Ticket)
    ensures DataOf(r) == DataOf(t).(status := status)
    ensures r.id == t.id && r.createdAt == t.createdAt && r.updatedAt == now
  {
    t.(status := status, updatedAt := now)
  }

  /** The list after `updateTicket(id, data)`. */
  function UpdatedTickets(ts: seq<Ticket>, id: string, data: TicketData, now: string): (r: seq<Ticket>)
    ensures |r| == |ts|
    ensures forall i :: 0 <= i < |ts| && ts[i].id == id ==> r[i] == Rewritten(ts[i], data, now)
    ensures forall i :: 0 <= i < |ts| && ts[i].id != id ==> r[i] == ts[i]
  {
    seq(|ts|, i requires 0 <= i < |ts| => if ts[i].id == id then Rewritten(ts[i], data, now) else ts[i])
  }

  /** The list after `updateTicketStatus(id, status)`. */
  function StatusUpdatedTickets(ts: seq<Ticket>, id: string, status: TicketStatus, now: string): (r: seq<Ticket>)
    ensures |r| == |ts|
    ensures forall i :: 0 <= i < |ts| && ts[i].id == id ==> r[i] == WithStatus(ts[i], status, now)
    ensures forall i :: 0 <= i < |ts| && ts[i].id != id ==> r[i] == ts[i]
  {
    seq(|ts|, i requires 0 <= i < |ts| => if ts[i].id == id then WithStatus(ts[i], status, now) else ts[i])
  }

  /** The list after `deleteTicket(id)`: exactly the tickets with another id, in their order. */
  function TicketsWithout(ts: seq<Ticket>, id: string): (r: seq<Ticket>)
    ensures forall t :: t in r <==> t in ts && t.id != id
  {
    Filter((t: Ticket) => t.id != id, ts)
  }

  /** `getTicketById`: the first ticket with that id. */
  function FindTicket(ts: seq<Ticket>, id: string): (r: Option<Ticket>)
    ensures r.None? <==> forall t :: t in ts ==> t.id != id
    ensures r.Some? ==> r.value in ts && r.value.id == id
    ensures r.Some? ==> exists k :: 0 <= k < |ts| && ts[k] == r.value && forall j :: 0 <= j < k ==> ts[j].id != id
  {
    Find((t: Ticket) => t.id == id, ts)
  }

  /** `getTicketsByStatus`. */
  function TicketsByStatus(ts: seq<Ticket>, status: TicketStatus): (r: seq<Ticket>)
    ensures forall t :: t in r <==> t in ts && t.status == status
  {
    Filter((t: Ticket) => t.status == status, ts)
  }

  /** A set schedule value, cut before its first 'T', lies in [start, end] by string order. */
  predicate DayInRange(d: Option<string>, start: string, end: string)
  {
    Present(d) && LexLe(start, BeforeFirst(d.value, 'T')) && LexLe(BeforeFirst(d.value, 'T'), end)
  }

  predicate HasDateInRange(t: Ticket, start: string, end: string)
  {
    exists d :: d in DateFields(t.dates) && DayInRange(d, start, end)
  }

  /** `getTicketsInDateRange`: tickets with some schedule day in [start, end], inclusive. */
  function TicketsInDateRange(ts: seq<Ticket>, start: string, end: string): (r: seq<Ticket>)
    ensures forall t :: t in r <==> t in ts && exists d :: d in DateFields(t.dates) && DayInRange(d, start, end)
  {
    Filter(t => HasDateInRange(t, start, end), ts)
  }

  /** The application window: both bounds set and start <= date <= end by whole-string order. */
  predicate InApplicationPeriod(dates: TicketDates, date: string)
  {
    Present(dates.applicationStart) && Present(dates.applicationEnd)
    && LexLe(dates.applicationStart.value, date) && LexLe(date, dates.applicationEnd.value)
  }

  /** A set value whose part before 'T' is `date`. */
  predicate OnDay(d: Option<string>, date: string)
  {
    Present(d) && BeforeFirst(d.value, 'T') == date
  }

  predicate HasEventOn(t: Ticket, date: string)
  {
    InApplicationPeriod(t.dates, date)
    || OnDay(t.dates.resultDate, date) || OnDay(t.dates.paymentDeadline, date)
    || OnDay(t.dates.ticketIssueDate, date) || OnDay(t.dates.showDate, date)
  }

  /** `getTicketsForDate`. */
  function TicketsForDate(ts: seq<Ticket>, date: string): (r: seq<Ticket>)
    ensures forall t :: t in r <==>
              t in ts
              && (InApplicationPeriod(t.dates, date)
                  || OnDay(t.dates.resultDate, date) || OnDay(t.dates.paymentDeadline, date)
                  || OnDay(t.dates.ticketIssueDate, date) || OnDay(t.dates.showDate, date))
  {
    Filter(t => HasEventOn(t, date), ts)
  }

  /** A ticket listed for a day because of one of its four dated events is also in that one-day range. */
  lemma DayEventIsInOneDayRange(ts: seq<Ticket>, t: Ticket, date: string)
    requires t in TicketsForDate(ts, date) && !InApplicationPeriod(t.dates, date)
    ensures t in TicketsInDateRange(ts, date, date)
  {
    LexLeReflexive(date);
    var ds := DateFields(t.dates);
    if OnDay(t.dates.resultDate, date) {
      assert ds[2] in ds && DayInRange(ds[2], date, date);
    } else if OnDay(t.dates.paymentDeadline, date) {
      assert ds[3] in ds && DayInRange(ds[3], date, date);
    } else if OnDay(t.dates.ticketIssueDate, date) {
      assert ds[4] in ds && DayInRange(ds[4], date, date);
    } else {
      assert ds[5] in ds && DayInRange(ds[5], date, date);
    }
  }

  /** Ids are pairwise distinct. */
  predicate UniqueIds(ts: seq<Ticket>)
  {
    forall i, j :: 0 <= i < j < |ts| ==> ts[i].id != ts[j].id
  }

  /** Update, status update and delete with an id no ticket has leave the list as it was. */
  lemma UnknownIdChangesNothing(ts: seq<Ticket>, id: string, data: TicketData, status: TicketStatus, now: string)
    requires forall t :: t in ts ==> t.id != id
    ensures UpdatedTickets(ts, id, data, now) == ts
    ensures StatusUpdatedTickets(ts, id, status, now) == ts
    ensures TicketsWithout(ts, id) == ts
  {
    FilterKeepsAll((t: Ticket) => t.id != id, ts);
  }

  /** Adding with a fresh id, updating and deleting all keep ids unique. */
  lemma MutationsKeepUniqueIds(ts: seq<Ticket>, t: Ticket, id: string, data: TicketData, status: TicketStatus, now: string)
    requires UniqueIds(ts)
    ensures (forall u :: u in ts ==> u.id != t.id) ==> UniqueIds([t] + ts)
    ensures UniqueIds(UpdatedTickets(ts, id, data, now))
    ensures UniqueIds(StatusUpdatedTickets(ts, id, status, now))
    ensures UniqueIds(TicketsWithout(ts, id))
  {
    if forall u :: u in ts ==> u.id != t.id {
      var r := [t] + ts;
      forall i, j | 0 <= i < j < |r| ensures r[i].id != r[j].id {
        assert r[j] == ts[j - 1];
        if i > 0 { assert r[i] == ts[i - 1]; }
      }
    }
    var key := (u: Ticket) => u.id;
    assert DistinctBy(key, ts);
    FilterDistinct((u: Ticket) => u.id != id, key, ts);
  }

  /** Right after adding `t`, looking up its id finds `t`. */
  lemma FindAfterAdd(ts: seq<Ticket>, t: Ticket)
    ensures FindTicket([t] + ts, t.id) == Some(t)
  {
    FindPrepend((u: Ticket) => u.id == t.id, t, ts);
  }

  /** Updating a ticket rewrites the one lookup finds; deleting makes lookup fail. */
  lemma {:induction false} FindAfterUpdate(ts: seq<Ticket>, id: string, data: TicketData, now: string)
    ensures FindTicket(UpdatedTickets(ts, id, data, now), id) ==
            match FindTicket(ts, id)
            case None => None
            case Some(t) => Some(Rewritten(t, data, now))
  {
    if ts != [] {
      var r := UpdatedTickets(ts, id, data, now);
      assert r == [r[0]] + r[1..] && ts == [ts[0]] + ts[1..];
      assert r[1..] == UpdatedTickets(ts[1..], id, data, now);
      FindPrepend((u: Ticket) => u.id == id, r[0], r[1..]);
      FindPrepend((u: Ticket) => u.id == id, ts[0], ts[1..]);
      if ts[0].id != id {
        FindAfterUpdate(ts[1..], id, data, now);
      }
    }
  }

  lemma FindAfterDelete(ts: seq<Ticket>, id: string)
    ensures FindTicket(TicketsWithout(ts, id), id) == None
  {
  }

  /**
   * The store. `stored` is what browser storage holds under "oshigoto-tickets":
   * `None` when the key is absent or its value does not parse.
   */
  class Tickets {
    var tickets: seq<Ticket>
    ghost var stored: Option<seq<Ticket>>

    /** The initial load: the saved list if there is one that parses, else the empty list. */
    constructor Load(saved: Option<seq<Ticket>>)
      ensures tickets == (if saved.Some? then saved.value else [])
      ensures stored == saved
    {
      tickets := saved.GetOr([]);
      stored := saved;
    }

    /** `addTicket`: the new ticket goes first and is saved and returned. */
    method AddTicket(data: TicketData, id: string, now: string) returns (t: Ticket)
      requires forall u :: u in tickets ==> u.id != id
      modifies this
      ensures DataOf(t) == data && t.id == id && t.createdAt == now && t.updatedAt == now
      ensures tickets == [t] + old(tickets)
      ensures stored == Some(tickets)
    {
      t := NewTicket(data, id, now);
      tickets := [t] + tickets;
      stored := Some(tickets);
    }

    /** `updateTicket`. */
    method UpdateTicket(id: string, data: TicketData, now: string)
      modifies this
      ensures tickets == UpdatedTickets(old(tickets), id, data, now)
      ensures stored == Some(tickets)
    {
      tickets := UpdatedTickets(tickets, id, data, now);
      stored := Some(tickets);
    }

    /** `updateTicketStatus`. */
    method UpdateTicketStatus(id: string, status: TicketStatus, now: string)
      modifies this
      ensures tickets == StatusUpdatedTickets(old(tickets), id, status, now)
      ensures stored == Some(tickets)
    {
      tickets := StatusUpdatedTickets(tickets, id, status, now);
      stored := Some(tickets);
    }

    /** `deleteTicket`. */
    method DeleteTicket(id: string)
      modifies this
      ensures tickets == TicketsWithout(old(tickets), id)
      ensures stored == Some(tickets)
    {
      tickets := TicketsWithout(tickets, id);
      stored := Some(tickets);
    }
  }
}
