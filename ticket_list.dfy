/**
 * The ticket list screen: the status filter and its counts, and the form it opens to add a
 * ticket or edit one, whose save goes to the ticket store.
 */
module TicketList {
  import opened Wrappers
  import opened TicketTypes
  import opened TicketStore
  import opened Collections

  /** The filter chips: every ticket, or one status. */
  datatype StatusFilter = All | Only(status: TicketStatus)

  /** `filteredTickets`. */
  function Filtered(ts: seq<Ticket>, filter: StatusFilter): (r: seq<Ticket>)
    ensures filter.All? ==> r == ts
    ensures filter.Only? ==> forall t :: t in r <==> t in ts && t.status == filter.status
    ensures filter.Only? ==> |r| == StatusCount(ts, filter.status)
  {
    match filter
    case All => ts
    case Only(s) => TicketsByStatus(ts, s)
  }

  /** The tickets' statuses, in list order. */
  function Statuses(ts: seq<Ticket>): (ss: seq<TicketStatus>)
    ensures |ss| == |ts| && forall i :: 0 <= i < |ts| ==> ss[i] == ts[i].status
  {
    seq(|ts|, i requires 0 <= i < |ts| => ts[i].status)
  }

  /** `getStatusCount`: how many tickets have the status, that is how often it occurs among their statuses. */
  function StatusCount(ts: seq<Ticket>, s: TicketStatus): (n: nat)
    ensures n <= |ts|
    ensures n == multiset(Statuses(ts))[s]
  {
    CountIsMultiplicity(ts, s);
    |TicketsByStatus(ts, s)|
  }

  lemma {:induction false} CountIsMultiplicity(ts: seq<Ticket>, s: TicketStatus)
    ensures |TicketsByStatus(ts, s)| == multiset(Statuses(ts))[s]
  {
    if ts != [] {
      CountIsMultiplicity(ts[1..], s);
      ByStatusCons(ts, s);
      StatusesCons(ts, s);
    }
  }

  /** The first ticket adds one to its own status's filter and nothing to the others'. */
  lemma ByStatusCons(ts: seq<Ticket>, s: TicketStatus)
    requires ts != []
    ensures |TicketsByStatus(ts, s)| == (if ts[0].status == s then 1 else 0) + |TicketsByStatus(ts[1..], s)|
  {
    assert ts == [ts[0]] + ts[1..];
    FilterCons((t: Ticket) => t.status == s, ts[0], ts[1..]);
  }

  /** The first ticket adds one occurrence of its status. */
  lemma StatusesCons(ts: seq<Ticket>, s: TicketStatus)
    requires ts != []
    ensures multiset(Statuses(ts))[s] == (if ts[0].status == s then 1 else 0) + multiset(Statuses(ts[1..]))[s]
  {
    assert Statuses(ts) == [ts[0].status] + Statuses(ts[1..]);
  }

  /** Filtering keeps the tickets' order: filtering a joined list joins the filtered parts. */
  lemma FilteredKeepsOrder(a: seq<Ticket>, b: seq<Ticket>, filter: StatusFilter)
    ensures Filtered(a + b, filter) == Filtered(a, filter) + Filtered(b, filter)
  {
    if filter.Only? {
      FilterAppend((t: Ticket) => t.status == filter.status, a, b);
    }
  }

  /** The five counts add up to the number of tickets. */
  lemma {:induction false} CountsAddUp(ts: seq<Ticket>)
    ensures StatusCount(ts, Applying) + StatusCount(ts, WonUnpaid) + StatusCount(ts, PaidUnissued)
            + StatusCount(ts, Issued) + StatusCount(ts, Watched) == |ts|
  {
    if ts != [] {
      CountsAddUp(ts[1..]);
      forall s ensures StatusCount(ts, s) == StatusCount(ts[1..], s) + (if ts[0].status == s then 1 else 0) {
        ByStatusCons(ts, s);
      }
    }
  }

  /** A status chip is shown iff some ticket has that status. */
  predicate ChipShown(ts: seq<Ticket>, s: TicketStatus)
  {
    StatusCount(ts, s) != 0
  }

  lemma ChipShownIff(ts: seq<Ticket>, s: TicketStatus)
    ensures ChipShown(ts, s) <==> exists t :: t in ts && t.status == s
  {
    var r := TicketsByStatus(ts, s);
    if |r| != 0 {
      assert r[0] in r;
    }
  }

  /** The screen's state: whether the form is open, the ticket being edited, the filter. */
  class TicketListView {
    const store: Tickets
    var isFormOpen: bool
    var editing: Option<Ticket>
    var filter: StatusFilter

    /** A ticket is only edited while the form is open. */
    predicate Valid()
      reads this
    {
      editing.Some? ==> isFormOpen
    }

    constructor (store: Tickets)
      ensures this.store == store && !isFormOpen && editing.None? && filter == All && Valid()
    {
      this.store := store;
      isFormOpen := false;
      editing := None;
      filter := All;
    }

    /** `handleEdit`: open the form on a ticket. */
    method HandleEdit(t: Ticket)
      modifies this
      ensures isFormOpen && editing == Some(t) && filter == old(filter) && Valid()
    {
      editing := Some(t);
      isFormOpen := true;
    }

    /** The "new" button: open a blank form. */
    method HandleNew()
      modifies this
      ensures isFormOpen && editing.None? && filter == old(filter) && Valid()
    {
      editing := None;
      isFormOpen := true;
    }

    /**
     * `handleSave`: update the ticket being edited (by its id), or add a new one with a fresh
     * id; then close the form and forget the edited ticket.
     */
    method HandleSave(data: TicketData, freshId: string, now: string)
      requires editing.None? ==> forall u :: u in store.tickets ==> u.id != freshId
      modifies this, store
      ensures old(editing).Some? ==> store.tickets == UpdatedTickets(old(store.tickets), old(editing).value.id, data, now)
      ensures old(editing).None? ==> store.tickets == [NewTicket(data, freshId, now)] + old(store.tickets)
      ensures store.stored == Some(store.tickets)
      ensures !isFormOpen && editing.None? && filter == old(filter) && Valid()
    {
      if editing.Some? {
        store.UpdateTicket(editing.value.id, data, now);
      } else {
        var _ := store.AddTicket(data, freshId, now);
      }
      isFormOpen := false;
      editing := None;
    }

    /** `handleCancel`: close the form and forget the edited ticket; the store is untouched. */
    method HandleCancel()
      modifies this
      ensures !isFormOpen && editing.None? && filter == old(filter) && Valid()
    {
      isFormOpen := false;
      editing := None;
    }

    method SetFilter(f: StatusFilter)
      modifies this
      ensures filter == f && isFormOpen == old(isFormOpen) && editing == old(editing)
      ensures Valid() <==> old(Valid())
    {
      filter := f;
    }

    /** The tickets the list shows. */
    function Shown(): seq<Ticket>
      reads this, store
    {
      Filtered(store.tickets, filter)
    }
  }

  /** After saving an edit, looking the edited ticket up finds it rewritten with the saved data. */
  lemma SavedEditIsFound(before: seq<Ticket>, edited: Ticket, data: TicketData, now: string)
    requires FindTicket(before, edited.id) == Some(edited)
    ensures FindTicket(UpdatedTickets(before, edited.id, data, now), edited.id) == Some(Rewritten(edited, data, now))
    ensures DataOf(Rewritten(edited, data, now)) == data
  {
    FindAfterUpdate(before, edited.id, data, now);
  }
}
