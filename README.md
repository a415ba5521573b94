# theater-log — a verified model of its data and derivation layer

theater-log is a single-user theatre diary. Tickets move through five statuses:
applying, won but unpaid, paid but not issued, issued, watched. Each ticket carries up to six
dates. Seat logs record which seat was taken at which performance. Seat maps cover the three
floors of one hall.

This project models, in Dafny, the layer under the React screens:

- the ticket store (`useTickets`) and the log store (`useLogs`). Each is a class holding a
  `seq` and a ghost snapshot of what was last written to storage.
- the ticket status table (`types/ticket`).
- the calendar's month grid, its month navigation and its per-day event classification.
- the home page's "next upcoming event" pick and its days-left label.
- the ticket card's priority date.
- the ticket list's status filter, its counts and its form state.
- the ticket form and the log form: how they read a record back into fields, and how they
  serialise a submission.
- the 1F row builders. These fill a 62-slot array with label injection, centring padding and
  seat-number-to-column maps.
- the 2F and 3F block tables.
- the 2F and 3F grid-column functions and seat cells.
- the log-presence merge, the row radius and the door boxes of the 1F seat map.
- the floor-navigation state of the seat-map selector.

## Modules

| module | file | models |
|---|---|---|
| `Wrappers` | wrappers.dfy | `Option` |
| `Text` | text.dfy | `indexOf`, `split` at a character, `substring`, the JavaScript string order (`LexLe`), decimal digits |
| `CivilDate` | civil_date.dfy | proleptic Gregorian day numbers; a `YYYY-MM-DD` key formatted and parsed |
| `Collections` | collections.dfy | `filter`, `find`, flat-map, and order facts about them |
| `TicketTypes` | ticket_types.dfy | `TicketStatus`, `Ticket`, `STATUS_CONFIG` and its getters |
| `TicketStore` | ticket_store.dfy | `useTickets` |
| `LogStore` | log_store.dfy | `useLogs` and `LogData` |
| `TheaterTypes` | theater_types.dfy | seats, doors, row labels, blocks and floors |
| `SeatIds` | seat_ids.dfy | seat ids `"<floor>F-<row>-<area><number>"` and their injectivity |
| `SeatBlocks` | seat_blocks.dfy | block tables: expansion, aisles, numbers, counts |
| `SeatCells` | seat_cells.dfy | the seat record and the cell a 2F or 3F map draws |
| `SeatData`, `FirstFloor` | seat_data.dfy | `seat-data.ts` |
| `SecondFloorData` | seat_data_2f.dfy | `seat-data-2f.ts` |
| `ThirdFloorData` | seat_data_3f.dfy | `seat-data-3f.ts` |
| `SeatMap` | seat_map.dfy | `SeatMap.tsx` |
| `SeatMap2F`, `SeatMap3F` | seat_map_2f.dfy, seat_map_3f.dfy | `SeatMap2F.tsx`, `SeatMap3F.tsx` |
| `SeatMapSelector` | seat_map_selector.dfy | `SeatMapSelector.tsx` |
| `Calendar` | calendar.dfy | `Calendar.tsx` |
| `Home` | home.dfy | `app/page.tsx` |
| `TicketCard`, `TicketList`, `TicketForm` | ticket_card.dfy, ticket_list.dfy, ticket_form.dfy | the three ticket components |
| `LogForm` | log_form.dfy | `forms/LogForm.tsx` |

### How the model represents the source

- **Identifiers and clock readings are parameters.** An added ticket or log takes its id as a
  parameter, and that id must be fresh among the current records; this stands in for
  `crypto.randomUUID`. "Now" is a parameter too.
- **Storage is a ghost field.** `stored` is `None` until something is written. Every mutation
  sets it to the new contents.
- **Absent and blank are different.** A date field is `Option<string>`. The source's truthiness
  test ("present and non-empty") is `TicketTypes.Present`, so `Some("")` is a possible stored
  value that the source treats like an absent one.
- **Strings are compared the JavaScript way.** The source's string comparisons (`>=`, `<=` on
  `YYYY-MM-DD`) use `Text.LexLe`, lexicographic order on characters, which agrees with JavaScript's
  UTF-16 code-unit order for text inside the Basic Multilingual Plane. Dafny's `<=` on
  sequences means prefix, so it is not used for this.
- **Dates are integer day numbers.** `new Date(y, m, d)` at local midnight becomes
  `CivilDate.MakeDay(y, m, d)`, a day number that overflows the month and year the way the
  `Date` constructor does. `new Date("YYYY-MM-DD")` becomes `ParseDateKey`. `TicketCard` compares
  whole instants, which are seconds, through `ParseInstant`.
- **Each 1F builder is a method over a local array.** It is proved equal to a specification
  function on sequences, and the layout facts are lemmas about that function.
- **The 2F and 3F tables are constant sequences.** They are written as block specifications
  (`Numbered(first, last)` or `Spacers(n)`) that expand to the literal seat arrays of the source.

### Layout comments that disagree with the code

The model follows the literals, never these comments:

- `src/lib/seat-data-3f.ts:92-93` gives row 4 forty-seven seats. The literal table holds 51
  (`ThirdFloorData.SeatCounts`).
- `src/lib/seat-data-2f.ts:33` gives the seventh block of row 2 ten seats. The literal has nine:
  46-54.
- `src/components/theater/SeatMap3F.tsx:15` puts the centre block at columns 49-60. The code
  starts it at column 44 (`SeatMap3F.CentreAnchor`).
- `src/components/theater/SeatMap2F.tsx:96-97` puts row 2 seat 10 at column 20. The code yields
  21, the column of row 1 seat 11, and that alignment is what the comment at line 25 asks for
  (`SeatMap2F.BlockTwoAlignment`).

## Model

| member | source | states |
|---|---|---|
| TicketTypes.AllStatusesExactlyFive | src/types/ticket.ts:2-7 | the status type has exactly five distinct values |
| TicketTypes.GetStatusLabel | src/types/ticket.ts:36-87 | every status has a non-empty label, and no other status shares it |
| TicketTypes.GetStatusColor | src/types/ticket.ts:36-92 | every status has a `#rrggbb` colour, and no other status shares it |
| TicketTypes.IsImportantStatus | src/types/ticket.ts:52-97 | a status is important iff it is won-but-unpaid |
| TicketTypes.DateFields | src/types/ticket.ts:16-23 | the six optional date fields, in declaration order from applicationStart to showDate |
| TicketStore.NewTicket | src/hooks/useTickets.ts:24-30 | the new ticket carries exactly the submitted data, the given id, and createdAt = updatedAt = now |
| TicketStore.Rewritten | src/hooks/useTickets.ts:44-53 | an updated ticket keeps its id and createdAt, takes every other field from the argument, and refreshes updatedAt |
| TicketStore.WithStatus | src/hooks/useTickets.ts:61-66 | a status update changes only status and updatedAt |
| TicketStore.UpdatedTickets | src/hooks/useTickets.ts:42-57 | same length; every ticket with the id is rewritten, and every other ticket stays in its place unchanged |
| TicketStore.StatusUpdatedTickets | src/hooks/useTickets.ts:60-70 | same length; every ticket with the id gets the new status, and every other ticket stays in its place unchanged |
| TicketStore.TicketsWithout | src/hooks/useTickets.ts:73-79 | a ticket survives deletion iff it was there and has a different id; the survivors keep their order (`Collections.FilterCons`, `Collections.FilterAppend`) |
| TicketStore.FindTicket | src/hooks/useTickets.ts:82-84 | None iff no ticket has the id; otherwise the first ticket in list order with that id |
| TicketStore.TicketsByStatus | src/hooks/useTickets.ts:87-89 | a ticket is returned iff it is stored and has that status |
| TicketStore.TicketsInDateRange | src/hooks/useTickets.ts:92-101 | a ticket is returned iff some present date, cut before 'T', lies in [start, end] by string order |
| TicketStore.TicketsForDate | src/hooks/useTickets.ts:104-125 | a ticket is returned iff the date is inside a fully given application period, or equals the date part of the result, payment, issue or show date |
| TicketStore.DayEventIsInOneDayRange | src/hooks/useTickets.ts:92-125 | a ticket found for a day by a single-date match is also found by the range query over [day, day] |
| TicketStore.UnknownIdChangesNothing | src/hooks/useTickets.ts:44-77 | update, status update and delete with an unknown id leave the tickets unchanged |
| TicketStore.MutationsKeepUniqueIds | src/hooks/useTickets.ts:24-77 | adding a ticket with a fresh id, updating, status updating and deleting all keep ids unique |
| TicketStore.FindAfterAdd | src/hooks/useTickets.ts:24-84 | right after an add, looking up the new id finds the new ticket |
| TicketStore.FindAfterUpdate | src/hooks/useTickets.ts:42-84 | after an update, the lookup finds the rewritten ticket if one was there before, and nothing otherwise |
| TicketStore.FindAfterDelete | src/hooks/useTickets.ts:73-84 | after a delete, the deleted id is not found |
| TicketStore.Tickets.Load | src/hooks/useTickets.ts:12-21 | the tickets are the saved list when there is one, else empty |
| TicketStore.Tickets.AddTicket | src/hooks/useTickets.ts:24-39 | the returned ticket is put first, the earlier tickets follow in order, and the snapshot equals the new list |
| TicketStore.Tickets.UpdateTicket | src/hooks/useTickets.ts:42-57 | the new list is the old one with the matching ticket rewritten, and the snapshot equals it |
| TicketStore.Tickets.UpdateTicketStatus | src/hooks/useTickets.ts:60-70 | the new list is the old one with the matching ticket's status changed, and the snapshot equals it |
| TicketStore.Tickets.DeleteTicket | src/hooks/useTickets.ts:73-79 | the new list is the old one without that id, and the snapshot equals it |
| LogStore.WithId | src/hooks/useLogs.ts:25-29 | the new log is the submitted data plus the given id |
| LogStore.UpdatedLogs | src/hooks/useLogs.ts:36-44 | same length; a matching log keeps its id and takes every other field from the argument, and every other log is unchanged |
| LogStore.LogsWithout | src/hooks/useLogs.ts:46-52 | a log survives iff it was there and has a different id; the survivors keep their order (`Collections.FilterCons`, `Collections.FilterAppend`) |
| LogStore.FindBySeat | src/hooks/useLogs.ts:54-56 | None iff no log has the seat id; otherwise the first log in list order with it |
| LogStore.FindBySeatAfterAdd | src/hooks/useLogs.ts:23-56 | right after adding a log, the lookup by its seat id returns that log |
| LogStore.UnknownLogIdChangesNothing | src/hooks/useLogs.ts:36-52 | update and delete with an unknown id leave the logs unchanged |
| LogStore.FindBySeatAfterDelete | src/hooks/useLogs.ts:46-56 | deleting some other log does not change what the lookup by seat finds |
| LogStore.Logs.Load | src/hooks/useLogs.ts:12-21 | the logs are the saved list when there is one, else empty |
| LogStore.Logs.AddLog | src/hooks/useLogs.ts:23-34 | the new log with its fresh id is put first, and the snapshot equals the new list |
| LogStore.Logs.UpdateLog | src/hooks/useLogs.ts:36-44 | the new list is the old one with the matching log rewritten, and the snapshot equals it |
| LogStore.Logs.DeleteLog | src/hooks/useLogs.ts:46-52 | the new list is the old one without that id, and the snapshot equals it |
| LogStore.Logs.GetLogBySeatId | src/hooks/useLogs.ts:54-56 | None iff no log has the seat id; otherwise the first log in list order for that seat |
| Text.LexLeTotal | src/hooks/useTickets.ts:97-98 | the string order the date queries use is total (it is also reflexive, antisymmetric and transitive) |
| Text.SplitJoin | src/components/ticket/TicketForm.tsx:26-29 | splitting `a + c + b` at c gives back a and b when neither contains c |
| CivilDate.DaysInMonth | src/components/calendar/Calendar.tsx:17-20 | 28 to 31 days; 29 iff February of a leap year; 30 iff April, June, September or November |
| CivilDate.DayZeroOfNextMonth | src/components/calendar/Calendar.tsx:17 | day 0 of the next month is the last day of this one |
| CivilDate.DateKeyRoundTrip | src/components/calendar/Calendar.tsx:28 | parsing a formatted `YYYY-MM-DD` key gives back its day number |
| CivilDate.ParseInstant | src/components/ticket/TicketCard.tsx:23-29 | a parsed instant lies within the day its first ten characters name |
| Calendar.FirstDayOfWeek | src/components/calendar/Calendar.tsx:16-19 | the weekday of the first of the month, in 0..6 |
| Calendar.MonthGrid | src/components/calendar/Calendar.tsx:60-65 | firstDayOfWeek blanks, then the days 1..daysInMonth, and nothing after them |
| Calendar.DayCellUnique | src/components/calendar/Calendar.tsx:60-65 | each day of the month is in exactly one cell, and the last cell is the last day |
| Calendar.DayInWeekdayColumn | src/components/calendar/Calendar.tsx:16-65 | every day's cell, taken modulo 7, is that date's weekday column |
| Calendar.GridLengthFromNextMonth | src/components/calendar/Calendar.tsx:17-65 | the grid holds exactly as many days as day 0 of the next month says |
| Calendar.ShiftMonth | src/components/calendar/Calendar.tsx:56-57 | a month index is always in 0..11 |
| Calendar.ShiftMonthIsDateOverflow | src/components/calendar/Calendar.tsx:56-57 | a shifted month is the one the Date constructor's month overflow reaches |
| Calendar.NavigationRoundTrip | src/components/calendar/Calendar.tsx:56-57 | next then previous, and previous then next, return to the same month; each rolls the year over at the ends |
| Calendar.CalendarView.constructor | src/components/calendar/Calendar.tsx:11-14 | the view opens on the current month |
| Calendar.CalendarView.GoToPreviousMonth | src/components/calendar/Calendar.tsx:56 | the view moves to the previous month |
| Calendar.CalendarView.GoToNextMonth | src/components/calendar/Calendar.tsx:57 | the view moves to the next month |
| Calendar.CalendarView.GoToToday | src/components/calendar/Calendar.tsx:58 | the view moves to today's month |
| Calendar.CalendarView.CalendarDays | src/components/calendar/Calendar.tsx:60-65 | the two push loops produce the month grid |
| Calendar.CalendarView.GetDateEvents | src/components/calendar/Calendar.tsx:27-54 | the events of a day are those for its zero-padded `YYYY-MM-DD` key |
| Calendar.EventsOn | src/components/calendar/Calendar.tsx:31-51 | the forEach accumulation equals the specification `DayEvents` |
| Calendar.TodayHighlightedOnce | src/components/calendar/Calendar.tsx:23-65 | in today's month, exactly today's cell is highlighted |
| Calendar.AllKindsRanked | src/components/calendar/Calendar.tsx:36-50 | the event kinds are checked in the order applying, result, payment, issue, show |
| Calendar.TicketEventKinds | src/components/calendar/Calendar.tsx:36-50 | a kind is listed iff it fires for the key, and kinds appear in check order |
| Calendar.DayEventsAppend | src/components/calendar/Calendar.tsx:31-51 | the events of two ticket lists are the first list's events followed by the second's |
| Calendar.DayEventsMember | src/components/calendar/Calendar.tsx:31-51 | an event is listed iff its ticket is stored and its kind fires for the key |
| Calendar.NoDatesNoEvents | src/components/calendar/Calendar.tsx:32-50 | a ticket with no dates contributes no events |
| Calendar.DateAndTimeShownOnItsDay | src/components/calendar/Calendar.tsx:42-49 | a stored date-and-time fires on its date and on no other key |
| Home.Candidate | src/app/page.tsx:25-47 | a candidate exists iff the date part is on or after today; it carries that day and the date part; its time is the first five characters of the text between the first and second 'T', or "" when there is no 'T' |
| Home.StoredDateTimeShown | src/app/page.tsx:29-35 | for a value the ticket form stored with `TicketForm.JoinDateTime`, the candidate shows back the date and the `HH:MM` |
| Home.TicketCandidateMember | src/app/page.tsx:21-56 | a ticket's candidates are exactly its qualifying fields |
| Home.AllCandidatesMember | src/app/page.tsx:21-56 | a candidate is listed iff its ticket is stored and its field qualifies |
| Home.NoCandidates | src/app/page.tsx:21-60 | there are no candidates iff no field of any ticket qualifies |
| Home.IgnoresApplicationStart | src/app/page.tsx:23-55 | changing applicationStart never changes the candidates |
| Home.CollectCandidates | src/app/page.tsx:19-56 | the forEach and push loop produces the specification candidate list |
| Home.EarliestIndex | src/app/page.tsx:59-60 | the chosen index has the smallest day, and every earlier index has a strictly later day (the stable sort's first element) |
| Home.NextEvent | src/app/page.tsx:15-61 | null iff there are no candidates; otherwise the first earliest candidate |
| Home.NextEventIsEarliest | src/app/page.tsx:15-61 | the next event is not in the past, belongs to a stored ticket, and no candidate is earlier |
| Home.DaysLeft | src/app/page.tsx:71-83 | "今日!!" iff 0 days apart, "明日!" iff 1 day apart in either direction, else "あと N 日" with N the absolute difference |
| Home.DaysLeftSymmetric | src/app/page.tsx:77 | N days ahead and N days back give the same label |
| Home.DaysLeftReadsBack | src/app/page.tsx:82 | the number inside "あと N 日" reads back as the day difference |
| TicketCard.NextImportantDate | src/components/ticket/TicketCard.tsx:19-33 | a future payment deadline wins; then the issue date, then the show date, each only if after now; None iff none is after now |
| TicketCard.HighlightIsAhead | src/components/ticket/TicketCard.tsx:19-33 | the highlighted date is one of the three fields and lies after now |
| TicketCard.PaymentDeadlineWins | src/components/ticket/TicketCard.tsx:23-25 | with a future payment deadline, the issue and show dates do not matter |
| TicketCard.NothingAheadStays | src/components/ticket/TicketCard.tsx:19-33 | once nothing is ahead, nothing is ahead later either |
| TicketCard.HighlightKeptUntilPassed | src/components/ticket/TicketCard.tsx:19-33 | the highlight stays the same until its instant is reached |
| TicketCard.FormValuesShowTime | src/components/ticket/TicketCard.tsx:39-41 | a joined date-and-time from the form is shown with its time, and a bare date without one |
| TicketList.Filtered | src/components/ticket/TicketList.tsx:39-41 | 'all' gives the list unchanged; a status gives exactly the tickets with it, as many as its count |
| TicketList.FilteredKeepsOrder | src/components/ticket/TicketList.tsx:39-41 | filtering commutes with concatenation, so the original order is kept |
| TicketList.StatusCount | src/components/ticket/TicketList.tsx:44-46 | the count is how often the status occurs among the tickets' statuses, so never more than the number of tickets |
| TicketList.CountsAddUp | src/components/ticket/TicketList.tsx:44-80 | the five status counts sum to the number of tickets |
| TicketList.ChipShownIff | src/components/ticket/TicketList.tsx:79-81 | a status chip is shown iff some ticket has that status |
| TicketList.TicketListView.constructor | src/components/ticket/TicketList.tsx:13-16 | the form is closed, nothing is edited, and the filter is 'all' |
| TicketList.TicketListView.HandleEdit | src/components/ticket/TicketList.tsx:18-21 | the form opens on that ticket |
| TicketList.TicketListView.HandleNew | src/components/ticket/TicketList.tsx:54-57 | the form opens with nothing edited |
| TicketList.TicketListView.HandleSave | src/components/ticket/TicketList.tsx:23-31 | the edited ticket is updated by id, or else a new one is added; then the form closes and nothing is edited |
| TicketList.TicketListView.HandleCancel | src/components/ticket/TicketList.tsx:33-36 | the form closes, nothing is edited, and the store is untouched |
| TicketList.TicketListView.SetFilter | src/components/ticket/TicketList.tsx:69-87 | only the filter changes |
| TicketList.SavedEditIsFound | src/components/ticket/TicketList.tsx:23-25 | after saving an edit, looking up its id finds the ticket rewritten with the saved data |
| TicketForm.TextOf | src/components/ticket/TicketForm.tsx:15-24 | an absent field opens as "" and a present one as its text |
| TicketForm.OrAbsent | src/components/ticket/TicketForm.tsx:56-65 | a blank input is stored as absent, and any other input is stored as itself |
| TicketForm.DatePartOf | src/components/ticket/TicketForm.tsx:25-34 | an unset value opens as ""; a set one as its longest prefix without 'T', which ends where the first 'T' stands |
| TicketForm.TimePartOf | src/components/ticket/TicketForm.tsx:28-37 | an unset value, one without 'T', or one with nothing between its first and second 'T' opens with the default time; otherwise the first five characters of that text |
| TicketForm.InitialFields | src/components/ticket/TicketForm.tsx:14-37 | a new form is blank with status 'applying' and default times 23:59 and 13:00; an edit shows title and status, each text and plain date or "" when unset, and the date and time parts of the payment deadline and the show date |
| TicketForm.JoinDateTime | src/components/ticket/TicketForm.tsx:43-50 | a date-and-time is stored iff both inputs are non-empty, and then it is `date + "T" + time + ":00"` |
| TicketForm.Submission | src/components/ticket/TicketForm.tsx:39-66 | title and status pass through; the payment deadline and show date are the joined date and time (`TicketForm.JoinDateTime`); every other input is stored as typed when non-empty and absent when blank; nothing is stored as "" |
| TicketForm.SplitJoined | src/components/ticket/TicketForm.tsx:26-44 | reopening a stored `date T HH:MM :00` gives back the date and the `HH:MM` |
| TicketForm.JoinedReopens | src/components/ticket/TicketForm.tsx:25-50 | a joined value reopened and joined again is unchanged |
| TicketForm.ReopenSubmitsSame | src/components/ticket/TicketForm.tsx:14-66 | opening a ticket the form saved and submitting without edits saves the same data |
| TicketForm.TicketFormView.constructor | src/components/ticket/TicketForm.tsx:14-37 | the fields start as the initial values |
| TicketForm.TicketFormView.SetPaymentDeadline | src/components/ticket/TicketForm.tsx:193 | only the payment date changes |
| TicketForm.TicketFormView.SetPaymentDeadlineTime | src/components/ticket/TicketForm.tsx:199 | only the payment time changes |
| TicketForm.TicketFormView.SetShowDate | src/components/ticket/TicketForm.tsx:227 | only the show date changes |
| TicketForm.TicketFormView.SetShowTime | src/components/ticket/TicketForm.tsx:233 | only the show time changes |
| TicketForm.TicketFormView.Submit | src/components/ticket/TicketForm.tsx:39-66 | the submitted data is the form's submission |
| LogForm.OrDefault | src/forms/LogForm.tsx:24-29 | an absent or empty initial value falls back to the default |
| LogForm.InitialFields | src/forms/LogForm.tsx:23-29 | a new form starts on today, matinee and the fixed hall; an edit keeps title, memo and timeType, its showTime becomes the custom time, and an empty date or hall falls back to today or the fixed hall |
| LogForm.ShowTimeFor | src/forms/LogForm.tsx:34-41 | matinee gives "マチネ", soirée gives "ソワレ", custom gives the custom time |
| LogForm.Submission | src/forms/LogForm.tsx:43-51 | the record carries the seat id plus title, date, timeType, theater and memo unchanged, and the derived showTime |
| LogForm.ReopenSubmitsSame | src/forms/LogForm.tsx:23-51 | reopening a log the form saved and submitting without edits saves the same data |
| LogForm.SubmittedShowTimeStable | src/forms/LogForm.tsx:34-41 | a submitted showTime already agrees with its own timeType |
| LogForm.HourOf | src/forms/LogForm.tsx:144-164 | the shown hour is the text before the first ':', or "13" when that is empty; never empty and without ':' |
| LogForm.MinuteOf | src/forms/LogForm.tsx:146-162 | the shown minute is the text between the first and second ':', or "00" when there is no ':' or that text is empty; never empty and without ':' |
| LogForm.HourPickKeepsMinute | src/forms/LogForm.tsx:145-148 | picking an hour shows that hour and keeps the minute |
| LogForm.MinutePickKeepsHour | src/forms/LogForm.tsx:163-166 | picking a minute shows that minute and keeps the hour |
| LogForm.Hours | src/forms/LogForm.tsx:152-154 | the 24 offered hours are two digits with values 0..23 |
| LogForm.MinutesAreFiveSteps | src/forms/LogForm.tsx:170 | the 12 offered minutes are two digits with values 0, 5, …, 55 |
| LogForm.PickedTimeIsHHMM | src/forms/LogForm.tsx:144-170 | picking an offered hour and then an offered minute gives an `HH:MM` made of them |
| LogForm.LogFormView.constructor | src/forms/LogForm.tsx:23-29 | the fields start as the initial values |
| LogForm.LogFormView.SetTimeType | src/forms/LogForm.tsx:108-128 | only the time type changes |
| LogForm.LogFormView.PickHour | src/forms/LogForm.tsx:145-148 | only the hour half of the custom time changes |
| LogForm.LogFormView.PickMinute | src/forms/LogForm.tsx:163-166 | only the minute half of the custom time changes |
| LogForm.LogFormView.Submit | src/forms/LogForm.tsx:31-52 | the submitted record is the form's submission |
| SeatIds.SeatIdParts | src/components/theater/SeatMap3F.tsx:285 | an id starts with the floor digit, and after "NF-" comes the row, a dash, the area and the number |
| SeatIds.SeatIdInjective | src/components/theater/SeatMap2F.tsx:294 | two seats with the same id have the same floor, row, area and number |
| SeatBlocks.Blocks | src/types/theater.ts:25-29 | a table of block specifications expands entry by entry |
| SeatBlocks.Aisled | src/lib/seat-data-2f.ts:12-30 | blocks alternate with null aisles, blocks at the even positions |
| SeatBlocks.ExpandNumbers | src/lib/seat-data-3f.ts:20-38 | a numbered block holds its consecutive range, and a spacer block holds no numbers |
| SeatBlocks.RunsOnNumbers | src/lib/seat-data-3f.ts:18-172 | when the table check succeeds, an area's numbers form one consecutive range |
| SeatBlocks.SeatCountOfSpecs | src/lib/seat-data-3f.ts:14-17 | the seat count of the expanded blocks is the one computed from the specifications |
| SeatBlocks.LocateFinds | src/components/theater/SeatMap2F.tsx:266-278 | a located seat is at that block and seat index, in that area |
| SeatCells.SeatRecord | src/components/theater/SeatMap3F.tsx:285-296 | the seat gets its id, floor, row and number; it is logged iff some log has that id, else vacant |
| SeatCells.RenderCell | src/components/theater/SeatMap2F.tsx:271-296 | a null seat draws a spacer; a number draws a button whose id is built from row, area and number, logged iff the lookup finds a log |
| SeatCells.LoggedOnceAdded | src/components/theater/SeatMap2F.tsx:294-296 | after a log for a seat is added, that seat is drawn as logged |
| SeatCells.BalconySeatOwnId | src/components/theater/SeatMap2F.tsx:294-296 | a log for a balcony seat does not mark the plain seat with the same number |
| SeatData.Blank | src/lib/seat-data.ts:32 | a row starts as 62 empty slots |
| SeatData.ExplicitSeat | src/lib/seat-data.ts:53-65 | seat n gets id "1F-row-n", floor 1 and vacant status; left iff n ≤ 25, right iff n ≥ 38 |
| SeatData.InjectLabels | src/lib/seat-data.ts:21-30 | a null becomes a row label iff it follows seat 25 or 37; everything else is kept |
| SeatData.VisualLengthAtLeastLength | src/lib/seat-data.ts:35-42 | the visual length is at least the entry count, and equal to it in a row without doors |
| SeatData.Put | src/lib/seat-data.ts:54-73 | a write changes exactly the slot written |
| SeatData.PlaceSlots | src/lib/seat-data.ts:47-76 | entry j lands at the start column plus the widths of the entries before it |
| SeatData.PlaceBefore | src/lib/seat-data.ts:47-76 | placement never writes left of its start column |
| SeatData.MeasureVisualLength | src/lib/seat-data.ts:35-42 | the loop computes the visual length: a door counts its span, anything else counts 1 |
| SeatData.PlaceItems | src/lib/seat-data.ts:47-76 | the placing loop writes exactly what the specification `Place` describes |
| SeatData.BuildExplicitRow | src/lib/seat-data.ts:18-79 | the result has 62 slots and equals the specification row |
| SeatData.DoorFreeRowSlot | src/lib/seat-data.ts:35-76 | in a row without doors, entry j is at column floor((62 − n)/2) + j |
| SeatData.CustomSeatAt | src/lib/seat-data.ts:146-152 | the inverse of the custom column map: a column holds at most one seat number |
| SeatData.CustomRowPlacesBlocks | src/lib/seat-data.ts:140-165 | every seat in a block is at its mapped column |
| SeatData.CustomRowAisles | src/lib/seat-data.ts:146-152 | columns 25, 26, 39 and 40 of a custom row stay empty |
| SeatData.BuildCustomRow | src/lib/seat-data.ts:83-167 | the nested loops produce the specification custom row |
| SeatData.StandardSeatAt | src/lib/seat-data.ts:184-190 | the inverse of the standard column map: a column holds at most one seat number |
| SeatData.StandardSeat | src/lib/seat-data.ts:192-204 | seat n is left iff n ≤ 13, right iff n ≥ 46, and vacant |
| SeatData.StandardRow | src/lib/seat-data.ts:171-223 | a standard row has 62 slots |
| SeatData.StandardRowPlacesSeats | src/lib/seat-data.ts:180-206 | every seat in range with a column is at it, unless a door overwrote it |
| SeatData.StandardRowAisles | src/lib/seat-data.ts:184-190 | columns 13, 14, 47 and 48 stay empty |
| SeatData.BuildRow | src/lib/seat-data.ts:171-223 | the seat loop and the door writes produce the specification standard row |
| SeatData.TableItems | src/lib/seat-data.ts:229-440 | a row table holds numbers and nulls only, no doors |
| SeatData.FirstFloorRow | src/lib/seat-data.ts:229-440 | row r has number r and 62 slots |
| FirstFloor.GenerateFirstFloor | src/lib/seat-data.ts:11-443 | floor 1 with its 26 rows in order |
| FirstFloor.GenerateSeatData | src/lib/seat-data.ts:3-8 | exactly one floor, the first |
| FirstFloor.Seat14Column | src/lib/seat-data.ts:406-440 | seat 14 is at column 12 in rows 23, 24 and 26, and that column is empty in row 25 |
| SecondFloorData.GenerateSecondFloor | src/lib/seat-data-2f.ts:3-176 | floor 2, rows numbered 1..7 in order, each alternating block and null aisle |
| SecondFloorData.RowOneBlockSizes | src/lib/seat-data-2f.ts:9-31 | row 1 has blocks of 6 (LB), 9, 8, 7, 12, 7, 8, 9 and 6 (RB) seats |
| SecondFloorData.BackRowSeatCounts | src/lib/seat-data-2f.ts:111-163 | rows 5, 6 and 7 hold 56, 58 and 48 seats |
| SecondFloorData.BalconyAreas | src/lib/seat-data-2f.ts:60-163 | rows 3-4 keep LB and RB areas made only of spacers; rows 5-7 have none |
| SecondFloorData.SecondFloorNumbers | src/lib/seat-data-2f.ts:10-163 | in each row, each area's numbers are one consecutive ascending range |
| SecondFloorData.SecondFloorIdsUnique | src/components/theater/SeatMap2F.tsx:294 | no two seats on the floor share an id |
| ThirdFloorData.GenerateThirdFloor | src/lib/seat-data-3f.ts:11-182 | floor 3, rows numbered 1..7 in order, each alternating block and null aisle |
| ThirdFloorData.BalconyAreas | src/lib/seat-data-3f.ts:14-70 | rows 1-2 have nine blocks with LB first and RB last; rows 3-7 have none |
| ThirdFloorData.SeatCounts | src/lib/seat-data-3f.ts:14-172 | rows 1-7 hold 66, 68, 58, 51, 52, 53 and 60 seats |
| ThirdFloorData.CentreBlock | src/lib/seat-data-3f.ts:18-172 | every row has the centre block 26-37 |
| ThirdFloorData.GapNumbers | src/lib/seat-data-3f.ts:96-151 | rows 4-6 run in two stretches around their omitted numbers |
| ThirdFloorData.ThirdFloorNumbers | src/lib/seat-data-3f.ts:18-172 | a number is in a row's area iff it is within the area's run and not omitted |
| ThirdFloorData.OmittedNumbers | src/lib/seat-data-3f.ts:94-168 | row 4 skips 43-49, rows 5-6 skip 44-49, and row 7 runs 38-49 without a break |
| ThirdFloorData.NumbersAscend | src/lib/seat-data-3f.ts:18-172 | within a row's area the numbers strictly ascend |
| ThirdFloorData.ThirdFloorIdsUnique | src/components/theater/SeatMap3F.tsx:285 | no two seats on the floor share an id |
| SeatMap.MergeSlot | src/components/theater/SeatMap.tsx:28-40 | empty slots, doors and labels pass through; a seat keeps every field but status, which becomes logged iff a log has its id |
| SeatMap.MergeRow | src/components/theater/SeatMap.tsx:26-41 | the row keeps its number and slot count, and each slot is merged |
| SeatMap.MergeFloors | src/components/theater/SeatMap.tsx:23-43 | the same floors and rows, each row merged |
| SeatMap.MergeIdempotent | src/components/theater/SeatMap.tsx:23-43 | merging twice with the same logs is merging once |
| SeatMap.MergeWithoutLogs | src/components/theater/SeatMap.tsx:23-43 | with no logs, the merge changes nothing |
| SeatMap.LoggedAfterAdd | src/components/theater/SeatMap.tsx:31-36 | after a log for a seat is added, the merged seat is logged |
| SeatMap.RowRadiusSteps | src/components/theater/SeatMap.tsx:105-115 | the radius grows by 30 per row, by 60 into row 14 and by 90 into row 20, so later rows are always farther out |
| SeatMap.DoorRows | src/components/theater/SeatMap.tsx:157 | a door spans its given rows, or 1 when none is given |
| SeatMap.DoorBox | src/components/theater/SeatMap.tsx:149-158 | a door with an empty label draws nothing; otherwise it is span·14 wide and rows·30 high |
| SeatMap.TableDoorBoxes | src/lib/seat-data.ts:214-219 | the two 1F doors are 182 × 30 |
| SeatMap.FirstFloorSelection | src/components/theater/SeatMap.tsx:212 | a 1F seat is shown selected iff it has the selected seat's row and number |
| SeatMap2F.GridColumn | src/components/theater/SeatMap2F.tsx:27-189 | every column is a block's start column plus the seat index |
| SeatMap2F.DrawnCell | src/components/theater/SeatMap2F.tsx:266-296 | each entry is drawn at its grid column; it is a spacer iff the entry is null |
| SeatMap2F.ColumnOfIsDrawn | src/components/theater/SeatMap2F.tsx:266-296 | the column a seat number is looked up at is where the map draws its button |
| SeatMap2F.BlockTwoAlignment | src/components/theater/SeatMap2F.tsx:25-103 | row 1 seat 11 and row 2 seat 10 are both at column 21; row 2 seat 9 and row 3 seat 9 share a column |
| SeatMap2F.BlockOneAlignment | src/components/theater/SeatMap2F.tsx:61-68 | row 3 seat 3 sits under row 2 seat 3, and row 4 seat 3 under row 3 seat 4 |
| SeatMap2F.BackRowsLeftAnchor | src/components/theater/SeatMap2F.tsx:74-79 | seats R5-4, R6-3 and R7-2 are all at column 17 |
| SeatMap2F.CentreAnchor | src/components/theater/SeatMap2F.tsx:127-139 | the centre anchor is column 45: seat 26 in rows 1-6 and seat 25 in row 7 |
| SeatMap2F.BalconyAlignment | src/components/theater/SeatMap2F.tsx:40-42 | row 2 LB7-LB10 sit under row 1 LB3-LB6 |
| SeatMap2F.AllBlocksInOrder | src/components/theater/SeatMap2F.tsx:27-189 | in every row, each block ends before the next one starts |
| SeatMap2F.EntriesLeftToRight | src/components/theater/SeatMap2F.tsx:266-278 | within a row, an entry further along is always drawn further right, so no two entries share a column |
| SeatMap3F.GridColumn | src/components/theater/SeatMap3F.tsx:17-206 | every column is 1 or a block's start column plus the seat index |
| SeatMap3F.UnmatchedColumn | src/components/theater/SeatMap3F.tsx:115-205 | every block and row combination outside the tables (`SeatMap3F.Matched`) falls back to column 1; every matched one lands at a block start plus the seat index |
| SeatMap3F.DrawnCell | src/components/theater/SeatMap3F.tsx:258-296 | each entry is drawn at its grid column; it is a spacer iff the entry is null |
| SeatMap3F.ColumnOfIsDrawn | src/components/theater/SeatMap3F.tsx:258-296 | the column a seat number is looked up at is where the map draws its button |
| SeatMap3F.FrontRowsAlignment | src/components/theater/SeatMap3F.tsx:124-149 | row 2 LB7 is at column 2 like row 1 LB4; row 2 seat 10 is at column 19 like row 1 seat 11 |
| SeatMap3F.BackRowsAlignment | src/components/theater/SeatMap3F.tsx:33-58 | seat 16 is at column 30 in rows 4-6; seat 15 of rows 6-7 is at 29; R6-3 and R7-2 are at 15 |
| SeatMap3F.CentreAnchor | src/components/theater/SeatMap3F.tsx:61-170 | seat 26 is at column 44 in all seven rows |
| SeatMap3F.RightAnchor | src/components/theater/SeatMap3F.tsx:89-186 | seat 50 of rows 4-7 and the first seat of block 6 in rows 1-3 are all at column 72 |
| SeatMap3F.AsWrittenHighlightsBalconyTwin | src/components/theater/SeatMap3F.tsx:285-301 | with LB3 of row 1 selected, the code as written also highlights the plain seat 3 of row 1, whose id differs |
| SeatMap3F.SelectedByIdIsExact | src/components/theater/SeatMap3F.tsx:285-301 | comparing ids, a seat is highlighted iff it is the selected seat: same row, area and number |
| SeatMap3F.AllBlocksInOrder | src/components/theater/SeatMap3F.tsx:17-206 | in every row, each block ends before the next one starts |
| SeatMap3F.EntriesLeftToRight | src/components/theater/SeatMap3F.tsx:258-270 | within a row, an entry further along is always drawn further right, so no two entries share a column |
| SeatMapSelector.ViewFor | src/components/theater/SeatMapSelector.tsx:70-82 | floors 1, 2 and 3 each get their own map; only other numbers get the "not ready" panel |
| SeatMapSelector.ScreenOf | src/components/theater/SeatMapSelector.tsx:29-83 | the theatre chooser iff no theatre; the floor chooser iff a theatre but no floor; otherwise the map, which is never the "not ready" panel |
| SeatMapSelector.SelectorView.constructor | src/components/theater/SeatMapSelector.tsx:14-15 | the selector starts on the theatre chooser |
| SeatMapSelector.SelectorView.SelectTheater | src/components/theater/SeatMapSelector.tsx:29-31 | choosing a theatre leads to its floor chooser |
| SeatMapSelector.SelectorView.SelectFloor | src/components/theater/SeatMapSelector.tsx:45-47 | choosing a floor leads to that floor's map |
| SeatMapSelector.SelectorView.BackToTheaters | src/components/theater/SeatMapSelector.tsx:18-21 | both choices are cleared, back to the theatre chooser |
| SeatMapSelector.SelectorView.BackToFloors | src/components/theater/SeatMapSelector.tsx:24-26 | only the floor is cleared, back to the floor chooser |
| SeatMapSelector.ReachableValid | src/components/theater/SeatMapSelector.tsx:14-83 | in every state reachable by pressing drawn buttons, a chosen floor implies a chosen theatre |
| SeatMapSelector.BackAndPickAgain | src/components/theater/SeatMapSelector.tsx:24-47 | going back to the floors and picking the same floor returns to the same state |

## Left out

- The curve, rotation and angle transforms of the three seat maps are not modelled: they are floating-point presentation.
- `localStorage`, `JSON.parse`/`JSON.stringify` and `crypto.randomUUID` are not modelled. Storage is a ghost snapshot, and new ids and timestamps are parameters. `Load` takes the parsed blob, or None when the key is missing.
- The parse-failure branch of loading (the `catch` that logs and keeps the empty list) is not modelled separately. It is a `Load(None)`.
- `Date` parsing, time zones and daylight saving are not modelled. Dates are integer day numbers, and `ParseInstant` reads `YYYY-MM-DD` or `YYYY-MM-DDTHH:MM[:SS]` as a wall-clock second count. JavaScript reads a bare date as UTC and a date with a time as local time; the model reads both in one clock.
- `Home.DaysLeft`: does not model the floating-point `Math.ceil` of a millisecond difference. Between two local midnights it is the whole number of days; on a daylight-saving change the source could differ by one.
- `formatDate` (home page) and `toLocaleString` (ticket card) are locale formatting. Only the "does it show a time" test of the ticket card is modelled.
- Icons, labels, colours, modals, `window.confirm` and React re-render semantics (`useMemo`, effects) are not modelled.
- `TicketForm.TicketFormView`: only the four date and time setters are modelled. The title, status, venue, seat, memo and other date setters are plain field assignments of the same form.
- `LogForm.LogFormView`: only the time-type and hour/minute handlers are modelled. The title, date, theatre and memo setters are plain field assignments.
- `Calendar.CalendarView`: only the year and month of `currentDate` are kept, because the day of month never affects what is drawn.
- The `!ticket.dates` guard in the calendar and home page is not modelled: the record type always has its `dates` object.
- Duplicate React keys and the `console.log` that the 1F map's `onSeatSelect` gets from the selector are not modelled.
- `TicketStore.Tickets.AddTicket`: uses one `now` for both createdAt and updatedAt. The source calls `new Date().toISOString()` twice, so the two values can differ by a clock tick.
- `TicketStore.Tickets.AddTicket`, `LogStore.Logs.AddLog`: require the new id to be fresh among the stored ones. This stands in for `randomUUID`, which is not modelled.
- The floor selector's availability flags and the theatre selector's list are context, not part of this model.
- `SeatData.BuildCustomRow` and `SeatData.BuildRow` are modelled, but no 1F row in the table calls them: every row of `generateFirstFloor` goes through `buildExplicitRow`.

## Findings

| source | as written | input that shows it | evidently intended | confidence | as-written member | corrected member |
|---|---|---|---|---|---|---|
| src/components/theater/SeatMap3F.tsx:298-301 | `isSelected` compares floor, row and number only, leaving out the LB/RB area that the seat id at line 285 contains | select LB3 in 3F row 1: the plain seat 3 in row 1 (id "3F-1-3") is highlighted too, although its id differs from "3F-1-LB3" | a seat is highlighted iff it is the selected seat, i.e. the ids are equal, as the 1F map does (SeatMap.tsx:212) | high (not executed) | SeatMap3F.AsWrittenHighlightsBalconyTwin | SeatMap3F.SelectedByIdIsExact |
