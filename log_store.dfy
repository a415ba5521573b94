/**
 * The seat-log store: an ordered list of visit logs, newest first, that every change
 * writes back to browser storage under the key "oshigoto-logs".
 */
module LogStore {
  import opened Wrappers
  import opened TheaterTypes
  import opened Collections

  /** Everything of a log except its id. */
  function LogDataOf(l: Log): LogData
  {
    LogData(l.seatId, l.title, l.date, l.showTime, l.timeType, l.theater, l.memo)
  }

  /** The submitted record under the id `id` (`{ ...data, id }`). */
  function WithId(data: LogData, id: string): (l: Log)
    ensures LogDataOf(l) == data && l.id == id
  {
    Log(id, data.seatId, data.title, data.date, data.showTime, data.timeType, data.theater, data.memo)
  }

  /** The list after `updateLog(id, data)`. */
  function UpdatedLogs(ls: seq<Log>, id: string, data: LogData): (r: seq<Log>)
    ensures |r| == |ls|
    ensures forall i :: 0 <= i < |ls| && ls[i].id == id ==> r[i].id == id && LogDataOf(r[i]) == data
    ensures forall i :: 0 <= i < |ls| && ls[i].id != id ==> r[i] == ls[i]
  {
    seq(|ls|, i requires 0 <= i < |ls| => if ls[i].id == id then WithId(data, id) else ls[i])
  }

  /** The list after `deleteLog(id)`: exactly the logs with another id, in their order. */
  function LogsWithout(ls: seq<Log>, id: string): (r: seq<Log>)
    ensures forall l :: l in r <==> l in ls && l.id != id
  {
    Filter((l: Log) => l.id != id, ls)
  }

  /** `getLogBySeatId`: the first log, in list order, for that seat. */
  function FindBySeat(ls: seq<Log>, seatId: string): (r: Option<Log>)
    ensures r.None? <==> forall l :: l in ls ==> l.seatId != seatId
    ensures r.Some? ==> r.value.seatId == seatId
    ensures r.Some? ==> exists k :: 0 <= k < |ls| && ls[k] == r.value
                                    && forall j :: 0 <= j < k ==> ls[j].seatId != seatId
  {
    Find((l: Log) => l.seatId == seatId, ls)
  }

  /** Right after a log is added, the seat's lookup returns that log, whatever older logs exist. */
  lemma FindBySeatAfterAdd(ls: seq<Log>, data: LogData, id: string)
    ensures FindBySeat([WithId(data, id)] + ls, data.seatId) == Some(WithId(data, id))
  {
    FindPrepend((l: Log) => l.seatId == data.seatId, WithId(data, id), ls);
  }

  /** Update and delete with an id no log has leave the list as it was. */
  lemma UnknownLogIdChangesNothing(ls: seq<Log>, id: string, data: LogData)
    requires forall l :: l in ls ==> l.id != id
    ensures UpdatedLogs(ls, id, data) == ls
    ensures LogsWithout(ls, id) == ls
  {
    FilterKeepsAll((l: Log) => l.id != id, ls);
  }

  /** Deleting a log other than the one a seat's lookup finds leaves that lookup unchanged. */
  lemma {:induction false} FindBySeatAfterDelete(ls: seq<Log>, id: string, seatId: string)
    requires FindBySeat(ls, seatId).Some? && FindBySeat(ls, seatId).value.id != id
    ensures FindBySeat(LogsWithout(ls, id), seatId) == FindBySeat(ls, seatId)
  {
    var keep := (l: Log) => l.id != id;
    var hit := (l: Log) => l.seatId == seatId;
    assert ls == [ls[0]] + ls[1..];
    FindPrepend(hit, ls[0], ls[1..]);
    if keep(ls[0]) {
      assert Filter(keep, ls) == [ls[0]] + Filter(keep, ls[1..]);
      FindPrepend(hit, ls[0], Filter(keep, ls[1..]));
      if !hit(ls[0]) {
        FindBySeatAfterDelete(ls[1..], id, seatId);
      }
    } else {
      assert Filter(keep, ls) == Filter(keep, ls[1..]);
      FindBySeatAfterDelete(ls[1..], id, seatId);
    }
  }

  /**
   * The store. `stored` is what browser storage holds under "oshigoto-logs":
   * `None` when the key is absent or its value does not parse.
   */
  class Logs {
    var logs: seq<Log>
    ghost var stored: Option<seq<Log>>

    /** The initial load: the saved list if there is one that parses, else the empty list. */
    constructor Load(saved: Option<seq<Log>>)
      ensures logs == (if saved.Some? then saved.value else [])
      ensures stored == saved
    {
      logs := saved.GetOr([]);
      stored := saved;
    }

    /** `addLog`: the submitted record under a fresh id goes first. */
    method AddLog(data: LogData, id: string)
      requires forall l :: l in logs ==> l.id != id
      modifies this
      ensures logs == [WithId(data, id)] + old(logs)
      ensures stored == Some(logs)
    {
      logs := [WithId(data, id)] + logs;
      stored := Some(logs);
    }

    /** `updateLog`. */
    method UpdateLog(id: string, data: LogData)
      modifies this
      ensures logs == UpdatedLogs(old(logs), id, data)
      ensures stored == Some(logs)
    {
      logs := UpdatedLogs(logs, id, data);
      stored := Some(logs);
    }

    /** `deleteLog`. */
    method DeleteLog(id: string)
      modifies this
      ensures logs == LogsWithout(old(logs), id)
      ensures stored == Some(logs)
    {
      logs := LogsWithout(logs, id);
      stored := Some(logs);
    }

    /** `getLogBySeatId` on the current list. */
    function GetLogBySeatId(seatId: string): (r: Option<Log>)
      reads this
      ensures r.Some? ==> r.value in logs && r.value.seatId == seatId
      ensures r.None? <==> forall l :: l in logs ==> l.seatId != seatId
      ensures r.Some? ==> exists k :: 0 <= k < |logs| && logs[k] == r.value
                                      && forall j :: 0 <= j < k ==> logs[j].seatId != seatId
    {
      FindBySeat(logs, seatId)
    }
  }
}
