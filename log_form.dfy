/**
 * The log form: its inputs (filled from the log being edited, or from the defaults), the
 * hour and minute pickers that rewrite the custom time `HH:MM`, and the log data it submits
 * for the seat it was opened on.
 */
module LogForm {
  import opened Wrappers
  import opened Text
  import opened TheaterTypes

  /** The inputs of the form. */
  datatype LogFields = LogFields(
    title: string,
    date: string,
    timeType: TimeType,
    customTime: string,
    theater: string,
    memo: string)

  const DefaultTheater := "梅田芸術劇場メインホール"
  const MatineeCaption := "マチネ"
  const SoireeCaption := "ソワレ"

  /** `value || default`: an absent or empty value gives the default. */
  function OrDefault(o: Option<string>, default: string): (s: string)
    ensures o.Some? && o.value != "" ==> s == o.value
    ensures o.None? || o.value == "" ==> s == default
  {
    if o.Some? && o.value != "" then o.value else default
  }

  /**
   * The inputs when the form opens: from the log being edited, or blank, on `today` (the
   * date part of the current instant), a matinee, at the default hall.
   */
  function InitialFields(initial: Option<Log>, today: string): (f: LogFields)
    ensures initial.None? ==> f == LogFields("", today, Matinee, "", DefaultTheater, "")
    ensures initial.Some? ==> f.timeType == initial.value.timeType && f.customTime == initial.value.showTime
    ensures initial.Some? ==> f.title == initial.value.title && f.memo == initial.value.memo
    ensures initial.Some? ==> f.date == if initial.value.date != "" then initial.value.date else today
    ensures initial.Some? ==> f.theater == if initial.value.theater != "" then initial.value.theater else DefaultTheater
  {
    match initial
    case None => LogFields("", today, Matinee, "", DefaultTheater, "")
    case Some(l) =>
      LogFields(l.title, OrDefault(Some(l.date), today), l.timeType, l.showTime,
                OrDefault(Some(l.theater), DefaultTheater), l.memo)
  }

  /** The show time the log records: the caption of a matinee or soiree, else the custom time. */
  function ShowTimeFor(timeType: TimeType, customTime: string): (s: string)
    ensures timeType == Matinee ==> s == MatineeCaption
    ensures timeType == Soiree ==> s == SoireeCaption
    ensures timeType == Custom ==> s == customTime
  {
    match timeType
    case Matinee => MatineeCaption
    case Soiree => SoireeCaption
    case Custom => customTime
  }

  /** `handleSubmit`: the data handed to `onSave`, for the seat the form was opened on. */
  function Submission(f: LogFields, seatId: string): (d: LogData)
    ensures d.seatId == seatId && d.title == f.title && d.date == f.date && d.timeType == f.timeType
    ensures d.theater == f.theater && d.memo == f.memo
    ensures d.showTime == ShowTimeFor(f.timeType, f.customTime)
  {
    LogData(seatId, f.title, f.date, ShowTimeFor(f.timeType, f.customTime), f.timeType, f.theater, f.memo)
  }

  /**
   * Editing round trip: opening the form on a log whose date and hall are set, and submitting
   * without a change, submits the log's own data for its seat.
   */
  lemma ReopenSubmitsSame(l: Log, today: string)
    requires l.date != "" && l.theater != ""
    requires l.showTime == ShowTimeFor(l.timeType, l.showTime)
    ensures Submission(InitialFields(Some(l), today), l.seatId)
         == LogData(l.seatId, l.title, l.date, l.showTime, l.timeType, l.theater, l.memo)
  {
  }

  /** A log the form submitted satisfies the round trip's condition on its show time. */
  lemma SubmittedShowTimeStable(f: LogFields, seatId: string)
    ensures var d := Submission(f, seatId); d.showTime == ShowTimeFor(d.timeType, d.showTime)
  {
  }

  // ---------------------------------------------------------------------------
  // The hour and minute pickers

  /** The hour the picker shows: the text before the first `:`, or "13" when that is empty. */
  function HourOf(customTime: string): (h: string)
    ensures ':' !in h && h != ""
    ensures BeforeFirst(customTime, ':') != "" ==> h == BeforeFirst(customTime, ':')
    ensures BeforeFirst(customTime, ':') == "" ==> h == "13"
  {
    var before := BeforeFirst(customTime, ':');
    if before == "" then "13" else before
  }

  /** The minute the picker shows: the text after the first `:`, or "00" when there is none. */
  function MinuteOf(customTime: string): (m: string)
    ensures ':' !in m && m != ""
    ensures SecondPart(customTime, ':').Some? && SecondPart(customTime, ':').value != "" ==> m == SecondPart(customTime, ':').value
    ensures SecondPart(customTime, ':').None? || SecondPart(customTime, ':').value == "" ==> m == "00"
  {
    match SecondPart(customTime, ':')
    case None => "00"
    case Some(after) => if after == "" then "00" else after
  }

  /** Picking an hour keeps the minute the picker showed. */
  function WithHour(customTime: string, hour: string): string
  {
    hour + ":" + MinuteOf(customTime)
  }

  /** Picking a minute keeps the hour the picker showed. */
  function WithMinute(customTime: string, minute: string): string
  {
    HourOf(customTime) + ":" + minute
  }

  /** After picking hour `h` the pickers show `h` and the old minute. */
  lemma HourPickKeepsMinute(customTime: string, h: string)
    requires h != "" && ':' !in h
    ensures HourOf(WithHour(customTime, h)) == h
    ensures MinuteOf(WithHour(customTime, h)) == MinuteOf(customTime)
  {
    SplitJoin(h, ':', MinuteOf(customTime));
  }

  /** After picking minute `m` the pickers show the old hour and `m`. */
  lemma MinutePickKeepsHour(customTime: string, m: string)
    requires m != "" && ':' !in m
    ensures HourOf(WithMinute(customTime, m)) == HourOf(customTime)
    ensures MinuteOf(WithMinute(customTime, m)) == m
  {
    SplitJoin(HourOf(customTime), ':', m);
  }

  /** The hours offered: "00" to "23". */
  function Hours(): (hs: seq<string>)
    ensures |hs| == 24
    ensures forall i :: 0 <= i < 24 ==> |hs[i]| == 2 && AllDigits(hs[i]) && DigitsValue(hs[i]) == i
  {
    seq(24, i requires 0 <= i < 24 => PadTwo(i))
  }

  /** The minutes offered, in steps of five. */
  const Minutes: seq<string> := ["00", "05", "10", "15", "20", "25", "30", "35", "40", "45", "50", "55"]

  /** The offered minutes are the two-digit multiples of five below sixty, in order. */
  lemma MinutesAreFiveSteps()
    ensures |Minutes| == 12
    ensures forall i :: 0 <= i < 12 ==> |Minutes[i]| == 2 && AllDigits(Minutes[i]) && DigitsValue(Minutes[i]) == 5 * i
  {
    forall i | 0 <= i < 12
      ensures |Minutes[i]| == 2 && AllDigits(Minutes[i]) && DigitsValue(Minutes[i]) == 5 * i
    {
      var m := Minutes[i];
      assert |m| == 2 && IsDigit(m[0]) && IsDigit(m[1]);
      TwoDigitsValue(m);
    }
  }

  /** Picking an offered hour and an offered minute leaves an `HH:MM` custom time. */
  lemma PickedTimeIsHHMM(customTime: string, i: int, j: int)
    requires 0 <= i < 24 && 0 <= j < 12
    ensures var t := WithMinute(WithHour(customTime, Hours()[i]), Minutes[j]);
            |t| == 5 && t[2] == ':' && t[..2] == Hours()[i] && t[3..] == Minutes[j]
  {
    var h := Hours()[i];
    var m := Minutes[j];
    assert |m| == 2;
    assert ':' !in h by {
      assert forall k :: 0 <= k < |h| ==> IsDigit(h[k]);
    }
    HourPickKeepsMinute(customTime, h);
    var t := h + ":" + m;
    assert WithMinute(WithHour(customTime, h), m) == t;
    assert t[..2] == h && t[3..] == m;
  }

  /** The open form, for one seat. */
  class LogFormView {
    const seatId: string
    var fields: LogFields

    constructor (seatId: string, initial: Option<Log>, today: string)
      ensures this.seatId == seatId && fields == InitialFields(initial, today)
    {
      this.seatId := seatId;
      fields := InitialFields(initial, today);
    }

    method SetTimeType(timeType: TimeType)
      modifies this
      ensures fields == old(fields).(timeType := timeType)
    {
      fields := fields.(timeType := timeType);
    }

    /** The hour picker's `onChange`. */
    method PickHour(hour: string)
      modifies this
      ensures fields == old(fields).(customTime := WithHour(old(fields).customTime, hour))
    {
      var minute := MinuteOf(fields.customTime);
      fields := fields.(customTime := hour + ":" + minute);
    }

    /** The minute picker's `onChange`. */
    method PickMinute(minute: string)
      modifies this
      ensures fields == old(fields).(customTime := WithMinute(old(fields).customTime, minute))
    {
      var hour := HourOf(fields.customTime);
      fields := fields.(customTime := hour + ":" + minute);
    }

    /** `handleSubmit`: the log data for this seat; the inputs are left as they are. */
    method Submit() returns (data: LogData)
      ensures data == Submission(fields, seatId)
    {
      data := Submission(fields, seatId);
    }
  }
}
