/**
 * The transform inside `refresh`: the forecast's days and hours, visited in order,
 * become one status payload, which is then published once.
 *
 * The payload is a dict that starts empty, is replaced by the record of every hour
 * that is not in the future, and gains a `future` list to which the records of future
 * hours are appended. `Status` holds the two parts separately: `current` is the dict
 * without `future`, and `future` is None while the dict has no `future` key. No record
 * has a `future` key of its own, so the two views carry the same information.
 */
module Forecast {
  import opened Wrappers
  import opened Json

  type Record = map<string, Value>

  /** One hour of the forecast: its start as seconds since the epoch, and its weather values by name. */
  datatype Hour = Hour(datetimeEpoch: int, values: map<string, Value>)

  /** One day of the forecast: sunrise and sunset as seconds since the epoch, and its hours. */
  datatype Day = Day(sunriseEpoch: int, sunsetEpoch: int, hours: seq<Hour>)

  datatype Status = Status(current: Record, future: Option<seq<Record>>)

  /** An hour together with the day it belongs to, in the order the nested loops visit them. */
  datatype Slot = Slot(day: Day, hour: Hour)

  /** The record built for a kept hour, and whether that hour lies in the future. */
  datatype Entry = Entry(rec: Record, future: bool)

  /** The weather values copied into each record, in the order the source copies them. */
  const Fields: seq<string> := [
    "temp", "feelslike", "humidity", "dew", "precip", "precipprob", "snow", "snowdepth",
    "windgust", "windspeed", "winddir", "pressure", "visibility", "cloudcover",
    "solarradiation", "solarenergy", "moonphase"
  ]

  const RecordKeys: set<string> := (set k | k in Fields) + {"daytime"}

  const EmptyStatus: Status := Status(map[], None)

  /** Copies `keys` from `values`, failing on the first key that is absent (a KeyError). */
  function Copy(values: map<string, Value>, keys: seq<string>): Result<Record, string> {
    if keys == [] then Success(map[])
    else if keys[0] !in values then Failure(keys[0])
    else
      match Copy(values, keys[1..])
      case Failure(k) => Failure(k)
      case Success(m) => Success(m[keys[0] := values[keys[0]]])
  }

  /**
   * Copying succeeds exactly when every key is present, and then copies exactly those keys
   * unchanged; otherwise it fails on the first absent key, in order.
   */
  lemma {:induction false} CopyWrites(values: map<string, Value>, keys: seq<string>)
    ensures Copy(values, keys).Success? <==> forall k :: k in keys ==> k in values
    ensures Copy(values, keys).Success? ==>
      && Copy(values, keys).value.Keys == (set k | k in keys)
      && forall k :: k in keys ==> Copy(values, keys).value[k] == values[k]
    ensures Copy(values, keys).Failure? ==>
      exists i :: 0 <= i < |keys| && keys[i] == Copy(values, keys).error && keys[i] !in values
                  && forall j :: 0 <= j < i ==> keys[j] in values
    decreases |keys|
  {
    if keys != [] && keys[0] in values {
      CopyWrites(values, keys[1..]);
      match Copy(values, keys[1..])
      case Failure(k) =>
        var i :| 0 <= i < |keys[1..]| && keys[1..][i] == k && k !in values
                 && forall j :: 0 <= j < i ==> keys[1..][j] in values;
        assert keys[i + 1] == k && forall j :: 0 <= j < i + 1 ==> keys[j] in values;
      case Success(m) =>
        assert forall k :: k in keys ==> k == keys[0] || k in keys[1..];
    }
  }

  lemma DaytimeIsNotAField()
    ensures "daytime" !in Fields && "future" !in Fields
  {
  }

  /** Strictly after sunrise and strictly before sunset. */
  predicate IsDaytime(day: Day, hour: Hour) {
    day.sunriseEpoch < hour.datetimeEpoch < day.sunsetEpoch
  }

  /** The hour has every field a record copies, so building its record raises no KeyError. */
  predicate HasAllFields(hour: Hour) {
    forall k :: k in Fields ==> k in hour.values
  }

  /** The `write` dict: the 17 weather values copied, then `daytime`. */
  function RecordOf(day: Day, hour: Hour): Result<Record, string> {
    match Copy(hour.values, Fields)
    case Failure(k) => Failure(k)
    case Success(m) => Success(m["daytime" := JBool(IsDaytime(day, hour))])
  }

  /** The record is built exactly when the hour has every field. */
  lemma RecordOfSucceeds(day: Day, hour: Hour)
    ensures RecordOf(day, hour).Success? <==> HasAllFields(hour)
  {
    CopyWrites(hour.values, Fields);
  }

  /**
   * The record has exactly the 17 weather keys and `daytime`; each weather value is the
   * hour's, unchanged; `daytime` holds iff sunrise < hour < sunset, strictly. A missing
   * weather key is a KeyError on the first one missing.
   */
  lemma RecordOfIsWrite(day: Day, hour: Hour)
    ensures RecordOf(day, hour).Success? <==> HasAllFields(hour)
    ensures RecordOf(day, hour).Failure? ==>
      exists i :: 0 <= i < |Fields| && Fields[i] == RecordOf(day, hour).error && Fields[i] !in hour.values
                  && forall j :: 0 <= j < i ==> Fields[j] in hour.values
    ensures RecordOf(day, hour).Success? ==>
      var r := RecordOf(day, hour).value;
      && r.Keys == RecordKeys
      && r["daytime"] == JBool(day.sunriseEpoch < hour.datetimeEpoch < day.sunsetEpoch)
      && forall k :: k in Fields ==> r[k] == hour.values[k]
  {
    CopyWrites(hour.values, Fields);
    DaytimeIsNotAField();
  }

  /**
   * Whether an hour lies in the future. `now` is the local clock in microseconds, compared
   * with the hour's start read as a naive UTC time, as `datetime.now() < utcfromtimestamp(...)` does.
   */
  predicate IsFuture(now: int, hour: Hour) {
    now < hour.datetimeEpoch * 1000000
  }

  /** An hour without a temperature key raises; one whose temperature is None is skipped. */
  predicate Skipped(hour: Hour) {
    "temp" in hour.values && hour.values["temp"] == JNull
  }

  /** What one visited hour contributes: an error, nothing, or one entry. */
  function EntryOf(slot: Slot, now: int): (r: Result<Option<Entry>, string>)
    ensures r == Success(None) <==> Skipped(slot.hour)
    ensures r.Success? && r.value.Some? ==>
      RecordOf(slot.day, slot.hour) == Success(r.value.value.rec) && r.value.value.future == IsFuture(now, slot.hour)
    ensures r.Failure? <==> !Skipped(slot.hour) && RecordOf(slot.day, slot.hour).Failure?
    ensures r.Failure? ==> RecordOf(slot.day, slot.hour) == Failure(r.error)
  {
    if "temp" !in slot.hour.values then Failure("temp")
    else if slot.hour.values["temp"] == JNull then Success(None)
    else match RecordOf(slot.day, slot.hour)
      case Failure(k) => Failure(k)
      case Success(rec) => Success(Some(Entry(rec, IsFuture(now, slot.hour))))
  }

  /** The payload after one kept hour: appended to `future`, or replacing the whole payload. */
  function Step(st: Status, e: Entry): Status {
    if e.future then
      Status(st.current, Some(if st.future.Some? then st.future.value + [e.rec] else [e.rec]))
    else
      Status(e.rec, None)
  }

  function Process(st: Status, slot: Slot, now: int): Result<Status, string> {
    match EntryOf(slot, now)
    case Failure(k) => Failure(k)
    case Success(None) => Success(st)
    case Success(Some(e)) => Success(Step(st, e))
  }

  function HourSlots(day: Day): (s: seq<Slot>)
    ensures |s| == |day.hours| && forall i :: 0 <= i < |s| ==> s[i] == Slot(day, day.hours[i])
  {
    seq(|day.hours|, i requires 0 <= i < |day.hours| => Slot(day, day.hours[i]))
  }

  /** Every hour of every day, days first and hours within each day. */
  function Slots(days: seq<Day>): seq<Slot> {
    if days == [] then [] else Slots(days[..|days| - 1]) + HourSlots(days[|days| - 1])
  }

  /** Visits one more hour, unless an earlier one already raised. */
  function Continue(sofar: Result<Status, string>, slot: Slot, now: int): Result<Status, string> {
    if sofar.Failure? then sofar else Process(sofar.value, slot, now)
  }

  /** The payload after visiting `slots` from an empty dict, or the key whose absence raised. */
  function Run(slots: seq<Slot>, now: int): Result<Status, string> {
    if slots == [] then Success(EmptyStatus)
    else Continue(Run(slots[..|slots| - 1], now), slots[|slots| - 1], now)
  }

  lemma RunAppend(slots: seq<Slot>, slot: Slot, now: int)
    ensures Run(slots + [slot], now) == Continue(Run(slots, now), slot, now)
  {
    assert (slots + [slot])[..|slots|] == slots;
  }

  /** Once a key is found missing, the source raises: later hours change nothing. */
  lemma {:induction false} RunFailureSticks(slots: seq<Slot>, rest: seq<Slot>, now: int)
    requires Run(slots, now).Failure?
    ensures Run(slots + rest, now) == Run(slots, now)
    decreases |rest|
  {
    if rest != [] {
      var init := rest[..|rest| - 1];
      RunFailureSticks(slots, init, now);
      assert slots + rest == (slots + init) + [rest[|rest| - 1]];
      RunAppend(slots + init, rest[|rest| - 1], now);
    } else {
      assert slots + rest == slots;
    }
  }

  lemma {:induction false} SlotsAppend(a: seq<Day>, b: seq<Day>)
    ensures Slots(a + b) == Slots(a) + Slots(b)
    decreases |b|
  {
    if b != [] {
      var init := b[..|b| - 1];
      assert (a + b)[..|a + b| - 1] == a + init;
      assert (a + b)[|a + b| - 1] == b[|b| - 1];
      SlotsAppend(a, init);
    } else {
      assert a + b == a;
    }
  }

  lemma ProcessKept(st: Status, slot: Slot, now: int, rec: Record)
    requires "temp" in slot.hour.values && slot.hour.values["temp"] != JNull
    requires RecordOf(slot.day, slot.hour) == Success(rec)
    ensures Process(st, slot, now) == Success(Step(st, Entry(rec, IsFuture(now, slot.hour))))
  {
  }

  /** Visiting hour `j` of `day` after the hours before it. */
  lemma RunNextHour(done: seq<Slot>, day: Day, j: nat, now: int)
    requires j < |day.hours|
    ensures Run(done + HourSlots(day)[..j + 1], now)
         == Continue(Run(done + HourSlots(day)[..j], now), Slot(day, day.hours[j]), now)
  {
    assert done + HourSlots(day)[..j + 1] == (done + HourSlots(day)[..j]) + [Slot(day, day.hours[j])];
    RunAppend(done + HourSlots(day)[..j], Slot(day, day.hours[j]), now);
  }

  /** A KeyError at hour `j` of day `i` is the outcome of the whole run. */
  lemma RunStopsAt(days: seq<Day>, i: nat, j: nat, now: int)
    requires i < |days| && j < |days[i].hours|
    requires Run(Slots(days[..i]) + HourSlots(days[i])[..j + 1], now).Failure?
    ensures Run(Slots(days), now) == Run(Slots(days[..i]) + HourSlots(days[i])[..j + 1], now)
  {
    var hs := HourSlots(days[i]);
    SlotsSplitAt(days, i, j);
    RunFailureSticks(Slots(days[..i]) + hs[..j + 1], hs[j + 1..] + Slots(days[i + 1..]), now);
  }

  lemma SlotsSplitAt(days: seq<Day>, i: nat, j: nat)
    requires i < |days| && j < |days[i].hours|
    ensures Slots(days) == (Slots(days[..i]) + HourSlots(days[i])[..j + 1])
                           + (HourSlots(days[i])[j + 1..] + Slots(days[i + 1..]))
  {
    var hs := HourSlots(days[i]);
    SlotsAppend(days[..i + 1], days[i + 1..]);
    assert days[..i + 1] + days[i + 1..] == days;
    SlotsNextDay(days, i);
    assert hs == hs[..j + 1] + hs[j + 1..];
    SeqAssoc4(Slots(days[..i]), hs[..j + 1], hs[j + 1..], Slots(days[i + 1..]));
  }

  lemma SeqAssoc4(a: seq<Slot>, b: seq<Slot>, c: seq<Slot>, d: seq<Slot>)
    ensures (a + (b + c)) + d == (a + b) + (c + d)
  {
  }

  lemma SlotsNextDay(days: seq<Day>, i: nat)
    requires i < |days|
    ensures Slots(days[..i + 1]) == Slots(days[..i]) + HourSlots(days[i])
  {
    assert days[..i + 1][..i] == days[..i];
  }

  /** Having visited every hour of day `i`, the run has visited the first `i + 1` days. */
  lemma RunNextDay(days: seq<Day>, i: nat, now: int)
    requires i < |days|
    ensures Slots(days[..i + 1]) == Slots(days[..i]) + HourSlots(days[i])[..|days[i].hours|]
  {
    assert HourSlots(days[i])[..|days[i].hours|] == HourSlots(days[i]);
    SlotsNextDay(days, i);
  }

  /**
   * The body of the inner loop of `refresh` (lines 62-100) for one hour of `day`: skip it,
   * raise on a missing key, append its record to `future`, or replace the payload with it.
   */
  method VisitHour(payload: Status, day: Day, hour: Hour, now: int) returns (r: Result<Status, string>)
    ensures r == Process(payload, Slot(day, hour), now)
  {
    if "temp" !in hour.values {
      return Failure("temp");
    }
    if hour.values["temp"] == JNull {
      SkippedContinue(Success(payload), Slot(day, hour), now);
      return Success(payload);
    }
    var write := RecordOf(day, hour);
    if write.Failure? {
      return Failure(write.error);
    }
    if IsFuture(now, hour) {
      if payload.future.Some? {
        r := Success(Status(payload.current, Some(payload.future.value + [write.value])));
      } else {
        r := Success(Status(payload.current, Some([write.value])));
      }
    } else {
      r := Success(Status(write.value, None));
    }
    ProcessKept(payload, Slot(day, hour), now, write.value);
  }

  /**
   * The nested loops of `refresh` (lines 57-100): the payload they leave, or the key
   * whose absence raised a KeyError.
   */
  method Transform(days: seq<Day>, now: int) returns (r: Result<Status, string>)
    ensures r == Run(Slots(days), now)
  {
    var payload := EmptyStatus;
    var i := 0;
    while i < |days|
      invariant 0 <= i <= |days|
      invariant Run(Slots(days[..i]), now) == Success(payload)
    {
      var day := days[i];
      var j := 0;
      assert Slots(days[..i]) + HourSlots(day)[..0] == Slots(days[..i]);
      while j < |day.hours|
        invariant 0 <= j <= |day.hours|
        invariant Run(Slots(days[..i]) + HourSlots(day)[..j], now) == Success(payload)
      {
        var next := VisitHour(payload, day, day.hours[j], now);
        RunNextHour(Slots(days[..i]), day, j, now);
        if next.Failure? {
          RunStopsAt(days, i, j, now);
          return next;
        }
        payload := next.value;
        j := j + 1;
      }
      RunNextDay(days, i, now);
      i := i + 1;
    }
    assert days[..i] == days;
    r := Success(payload);
  }

  // An independent description of the final payload: the list of kept records, and the
  // last of them that is not in the future.

  /** The entries of the kept hours, in visiting order, or the key whose absence raised. */
  function Emitted(slots: seq<Slot>, now: int): Result<seq<Entry>, string> {
    if slots == [] then Success([])
    else
      var sofar := Emitted(slots[..|slots| - 1], now);
      if sofar.Failure? then sofar
      else match EntryOf(slots[|slots| - 1], now)
        case Failure(k) => Failure(k)
        case Success(None) => sofar
        case Success(Some(e)) => Success(sofar.value + [e])
  }

  /** The position of the last entry that is not in the future. */
  function LastPast(es: seq<Entry>): (r: Option<nat>)
    ensures r.Some? ==> r.value < |es| && !es[r.value].future
    ensures r.Some? ==> forall j :: r.value < j < |es| ==> es[j].future
    ensures r.None? ==> forall j :: 0 <= j < |es| ==> es[j].future
  {
    if es == [] then None
    else if !es[|es| - 1].future then Some(|es| - 1)
    else LastPast(es[..|es| - 1])
  }

  function Records(es: seq<Entry>): (rs: seq<Record>)
    ensures |rs| == |es| && forall j :: 0 <= j < |es| ==> rs[j] == es[j].rec
  {
    seq(|es|, j requires 0 <= j < |es| => es[j].rec)
  }

  /** A `future` list exists only once something has been put in it. */
  function FutureList(es: seq<Entry>): Option<seq<Record>> {
    if es == [] then None else Some(Records(es))
  }

  /**
   * The payload the entries lead to: the last non-future record (an empty dict if there is
   * none) with a `future` list holding every record after it.
   */
  function Final(es: seq<Entry>): Status {
    match LastPast(es)
    case None => Status(map[], FutureList(es))
    case Some(i) => Status(es[i].rec, FutureList(es[i + 1..]))
  }

  lemma FinalStep(es: seq<Entry>, e: Entry)
    ensures Final(es + [e]) == Step(Final(es), e)
  {
    var es' := es + [e];
    assert es'[..|es|] == es;
    if e.future {
      assert LastPast(es') == LastPast(es);
      match LastPast(es)
      case None =>
        assert Final(es) == Status(map[], FutureList(es));
        assert Final(es') == Status(map[], FutureList(es'));
        assert Records(es') == Records(es) + [e.rec];
        if es == [] {
          assert Records(es') == [e.rec];
        } else {
          assert FutureList(es) == Some(Records(es));
        }
      case Some(i) =>
        assert Final(es) == Status(es[i].rec, FutureList(es[i + 1..]));
        assert Final(es') == Status(es'[i].rec, FutureList(es'[i + 1..]));
        assert es'[i + 1..] == es[i + 1..] + [e];
        assert Records(es'[i + 1..]) == Records(es[i + 1..]) + [e.rec];
        if es[i + 1..] == [] {
          assert Records(es'[i + 1..]) == [e.rec];
        } else {
          assert FutureList(es[i + 1..]) == Some(Records(es[i + 1..]));
        }
    } else {
      assert es'[|es| + 1..] == [];
    }
  }

  /**
   * The loop's payload is exactly `Final` of the kept entries: replacement by every
   * non-future record and appending of the future ones add up to "the last non-future
   * record plus every later record, in order".
   */
  lemma {:induction false} RunIsFinal(slots: seq<Slot>, now: int)
    ensures Run(slots, now).Failure? <==> Emitted(slots, now).Failure?
    ensures Run(slots, now).Failure? ==> Run(slots, now).error == Emitted(slots, now).error
    ensures Run(slots, now).Success? ==> Run(slots, now).value == Final(Emitted(slots, now).value)
    decreases |slots|
  {
    if slots != [] {
      var init := slots[..|slots| - 1];
      var last := slots[|slots| - 1];
      RunIsFinal(init, now);
      if Emitted(init, now).Success? {
        match EntryOf(last, now)
        case Failure(k) =>
        case Success(None) =>
        case Success(Some(e)) =>
          FinalStep(Emitted(init, now).value, e);
      }
    } else {
      assert LastPast([]) == None;
    }
  }

  /**
   * When the kept hours are ordered so that the ones not in the future come first and there
   * is at least one of them (`k` of them), the payload is the last of those with every
   * later record in `future`.
   */
  lemma OrderedEntriesFinal(es: seq<Entry>, k: nat)
    requires 0 < k <= |es|
    requires forall j :: 0 <= j < k ==> !es[j].future
    requires forall j :: k <= j < |es| ==> es[j].future
    ensures Final(es) == Status(es[k - 1].rec, if k == |es| then None else Some(Records(es[k..])))
  {
    var p := LastPast(es);
    assert !es[k - 1].future;
    assert p.Some?;
  }

  /** Hours counted as in the future: their start comes later as `now` goes back. */
  lemma FutureIsMonotone(now: int, h1: Hour, h2: Hour)
    requires h1.datetimeEpoch <= h2.datetimeEpoch && IsFuture(now, h1)
    ensures IsFuture(now, h2)
  {
  }

  /** The hours that are not skipped for having a temperature of None. */
  function KeptSlots(slots: seq<Slot>): seq<Slot> {
    if slots == [] then []
    else KeptSlots(slots[..|slots| - 1]) + (if Skipped(slots[|slots| - 1].hour) then [] else [slots[|slots| - 1]])
  }

  lemma SkippedContinue(sofar: Result<Status, string>, slot: Slot, now: int)
    requires Skipped(slot.hour)
    ensures Continue(sofar, slot, now) == sofar
  {
    assert EntryOf(slot, now) == Success(None);
  }

  lemma KeptSlotsAppend(init: seq<Slot>, last: Slot)
    ensures KeptSlots(init + [last]) == KeptSlots(init) + (if Skipped(last.hour) then [] else [last])
  {
    assert (init + [last])[..|init|] == init;
  }

  /** Hours whose temperature is None contribute nothing: removing them changes no outcome. */
  lemma {:induction false} SkippedHoursIgnored(slots: seq<Slot>, now: int)
    ensures Run(slots, now) == Run(KeptSlots(slots), now)
    decreases |slots|
  {
    if slots != [] {
      var init := slots[..|slots| - 1];
      var last := slots[|slots| - 1];
      assert slots == init + [last];
      SkippedHoursIgnored(init, now);
      KeptSlotsAppend(init, last);
      RunAppend(init, last, now);
      if Skipped(last.hour) {
        assert KeptSlots(init) + [] == KeptSlots(init);
        SkippedContinue(Run(init, now), last, now);
      } else {
        RunAppend(KeptSlots(init), last, now);
      }
    }
  }

  /** Every one of the hours has its record built, so none raises a KeyError (see `AllRecordsPresentAt`). */
  predicate AllRecordsPresent(ks: seq<Slot>) {
    ks == [] || (AllRecordsPresent(ks[..|ks| - 1]) && RecordOf(ks[|ks| - 1].day, ks[|ks| - 1].hour).Success?)
  }

  lemma {:induction false} AllRecordsPresentAt(ks: seq<Slot>)
    ensures AllRecordsPresent(ks) <==> forall j :: 0 <= j < |ks| ==> HasAllFields(ks[j].hour)
    decreases |ks|
  {
    if ks != [] {
      var init := ks[..|ks| - 1];
      AllRecordsPresentAt(init);
      RecordOfSucceeds(ks[|ks| - 1].day, ks[|ks| - 1].hour);
      assert forall j :: 0 <= j < |init| ==> init[j] == ks[j];
    }
  }

  /** The records of the hours, in order. */
  function KeptRecords(ks: seq<Slot>): (rs: seq<Record>)
    requires AllRecordsPresent(ks)
    ensures |rs| == |ks|
  {
    if ks == [] then []
    else KeptRecords(ks[..|ks| - 1]) + [RecordOf(ks[|ks| - 1].day, ks[|ks| - 1].hour).value]
  }

  /** The entries of the hours, in order: each hour's record, marked future iff the hour is. */
  function KeptEntries(ks: seq<Slot>, now: int): (es: seq<Entry>)
    requires AllRecordsPresent(ks)
    ensures |es| == |ks|
  {
    if ks == [] then []
    else
      var x := ks[|ks| - 1];
      KeptEntries(ks[..|ks| - 1], now) + [Entry(RecordOf(x.day, x.hour).value, IsFuture(now, x.hour))]
  }

  /** The j-th record is the j-th hour's record. */
  lemma {:induction false} KeptRecordsAt(ks: seq<Slot>)
    requires AllRecordsPresent(ks)
    ensures forall j :: 0 <= j < |ks| ==> RecordOf(ks[j].day, ks[j].hour) == Success(KeptRecords(ks)[j])
    decreases |ks|
  {
    if ks != [] {
      var init := ks[..|ks| - 1];
      KeptRecordsAt(init);
      assert forall j :: 0 <= j < |init| ==> init[j] == ks[j];
    }
  }

  lemma RecordsSnoc(es: seq<Entry>, e: Entry)
    ensures Records(es + [e]) == Records(es) + [e.rec]
  {
  }

  /** The entries carry the records of the hours, and are marked future exactly for the hours that are. */
  lemma {:induction false} KeptEntriesAt(ks: seq<Slot>, now: int)
    requires AllRecordsPresent(ks)
    ensures |KeptEntries(ks, now)| == |ks|
    ensures Records(KeptEntries(ks, now)) == KeptRecords(ks)
    ensures forall j :: 0 <= j < |ks| ==> KeptEntries(ks, now)[j].future == IsFuture(now, ks[j].hour)
    decreases |ks|
  {
    if ks != [] {
      var init := ks[..|ks| - 1];
      var x := ks[|ks| - 1];
      KeptEntriesAt(init, now);
      var e := Entry(RecordOf(x.day, x.hour).value, IsFuture(now, x.hour));
      RecordsSnoc(KeptEntries(init, now), e);
      assert forall j :: 0 <= j < |init| ==> init[j] == ks[j];
    }
  }

  /**
   * The entries are those of the kept hours, one each and in order, each the hour's record
   * marked future iff the hour is. A KeyError is raised exactly when some kept hour lacks a
   * field.
   */
  lemma {:induction false} EmittedKept(slots: seq<Slot>, now: int)
    ensures Emitted(slots, now).Success? <==> AllRecordsPresent(KeptSlots(slots))
    ensures Emitted(slots, now).Success? ==> Emitted(slots, now).value == KeptEntries(KeptSlots(slots), now)
    decreases |slots|
  {
    if slots != [] {
      var init := slots[..|slots| - 1];
      var last := slots[|slots| - 1];
      EmittedKept(init, now);
      assert slots == init + [last];
      if Skipped(last.hour) {
        SkippedNotEmitted(init, last, now);
      } else {
        EmittedKeptStep(init, last, now);
      }
    }
  }

  lemma SkippedNotEmitted(init: seq<Slot>, last: Slot, now: int)
    requires Skipped(last.hour)
    ensures KeptSlots(init + [last]) == KeptSlots(init)
    ensures Emitted(init + [last], now) == Emitted(init, now)
  {
    assert (init + [last])[..|init|] == init;
    assert KeptSlots(init) + [] == KeptSlots(init);
  }

  lemma EmittedKeptStep(init: seq<Slot>, last: Slot, now: int)
    requires !Skipped(last.hour)
    requires Emitted(init, now).Success? <==> AllRecordsPresent(KeptSlots(init))
    requires Emitted(init, now).Success? ==> Emitted(init, now).value == KeptEntries(KeptSlots(init), now)
    ensures KeptSlots(init + [last]) == KeptSlots(init) + [last]
    ensures Emitted(init + [last], now).Success? <==> AllRecordsPresent(KeptSlots(init) + [last])
    ensures Emitted(init + [last], now).Success? ==>
      Emitted(init + [last], now).value == KeptEntries(KeptSlots(init) + [last], now)
  {
    var ks := KeptSlots(init) + [last];
    assert ks[..|ks| - 1] == KeptSlots(init);
    assert (init + [last])[..|init|] == init;
  }

  /** The index of the first kept hour that lies in the future, or the count if none does. */
  function FirstFuture(ks: seq<Slot>, now: int): (k: nat)
    ensures k <= |ks|
    ensures forall j :: 0 <= j < k ==> !IsFuture(now, ks[j].hour)
    ensures k < |ks| ==> IsFuture(now, ks[k].hour)
  {
    if ks == [] || IsFuture(now, ks[0].hour) then 0 else 1 + FirstFuture(ks[1..], now)
  }

  /** The kept hours ascend in time. */
  predicate Ascending(ks: seq<Slot>) {
    forall i, j :: 0 <= i < j < |ks| ==> ks[i].hour.datetimeEpoch <= ks[j].hour.datetimeEpoch
  }

  /** Ascending hours are in the past up to the first future one and in the future from it on. */
  lemma AscendingSplitsAtFirstFuture(ks: seq<Slot>, now: int)
    requires Ascending(ks)
    ensures forall j :: FirstFuture(ks, now) <= j < |ks| ==> IsFuture(now, ks[j].hour)
  {
    var k := FirstFuture(ks, now);
    forall j | k <= j < |ks|
      ensures IsFuture(now, ks[j].hour)
    {
      FutureIsMonotone(now, ks[k].hour, ks[j].hour);
    }
  }

  /** Entries flagged like hours that are past up to the first future one and future from it on. */
  lemma SplitEntriesFinal(ks: seq<Slot>, es: seq<Entry>, now: int)
    requires ks != [] && !IsFuture(now, ks[0].hour)
    requires forall j :: FirstFuture(ks, now) <= j < |ks| ==> IsFuture(now, ks[j].hour)
    requires |es| == |ks| && forall j :: 0 <= j < |ks| ==> es[j].future == IsFuture(now, ks[j].hour)
    ensures 0 < FirstFuture(ks, now)
    ensures var k := FirstFuture(ks, now);
      Final(es) == Status(Records(es)[k - 1], if k == |es| then None else Some(Records(es)[k..]))
  {
    var k := FirstFuture(ks, now);
    OrderedEntriesFinal(es, k);
    RecordsFrom(es, k);
  }

  lemma RecordsFrom(es: seq<Entry>, k: nat)
    requires k <= |es|
    ensures Records(es[k..]) == Records(es)[k..]
  {
    assert forall j :: 0 <= j < |es| - k ==> es[k..][j] == es[k + j];
  }

  /** With every kept record present, the entries carry exactly the kept records and flags. */
  lemma EmittedAsKept(slots: seq<Slot>, now: int)
    requires AllRecordsPresent(KeptSlots(slots))
    ensures Emitted(slots, now).Success?
    ensures var es, ks := Emitted(slots, now).value, KeptSlots(slots);
      && |es| == |ks|
      && Records(es) == KeptRecords(ks)
      && forall j :: 0 <= j < |ks| ==> es[j].future == IsFuture(now, ks[j].hour)
  {
    EmittedKept(slots, now);
    KeptEntriesAt(KeptSlots(slots), now);
  }

  /**
   * Over a forecast whose kept hours all have their fields, ascend in time and start with
   * an hour that is not in the future, `refresh` publishes the record of the last kept hour
   * not in the future, with a `future` list of the records of every later kept hour, in
   * order, present only when there is one; every hour from the first future one on is in
   * the future.
   */
  lemma AscendingForecastPayload(days: seq<Day>, now: int)
    requires AllRecordsPresent(KeptSlots(Slots(days))) && Ascending(KeptSlots(Slots(days)))
    requires KeptSlots(Slots(days)) != [] && !IsFuture(now, KeptSlots(Slots(days))[0].hour)
    ensures var ks := KeptSlots(Slots(days));
      var k := FirstFuture(ks, now);
      var rs := KeptRecords(ks);
      && 0 < k
      && (forall j :: k <= j < |ks| ==> IsFuture(now, ks[j].hour))
      && Run(Slots(days), now) == Success(Status(rs[k - 1], if k == |ks| then None else Some(rs[k..])))
  {
    AscendingRunPayload(Slots(days), now);
  }

  lemma AscendingRunPayload(slots: seq<Slot>, now: int)
    requires AllRecordsPresent(KeptSlots(slots)) && Ascending(KeptSlots(slots))
    requires KeptSlots(slots) != [] && !IsFuture(now, KeptSlots(slots)[0].hour)
    ensures var ks := KeptSlots(slots);
      var k := FirstFuture(ks, now);
      var rs := KeptRecords(ks);
      && 0 < k
      && (forall j :: k <= j < |ks| ==> IsFuture(now, ks[j].hour))
      && Run(slots, now) == Success(Status(rs[k - 1], if k == |ks| then None else Some(rs[k..])))
  {
    KeptRunIsFinal(slots, now);
    AscendingEntriesPayload(slots, now);
    AscendingSplitsAtFirstFuture(KeptSlots(slots), now);
  }

  /** With every kept record present, no KeyError is raised and the payload is `Final` of the entries. */
  lemma KeptRunIsFinal(slots: seq<Slot>, now: int)
    requires AllRecordsPresent(KeptSlots(slots))
    ensures Emitted(slots, now).Success?
    ensures Run(slots, now) == Success(Final(Emitted(slots, now).value))
  {
    EmittedAsKept(slots, now);
    RunIsFinal(slots, now);
  }

  /** `Final` of the entries of ascending kept hours, in terms of the kept records. */
  lemma AscendingEntriesPayload(slots: seq<Slot>, now: int)
    requires AllRecordsPresent(KeptSlots(slots)) && Ascending(KeptSlots(slots))
    requires KeptSlots(slots) != [] && !IsFuture(now, KeptSlots(slots)[0].hour)
    ensures Emitted(slots, now).Success?
    ensures var ks := KeptSlots(slots);
      var k := FirstFuture(ks, now);
      var rs := KeptRecords(ks);
      0 < k && Final(Emitted(slots, now).value) == Status(rs[k - 1], if k == |ks| then None else Some(rs[k..]))
  {
    var ks := KeptSlots(slots);
    EmittedAsKept(slots, now);
    AscendingSplitsAtFirstFuture(ks, now);
    SplitEntriesFinal(ks, Emitted(slots, now).value, now);
  }

  /** Stands in for the client's status publish at the end of `refresh`: what it has been asked to send. */
  class StatusChannel {
    var sent: seq<Status>

    constructor ()
      ensures sent == []
    {
      sent := [];
    }

    method Send(st: Status)
      modifies this
      ensures sent == old(sent) + [st]
    {
      sent := sent + [st];
    }
  }

  /** `refresh` with the fetched days as a parameter: the payload is published once, after the loops. */
  method Refresh(days: seq<Day>, now: int, channel: StatusChannel) returns (r: Result<Status, string>)
    modifies channel
    ensures r == Run(Slots(days), now)
    ensures r.Success? ==> channel.sent == old(channel.sent) + [r.value]
    ensures r.Failure? ==> channel.sent == old(channel.sent)
  {
    r := Transform(days, now);
    if r.Success? {
      channel.Send(r.value);
    }
  }
}
