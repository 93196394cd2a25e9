/**
 * The wake-time arithmetic of `auto_refresh`. Instants are integer microseconds on the
 * local wall clock, counted from a local midnight; the clock is taken to keep a fixed
 * offset from UTC, so `timestamp()` differences equal wall-clock differences.
 */
module Schedule {

  /** `REFRESH_TIME`, in seconds. */
  const RefreshTime: int := 60 * 60
  const Second: int := 1000000
  const DaySeconds: int := 24 * 60 * 60

  /** `(dt - dt.min).seconds`: whole seconds since the start of the day. */
  function SecondsOfDay(wall: int): (s: int)
    ensures 0 <= s < DaySeconds
  {
    (wall / Second) % DaySeconds
  }

  /**
   * `nh` of lines 134-137 for the instant `end` read after the refresh. The seconds-of-day
   * term is added and taken away again, so `nh` is `end` cut to a whole second plus
   * `REFRESH_TIME`, at whatever time of day the refresh ends.
   */
  function NextWake(end: int): (nh: int)
    ensures nh == end - end % Second + RefreshTime * Second
    ensures end + (RefreshTime - 1) * Second < nh <= end + RefreshTime * Second
  {
    var seconds := SecondsOfDay(end);
    var rounding := seconds + RefreshTime;
    end + (rounding - seconds) * Second - end % Second
  }

  /** The argument of `time.sleep` on line 138: measured from `call_started`, not from `end`. */
  function SleepFor(started: int, end: int): int {
    NextWake(end) - started
  }

  /** When the refresh does not run backwards in time, the sleep is more than `REFRESH_TIME` less one second. */
  lemma SleepBounds(started: int, end: int)
    requires started <= end
    ensures (RefreshTime - 1) * Second < SleepFor(started, end) <= RefreshTime * Second + (end - started)
  {
  }

  /** The instant `auto_refresh` wakes at: the sleep begins once the refresh has ended. */
  function WakeInstant(started: int, end: int): (w: int)
    ensures w == end - end % Second + RefreshTime * Second + (end - started)
  {
    end + SleepFor(started, end)
  }

  /**
   * As written, a refresh that starts at 12:17:00 and takes half a second is followed by one
   * at 13:17:00.5, not at the 13:00:00 boundary the corrected schedule gives.
   */
  lemma WakeNotAligned()
    ensures WakeInstant(44220 * Second, 44220 * Second + 500000) == 47820 * Second + 500000
    ensures AlignedWake(44220 * Second + 500000) == 46800 * Second
    ensures WakeInstant(44220 * Second, 44220 * Second + 500000) % Period != 0
  {
    AlignedWakeUpTo(44220 * Second + 500000, 46800 * Second);
  }

  /** The scheduling period in microseconds. */
  const Period: int := RefreshTime * Second

  /** The first period boundary at or after `end`. */
  function AlignedWake(end: int): (w: int)
    ensures w % Period == 0
    ensures end <= w < end + Period
  {
    ((end + Period - 1) / Period) * Period
  }

  /** No boundary at or after `end` comes before `AlignedWake(end)`. */
  lemma AlignedWakeIsFirst(end: int, b: int)
    requires b % Period == 0 && end <= b
    ensures AlignedWake(end) <= b
  {
  }

  /** Boundaries are multiples of the period counted from the start of each day as well. */
  lemma AlignedFromDayStart(end: int)
    ensures (AlignedWake(end) % (DaySeconds * Second)) % Period == 0
  {
    var w := AlignedWake(end);
    var d := DaySeconds * Second;
    var q := (end + Period - 1) / Period;
    assert w == q * Period;
    var m := w / d;
    assert w % d == (q - 24 * m) * Period;
    MultipleOfPeriod(q - 24 * m);
  }

  lemma MultipleOfPeriod(k: int)
    ensures (k * Period) % Period == 0
  {
  }

  /** Every refresh ending in the half-open period before a boundary `b`, or at `b`, wakes at `b`. */
  lemma AlignedWakeUpTo(end: int, b: int)
    requires b % Period == 0 && b - Period < end <= b
    ensures AlignedWake(end) == b
  {
    AlignedWakeIsFirst(end, b);
  }

  /** The corrected sleep, counted from the instant the sleep starts. */
  function AlignedSleep(end: int): (d: int)
    ensures 0 <= d < Period && end + d == AlignedWake(end)
  {
    AlignedWake(end) - end
  }
}
