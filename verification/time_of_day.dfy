/**
 * The time-of-day gate of WatchWinder: converting the configured earliest/latest hours into
 * instants, and deciding whether the current instant lies in the allowed hours.
 *
 * `mktime`, `now()` and `hour()` are library calls. They are modelled under one stated
 * assumption: an instant is a count of seconds from the reference midnight that
 * `ConvertEpochHourToUnixTimestamp` builds on, `mktime` normalises an out-of-range `tm_hour`
 * by plain addition of hours, and `hour(t)` is the hour of day of `t` on that scale (no time
 * zone, no daylight saving).
 */
module TimeOfDay {

  const SECONDS_PER_HOUR: int := 60 * 60
  const HOURS_PER_DAY: int := 24

  /** `hour(t)`: the hour of day of instant `t`, under the assumption stated above. */
  function HourOfDay(t: int): (h: int)
    ensures 0 <= h < HOURS_PER_DAY
  {
    (t / SECONDS_PER_HOUR) % HOURS_PER_DAY
  }

  /**
   * The `tm_hour` field `ConvertEpochHourToUnixTimestamp` fills in: the hour minus the time-zone
   * shift multiplied by 60 * 60, i.e. a shift in seconds subtracted from a count of hours.
   */
  function TmHour(hour: int, relativeToGmt: int): int {
    hour - relativeToGmt * 60 * 60
  }

  /**
   * `ConvertEpochHourToUnixTimestamp`: the instant `mktime` makes of the reference midnight
   * with `tm_hour` set as above. Its hour of day is `hour mod 24` whatever the shift, because
   * the shift enters in units of 3600 hours, a whole number (150) of days.
   */
  function ConvertEpochHourToUnixTimestamp(hour: int, relativeToGmt: int): (t: int)
    ensures t % SECONDS_PER_HOUR == 0
    ensures HourOfDay(t) == hour % HOURS_PER_DAY
  {
    WholeHours(TmHour(hour, relativeToGmt));
    ShiftIsWholeDays(hour, relativeToGmt);
    TmHour(hour, relativeToGmt) * SECONDS_PER_HOUR
  }

  /** An instant `h` hours after the reference midnight is a whole number `h` of hours. */
  lemma WholeHours(h: int)
    ensures (h * SECONDS_PER_HOUR) % SECONDS_PER_HOUR == 0
    ensures (h * SECONDS_PER_HOUR) / SECONDS_PER_HOUR == h
  {
    var t := h * SECONDS_PER_HOUR;
    var q, r := t / SECONDS_PER_HOUR, t % SECONDS_PER_HOUR;
    assert t == q * SECONDS_PER_HOUR + r && 0 <= r < SECONDS_PER_HOUR;
    assert (h - q) * SECONDS_PER_HOUR == r;
  }

  /** The shift removes a multiple of 3600 hours from the hour field: 150 whole days per hour of shift. */
  lemma ShiftIsWholeDays(hour: int, relativeToGmt: int)
    ensures HourOfDay(TmHour(hour, relativeToGmt) * SECONDS_PER_HOUR) == hour % HOURS_PER_DAY
  {
    var h := TmHour(hour, relativeToGmt);
    WholeHours(h);
    assert h == hour - (relativeToGmt * 150) * HOURS_PER_DAY;
    ModuloShift(hour, relativeToGmt * 150);
  }

  lemma ModuloShift(a: int, k: int)
    ensures (a - k * HOURS_PER_DAY) % HOURS_PER_DAY == a % HOURS_PER_DAY
  {
    var q := a / HOURS_PER_DAY;
    var r := a % HOURS_PER_DAY;
    assert a - k * HOURS_PER_DAY == (q - k) * HOURS_PER_DAY + r;
  }

  /**
   * `InAllowedTimeFrameOfDay` on hours. The clock is read twice: the hour of the first reading
   * must not precede the earliest hour, and the hour of the second reading must not follow the
   * latest hour, both ends included. Within one hour the two readings agree, and then a window
   * whose latest hour precedes its earliest hour (an overnight window) is never open.
   */
  predicate InAllowedTimeFrameOfDay(firstNowHour: int, secondNowHour: int, earliestHour: int, latestHour: int)
    ensures (latestHour < earliestHour && firstNowHour <= secondNowHour)
            ==> !InAllowedTimeFrameOfDay(firstNowHour, secondNowHour, earliestHour, latestHour)
    ensures (earliestHour <= latestHour && firstNowHour == secondNowHour
             && (firstNowHour == earliestHour || firstNowHour == latestHour))
            ==> InAllowedTimeFrameOfDay(firstNowHour, secondNowHour, earliestHour, latestHour)
  {
    firstNowHour >= earliestHour && secondNowHour <= latestHour
  }

  /**
   * With hours in 0..23, the gate over the converted instants compares the hours of the two
   * readings with the configured hours themselves: the time-zone shift has no effect (under the
   * mktime/hour assumption).
   */
  lemma GateIgnoresShift(earliest: int, latest: int, relativeToGmt: int, firstNow: int, secondNow: int)
    requires 0 <= earliest < HOURS_PER_DAY && 0 <= latest < HOURS_PER_DAY
    ensures InAllowedTimeFrameOfDay(HourOfDay(firstNow), HourOfDay(secondNow),
                                    HourOfDay(ConvertEpochHourToUnixTimestamp(earliest, relativeToGmt)),
                                    HourOfDay(ConvertEpochHourToUnixTimestamp(latest, relativeToGmt)))
            <==> earliest <= HourOfDay(firstNow) && HourOfDay(secondNow) <= latest
  {
    assert HourOfDay(ConvertEpochHourToUnixTimestamp(earliest, relativeToGmt)) == earliest;
    assert HourOfDay(ConvertEpochHourToUnixTimestamp(latest, relativeToGmt)) == latest;
  }

  const SECONDS_PER_DAY: int := HOURS_PER_DAY * SECONDS_PER_HOUR

  /** An instant `r` seconds into hour `q` lies in hour `q`. */
  lemma HourOfInstant(q: int, r: int)
    requires 0 <= r < SECONDS_PER_HOUR
    ensures (q * SECONDS_PER_HOUR + r) / SECONDS_PER_HOUR == q
  {
    var t := q * SECONDS_PER_HOUR + r;
    var q', r' := t / SECONDS_PER_HOUR, t % SECONDS_PER_HOUR;
    assert t == q' * SECONDS_PER_HOUR + r';
    assert (q - q') * SECONDS_PER_HOUR == r' - r;
  }

  /**
   * When the two readings straddle a midnight, the first reports hour 23 and the second hour 0,
   * so the gate is open for every window in 0..23, although a single reading at either instant
   * keeps it closed unless the window reaches hour 23 or hour 0.
   */
  lemma MidnightRolloverOpensGate(day: int, earliest: int, latest: int)
    requires 0 <= earliest < HOURS_PER_DAY && 0 <= latest < HOURS_PER_DAY
    ensures var before, after := day * SECONDS_PER_DAY - 1, day * SECONDS_PER_DAY;
            && HourOfDay(before) == 23 && HourOfDay(after) == 0
            && InAllowedTimeFrameOfDay(HourOfDay(before), HourOfDay(after), earliest, latest)
            && (latest < 23 ==> !InAllowedTimeFrameOfDay(HourOfDay(before), HourOfDay(before), earliest, latest))
            && (0 < earliest ==> !InAllowedTimeFrameOfDay(HourOfDay(after), HourOfDay(after), earliest, latest))
  {
    var before, after := day * SECONDS_PER_DAY - 1, day * SECONDS_PER_DAY;
    assert before == (day * HOURS_PER_DAY - 1) * SECONDS_PER_HOUR + (SECONDS_PER_HOUR - 1);
    HourOfInstant(day * HOURS_PER_DAY - 1, SECONDS_PER_HOUR - 1);
    ModuloShift(-1, -day);
    assert after == (day * HOURS_PER_DAY) * SECONDS_PER_HOUR + 0;
    HourOfInstant(day * HOURS_PER_DAY, 0);
    ModuloShift(0, -day);
  }
}
