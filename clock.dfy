/**
 * Wall-clock arithmetic in the reference time zone (Europe/Kyiv), on integer
 * epoch seconds. The zone is modelled by a fixed offset from UTC: +2 hours in
 * winter, +3 hours in summer; the switch between them is not modelled.
 */
module Clock {

  const HourSeconds: int := 3600
  const DaySeconds: int := 86400

  /** An hour of the day, as `datetime.hour` gives it. */
  type Hour = h: int | 0 <= h < 24

  /** The offsets (in seconds east of UTC) that Kyiv local time takes. */
  predicate ValidOffset(offset: int) {
    offset == 2 * HourSeconds || offset == 3 * HourSeconds
  }

  /** Number of the local calendar day that instant `t` falls in. */
  function LocalDay(t: int, offset: int): int {
    (t + offset) / DaySeconds
  }

  /** Local hour of instant `t` (`astimezone(kiev_tz).hour`). */
  function LocalHour(t: int, offset: int): Hour {
    ((t + offset) % DaySeconds) / HourSeconds
  }

  /** Number of the UTC calendar day that instant `t` falls in. */
  function UtcDay(t: int): int {
    t / DaySeconds
  }

  /** The instant of local midnight that starts local day `day`. */
  function DayStart(day: int, offset: int): int {
    day * DaySeconds - offset
  }

  /** The instant `datetime(<day>, hour, minute, second, tzinfo=kiev_tz)`. */
  function WallClock(day: int, hour: int, minute: int, second: int, offset: int): int {
    DayStart(day, offset) + hour * HourSeconds + minute * 60 + second
  }

  /** Division by the length of a day is determined by quotient and remainder. */
  lemma DivDay(n: int, q: int, r: int)
    requires n == q * 86400 + r && 0 <= r < 86400
    ensures n / DaySeconds == q && n % DaySeconds == r
  {
  }

  /** Division by the length of an hour is determined by quotient and remainder. */
  lemma DivHour(n: int, q: int, r: int)
    requires n == q * 3600 + r && 0 <= r < 3600
    ensures n / HourSeconds == q && n % HourSeconds == r
  {
  }

  /** A local day is exactly the half-open interval from its midnight to the next. */
  lemma LocalDayIff(t: int, offset: int, day: int)
    ensures LocalDay(t, offset) == day <==> DayStart(day, offset) <= t < DayStart(day, offset) + DaySeconds
  {
    if DayStart(day, offset) <= t < DayStart(day, offset) + DaySeconds {
      DivDay(t + offset, day, t + offset - day * DaySeconds);
    }
  }

  /** The local hour counts the whole hours elapsed since local midnight. */
  lemma LocalHourSinceMidnight(t: int, offset: int)
    ensures DayStart(LocalDay(t, offset), offset) + LocalHour(t, offset) * HourSeconds <= t
    ensures t < DayStart(LocalDay(t, offset), offset) + LocalHour(t, offset) * HourSeconds + HourSeconds
  {
  }

  /** The wall-clock time `hour:minute:second` of a local day falls on that day, in that hour. */
  lemma WallClockOn(day: int, hour: Hour, minute: int, second: int, offset: int)
    requires 0 <= minute < 60 && 0 <= second < 60
    ensures LocalDay(WallClock(day, hour, minute, second, offset), offset) == day
    ensures LocalHour(WallClock(day, hour, minute, second, offset), offset) == hour
  {
    var t := WallClock(day, hour, minute, second, offset);
    var r := hour * HourSeconds + minute * 60 + second;
    DivDay(t + offset, day, r);
    DivHour(r, hour, minute * 60 + second);
  }
}
