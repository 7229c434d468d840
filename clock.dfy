/**
 * JavaScript `Date` arithmetic on local time. An instant is a number of
 * milliseconds since 1970-01-01T00:00:00Z; the local clock runs `tz`
 * milliseconds ahead of UTC (a fixed offset, so every local day is 24 hours).
 * The getters and setters below follow the ECMAScript definitions of
 * `getDate`, `getDay`, `setHours`, `setDate` and `setMonth` on that clock.
 */
module Clock {
  import opened Calendar

  const SECOND_MS := 1000
  const MINUTE_MS := 60000
  const HOUR_MS := 3600000
  const DAY_MS := 86400000

  /** Day number of the local date of instant `t`. */
  function LocalDay(tz: int, t: int): int {
    (t + tz) / DAY_MS
  }

  /** Milliseconds since local midnight at instant `t`. */
  function TimeInDay(tz: int, t: int): (r: int)
    ensures 0 <= r < DAY_MS
  {
    (t + tz) % DAY_MS
  }

  /** The instant at local time `time` of local day `day`. */
  function AtLocal(tz: int, day: int, time: int): int {
    day * DAY_MS + time - tz
  }

  lemma AtLocalParts(tz: int, day: int, time: int)
    requires 0 <= time < DAY_MS
    ensures LocalDay(tz, AtLocal(tz, day, time)) == day
    ensures TimeInDay(tz, AtLocal(tz, day, time)) == time
  {
  }

  /** `getDate()`: day of the month, 1..31. */
  function GetDate(tz: int, t: int): int {
    CivilFromDays(LocalDay(tz, t)).day
  }

  /** `getMonth()`: month, 0 (January) .. 11 (December). */
  function GetMonth(tz: int, t: int): int {
    CivilFromDays(LocalDay(tz, t)).month - 1
  }

  /** `getDay()`: day of the week, 0 (Sunday) .. 6 (Saturday); 1970-01-01 was a Thursday. */
  function GetDay(tz: int, t: int): (w: int)
    ensures 0 <= w < 7
  {
    (LocalDay(tz, t) + 4) % 7
  }

  /** `setHours(h, mi, s, ms)`: the same local day at the given local time. */
  function SetHours(tz: int, t: int, h: int, mi: int, s: int, ms: int): int {
    AtLocal(tz, LocalDay(tz, t), h * HOUR_MS + mi * MINUTE_MS + s * SECOND_MS + ms)
  }

  /** `setDate(dt)`: day `dt` of the current local month (overflowing into the next months), same local time. */
  function SetDate(tz: int, t: int, dt: int): int {
    var c := CivilFromDays(LocalDay(tz, t));
    AtLocal(tz, DaysFromCivil(c.year, c.month, dt), TimeInDay(tz, t))
  }

  /** `setMonth(month0)`: month `month0` (0-based, any integer) of the current year, same day of month and local time. */
  function SetMonth(tz: int, t: int, month0: int): int {
    var c := CivilFromDays(LocalDay(tz, t));
    AtLocal(tz, DaysFromCivil(c.year + month0 / 12, month0 % 12 + 1, c.day), TimeInDay(tz, t))
  }

  /** Local midnight that starts the day of `t` (`setHours(0, 0, 0, 0)`). */
  function StartOfDay(tz: int, t: int): int {
    SetHours(tz, t, 0, 0, 0, 0)
  }

  /** The last millisecond of the local day of `t` (`setHours(23, 59, 59, 999)`). */
  function EndOfDay(tz: int, t: int): int {
    SetHours(tz, t, 23, 59, 59, 999)
  }

  // ---------------------------------------------------------------------------
  // Facts

  /** A local day runs from its midnight to its last millisecond, and those are exactly the instants on that day. */
  lemma DayBounds(tz: int, t: int)
    ensures StartOfDay(tz, t) <= t <= EndOfDay(tz, t)
    ensures EndOfDay(tz, t) - StartOfDay(tz, t) == DAY_MS - 1
    ensures TimeInDay(tz, StartOfDay(tz, t)) == 0
    ensures forall x :: LocalDay(tz, x) == LocalDay(tz, t) <==> StartOfDay(tz, t) <= x <= EndOfDay(tz, t)
  {
  }

  /** Moving an instant by whole days moves its local day by as many and keeps its time of day. */
  lemma ShiftDays(tz: int, t: int, k: int)
    ensures LocalDay(tz, t + k * DAY_MS) == LocalDay(tz, t) + k
    ensures TimeInDay(tz, t + k * DAY_MS) == TimeInDay(tz, t)
  {
    assert t + k * DAY_MS == AtLocal(tz, LocalDay(tz, t) + k, TimeInDay(tz, t));
    AtLocalParts(tz, LocalDay(tz, t) + k, TimeInDay(tz, t));
  }

  /** `setDate(getDate() + k)` moves exactly `k` days: there is no daylight saving time on a fixed-offset clock. */
  lemma SetDateShifts(tz: int, t: int, k: int, dt: int)
    requires dt == GetDate(tz, t) + k
    ensures SetDate(tz, t, dt) == t + k * DAY_MS
  {
    var day := LocalDay(tz, t);
    var c := CivilFromDays(day);
    DaysCivilRoundTrip(day);
    assert DaysFromCivil(c.year, c.month, dt) == day + k;
  }

  /** `setDate(1)` lands on the first of the same month, on the same local time. */
  lemma SetDateFirst(tz: int, t: int)
    ensures var f := SetDate(tz, t, 1);
            CivilFromDays(LocalDay(tz, f)) == CivilFromDays(LocalDay(tz, t)).(day := 1)
            && TimeInDay(tz, f) == TimeInDay(tz, t)
            && f == t - (GetDate(tz, t) - 1) * DAY_MS
  {
    var c := CivilFromDays(LocalDay(tz, t));
    SetDateShifts(tz, t, 1 - c.day, 1);
    AtLocalParts(tz, DaysFromCivil(c.year, c.month, 1), TimeInDay(tz, t));
    CivilDaysRoundTrip(c.(day := 1));
  }

  /**
   * `setMonth(getMonth() - 1)` goes back by the length of the previous month,
   * whatever the day of the month: 31 March goes back 28 or 29 days, to 3 or 2 March.
   */
  lemma SetMonthBack(tz: int, t: int)
    ensures var c := CivilFromDays(LocalDay(tz, t));
            var p := PrevMonth(c.year, c.month);
            SetMonth(tz, t, GetMonth(tz, t) - 1) == t - DaysInMonth(p.0, p.1) * DAY_MS
  {
    var day := LocalDay(tz, t);
    var c := CivilFromDays(day);
    var p := PrevMonth(c.year, c.month);
    var back := DaysFromCivil(p.0, p.1, c.day);
    assert SetMonth(tz, t, GetMonth(tz, t) - 1) == AtLocal(tz, back, TimeInDay(tz, t)) by {
      MonthBeforeNormalised(c.month, c.year);
    }
    assert back == day - DaysInMonth(p.0, p.1) by {
      DaysCivilRoundTrip(day);
      MonthFollowsPrevious(c.year, c.month);
      DayOfMonthOffset(p.0, p.1, c.day);
      DayOfMonthOffset(c.year, c.month, c.day);
    }
  }

  /**
   * After `setMonth(getMonth() - 1)` the date is the same day of the month before
   * when that month has it; otherwise it overflows into the current month by the
   * days the month before lacks (31 May gives 1 May, 31 March gives 3 or 2 March).
   */
  lemma SetMonthBackDate(tz: int, t: int)
    ensures var c := CivilFromDays(LocalDay(tz, t));
            var p := PrevMonth(c.year, c.month);
            var len := DaysInMonth(p.0, p.1);
            var b := CivilFromDays(LocalDay(tz, SetMonth(tz, t, GetMonth(tz, t) - 1)));
            (c.day <= len ==> b == Civil(p.0, p.1, c.day))
            && (c.day > len ==> b == Civil(c.year, c.month, c.day - len))
  {
    var day := LocalDay(tz, t);
    var c := CivilFromDays(day);
    var p := PrevMonth(c.year, c.month);
    var len := DaysInMonth(p.0, p.1);
    var back := LocalDay(tz, SetMonth(tz, t, GetMonth(tz, t) - 1));
    assert back == day - len by {
      SetMonthBack(tz, t);
      ShiftDays(tz, t, -len);
    }
    assert ValidCivil(c) && DaysFromCivil(c.year, c.month, c.day) == day by {
      CivilFromDaysValid(day);
      DaysCivilRoundTrip(day);
    }
    if c.day <= len {
      SameDayMonthBefore(c, len, day, back);
    } else {
      EarlierDaySameMonth(c, len, day, back);
    }
  }

  lemma SameDayMonthBefore(c: Civil, len: int, day: int, back: int)
    requires ValidCivil(c) && DaysFromCivil(c.year, c.month, c.day) == day
    requires len == DaysInMonth(PrevMonth(c.year, c.month).0, PrevMonth(c.year, c.month).1)
    requires c.day <= len && back == day - len
    ensures CivilFromDays(back) == Civil(PrevMonth(c.year, c.month).0, PrevMonth(c.year, c.month).1, c.day)
  {
    var p := PrevMonth(c.year, c.month);
    MonthFollowsPrevious(c.year, c.month);
    DayOfMonthOffset(c.year, c.month, c.day);
    DayOfMonthOffset(p.0, p.1, c.day);
    CivilOfDays(Civil(p.0, p.1, c.day), back);
  }

  lemma EarlierDaySameMonth(c: Civil, len: int, day: int, back: int)
    requires ValidCivil(c) && DaysFromCivil(c.year, c.month, c.day) == day
    requires 0 < len < c.day && back == day - len
    ensures CivilFromDays(back) == Civil(c.year, c.month, c.day - len)
  {
    DayOfMonthOffset(c.year, c.month, c.day);
    DayOfMonthOffset(c.year, c.month, c.day - len);
    CivilOfDays(Civil(c.year, c.month, c.day - len), back);
  }

  /** `setMonth` normalises the month index `getMonth() - 1` to the month before. */
  lemma MonthBeforeNormalised(m: int, y: int)
    requires 1 <= m <= 12
    ensures y + (m - 2) / 12 == PrevMonth(y, m).0 && (m - 2) % 12 + 1 == PrevMonth(y, m).1
  {
  }

  /** Day `d` of a month is `d - 1` days after its first. */
  lemma DayOfMonthOffset(y: int, m: int, d: int)
    requires 1 <= m <= 12
    ensures DaysFromCivil(y, m, d) == DaysFromCivil(y, m, 1) + d - 1
  {
  }
}
