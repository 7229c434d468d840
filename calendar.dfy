/**
 * The proleptic Gregorian calendar that JavaScript's `Date` uses: a day number
 * (days since 1970-01-01) and its year, month (1..12) and day of month, in
 * both directions. The conversion splits a 400-year era into centuries,
 * four-year blocks and years, counting years from 1 March so that the leap
 * day comes last.
 */
module Calendar {

  datatype Civil = Civil(year: int, month: int, day: int)

  /** Days from 0000-03-01 to 1970-01-01. */
  const EPOCH_SHIFT := 719468

  predicate IsLeapYear(y: int) {
    y % 4 == 0 && (y % 100 != 0 || y % 400 == 0)
  }

  function DaysInMonth(y: int, m: int): (n: int)
    requires 1 <= m <= 12
    ensures 28 <= n <= 31
  {
    if m == 2 then (if IsLeapYear(y) then 29 else 28)
    else if m == 4 || m == 6 || m == 9 || m == 11 then 30
    else 31
  }

  predicate ValidCivil(c: Civil) {
    1 <= c.month <= 12 && 1 <= c.day <= DaysInMonth(c.year, c.month)
  }

  /** A day number as an era of 400 years, a year of that era and a day of that year, years starting on 1 March. */
  datatype EraDay = EraDay(era: int, yoe: int, doy: int)

  /** Days from the start of an era to 1 March of its year `yoe`. */
  function YearStart(yoe: int): int {
    365 * yoe + yoe / 4 - yoe / 100
  }

  /** Length of year `yoe` of an era, from 1 March to the end of February; the last year of an era ends on a 400-year leap day. */
  function MarchYearLength(yoe: int): int {
    if yoe == 399 then 366 else YearStart(yoe + 1) - YearStart(yoe)
  }

  function SplitDays(days: int): (p: EraDay)
    ensures 0 <= p.yoe < 400 && 0 <= p.doy < MarchYearLength(p.yoe)
    ensures 146097 * p.era + YearStart(p.yoe) + p.doy == days + EPOCH_SHIFT
  {
    var z := days + EPOCH_SHIFT;
    var era := z / 146097;
    var doe := z % 146097;
    var c := if doe / 36524 < 3 then doe / 36524 else 3;
    var doc := doe - 36524 * c;
    assert 0 <= doc <= 36524;
    var q := doc / 1461;
    var doq := doc % 1461;
    var yq := if doq / 365 < 3 then doq / 365 else 3;
    var yoe := 100 * c + 4 * q + yq;
    assert q <= 24;
    YearStartParts(yoe, c, q, yq);
    assert doq == 1460 ==> c == 3 || q < 24;
    BlockDayInYear(yoe, c, q, yq, doq);
    EraDay(era, yoe, doq - 365 * yq)
  }

  /** Day `doq` of a four-year block falls inside year `yq` of the block, given the block's last day exists only where a leap day ends it. */
  lemma BlockDayInYear(yoe: int, c: int, q: int, yq: int, doq: int)
    requires 0 <= c <= 3 && 0 <= q <= 24 && 0 <= doq < 1461
    requires yq == if doq / 365 < 3 then doq / 365 else 3
    requires doq == 1460 ==> c == 3 || q < 24
    requires yoe == 100 * c + 4 * q + yq
    ensures 0 <= doq - 365 * yq < MarchYearLength(yoe)
  {
    MarchYearLengthParts(yoe, c, q, yq);
  }

  /** Days from the start of an era to the start of year `yq` of four-year block `q` of century `c`. */
  lemma YearStartParts(yoe: int, c: int, q: int, yq: int)
    requires 0 <= c && 0 <= q <= 24 && 0 <= yq <= 3 && yoe == 100 * c + 4 * q + yq
    ensures YearStart(yoe) == 36524 * c + 1461 * q + 365 * yq
  {
    assert yoe / 4 == 25 * c + q;
    assert yoe / 100 == c;
  }

  /** Only the last year of a four-year block is long, and in the first three centuries of an era not the last block's. */
  lemma MarchYearLengthParts(yoe: int, c: int, q: int, yq: int)
    requires 0 <= c <= 3 && 0 <= q <= 24 && 0 <= yq <= 3 && yoe == 100 * c + 4 * q + yq
    ensures MarchYearLength(yoe) == if yq == 3 && (q < 24 || c == 3) then 366 else 365
  {
    YearStartParts(yoe, c, q, yq);
    if yq < 3 {
      YearStartParts(yoe + 1, c, q, yq + 1);
    } else if q < 24 {
      YearStartParts(yoe + 1, c, q + 1, 0);
    } else if c < 3 {
      YearStartParts(yoe + 1, c + 1, 0, 0);
    }
  }

  /** Days from 1 March to the first of the month `mp` months later. */
  function MonthOffset(mp: int): int {
    (153 * mp + 2) / 5
  }

  /** The offset formula without its division: five offsets lie within 2 of 153 days a month. */
  lemma MonthOffsetBounds(mp: int)
    ensures 153 * mp - 2 <= 5 * MonthOffset(mp) <= 153 * mp + 2
  {
  }

  /** The month (counted from March, 0..11) and day of month of a day of a March-based year. */
  function MonthOfYearDay(doy: int): (md: (int, int))
    requires 0 <= doy <= 365
    ensures 0 <= md.0 < 12 && 1 <= md.1 <= 31
    ensures MonthOffset(md.0) + md.1 - 1 == doy
  {
    var mp := (5 * doy + 2) / 153;
    MonthOffsetBounds(mp);
    (mp, doy - MonthOffset(mp) + 1)
  }

  /** The calendar date of a day number. */
  function CivilFromDays(days: int): (c: Civil)
    ensures 1 <= c.month <= 12 && 1 <= c.day <= 31
  {
    var p := SplitDays(days);
    var md := MonthOfYearDay(p.doy);
    var m := if md.0 < 10 then md.0 + 3 else md.0 - 9;
    Civil(400 * p.era + p.yoe + (if m <= 2 then 1 else 0), m, md.1)
  }

  /** The day number of a calendar date (JavaScript's `MakeDay` for a month in 1..12). */
  function DaysFromCivil(y: int, m: int, d: int): int
    requires 1 <= m <= 12
  {
    var ym := if m <= 2 then y - 1 else y;
    var era := ym / 400;
    var yoe := ym - 400 * era;
    var mp := if m > 2 then m - 3 else m + 9;
    146097 * era + YearStart(yoe) + MonthOffset(mp) + d - 1 - EPOCH_SHIFT
  }

  /** `DaysFromCivil` for a year counted from 1 March, split into era and year of era. */
  lemma DaysFromCivilParts(y: int, m: int, d: int, era: int, yoe: int)
    requires 1 <= m <= 12 && 0 <= yoe < 400
    requires (if m <= 2 then y - 1 else y) == 400 * era + yoe
    ensures DaysFromCivil(y, m, d)
         == 146097 * era + YearStart(yoe) + MonthOffset(if m > 2 then m - 3 else m + 9) + d - 1 - EPOCH_SHIFT
  {
    var ym := if m <= 2 then y - 1 else y;
    assert ym / 400 == era;
  }

  /** Reading a day number as a date and back gives the day number again. */
  lemma DaysCivilRoundTrip(days: int)
    ensures var c := CivilFromDays(days); DaysFromCivil(c.year, c.month, c.day) == days
  {
    var p := SplitDays(days);
    var md := MonthOfYearDay(p.doy);
    var c := CivilFromDays(days);
    DaysFromCivilParts(c.year, c.month, c.day, p.era, p.yoe);
  }

  lemma YearStartMonotone(a: int, b: int)
    requires 0 <= a <= b
    ensures YearStart(a) + 364 * (b - a) <= YearStart(b)
  {
    assert a / 4 <= b / 4;
    assert b / 100 - a / 100 <= (b - a) / 100 + 1;
  }

  lemma Mod4(y: int, k: int, r: int)
    requires 0 <= r < 4 && y == 4 * k + r
    ensures y % 4 == r
  {
  }

  lemma Mod100(y: int, k: int, r: int)
    requires 0 <= r < 100 && y == 100 * k + r
    ensures y % 100 == r
  {
  }

  lemma Mod400(y: int, k: int, r: int)
    requires 0 <= r < 400 && y == 400 * k + r
    ensures y % 400 == r
  {
  }

  /** The calendar year that ends year `yq` of block `q` of century `c` of an era is a leap year exactly when that March-based year is long. */
  lemma LeapByParts(y: int, era: int, c: int, q: int, yq: int)
    requires 0 <= c <= 3 && 0 <= q <= 24 && 0 <= yq <= 3
    requires y == 400 * era + 100 * c + 4 * q + yq + 1
    ensures IsLeapYear(y) <==> yq == 3 && (q < 24 || c == 3)
  {
    if yq < 3 {
      Mod4(y, 100 * era + 25 * c + q, yq + 1);
    } else {
      Mod4(y, 100 * era + 25 * c + q + 1, 0);
      if q < 24 {
        Mod100(y, 4 * era + c, 4 * q + 4);
      } else if c == 3 {
        Mod100(y, 4 * era + 4, 0);
        Mod400(y, era + 1, 0);
      } else {
        Mod100(y, 4 * era + c + 1, 0);
        Mod400(y, era, 100 * c + 100);
      }
    }
  }

  /** The March-based year `yoe` of an era is 366 days long exactly when the calendar year `y` it ends in is a leap year. */
  lemma MarchYearLengthLeap(y: int, era: int, yoe: int)
    requires 0 <= yoe < 400 && y == 400 * era + yoe + 1
    ensures MarchYearLength(yoe) == if IsLeapYear(y) then 366 else 365
  {
    var c := yoe / 100;
    var q := (yoe % 100) / 4;
    var yq := yoe % 4;
    assert yoe == 100 * c + 4 * q + yq;
    MarchYearLengthParts(yoe, c, q, yq);
    LeapByParts(y, era, c, q, yq);
  }

  /** A day number has only one split into era, year of era and day of year. */
  lemma SplitDaysUnique(days: int, p: EraDay)
    requires 0 <= p.yoe < 400 && 0 <= p.doy < MarchYearLength(p.yoe)
    requires 146097 * p.era + YearStart(p.yoe) + p.doy == days + EPOCH_SHIFT
    ensures SplitDays(days) == p
  {
    var s := SplitDays(days);
    DayWithinEra(s.yoe, s.doy);
    DayWithinEra(p.yoe, p.doy);
    assert s.era == p.era;
    if s.yoe < p.yoe {
      EarlierYearFirst(s.yoe, s.doy, p.yoe, p.doy);
    } else if p.yoe < s.yoe {
      EarlierYearFirst(p.yoe, p.doy, s.yoe, s.doy);
    }
  }

  /** A day of a year of an era lies within the era's 146097 days. */
  lemma DayWithinEra(yoe: int, doy: int)
    requires 0 <= yoe < 400 && 0 <= doy < MarchYearLength(yoe)
    ensures YearStart(yoe) + doy < 146097
  {
    if yoe < 399 { YearStartMonotone(yoe + 1, 399); }
  }

  /** Every day of an earlier year of an era comes before every day of a later one. */
  lemma EarlierYearFirst(a: int, da: int, b: int, db: int)
    requires 0 <= a < b < 400 && 0 <= da < MarchYearLength(a) && 0 <= db
    ensures YearStart(a) + da < YearStart(b) + db
  {
    YearStartMonotone(a + 1, b);
  }

  /** Days in month `mp` of a March-based year (0 is March, 11 is February), February taken at 29. */
  function MarchMonthLength(mp: int): int {
    if mp == 11 then 29 else MonthOffset(mp + 1) - MonthOffset(mp)
  }

  /** `x / 153` for an `x` known to lie in the block of 153 starting at `153 * q`. */
  lemma DivideBy153(x: int, q: int)
    requires 153 * q <= x < 153 * q + 153
    ensures x / 153 == q
  {
  }

  /** Day `d` of March-based month `mp` is the only day of the year that `MonthOfYearDay` reads as that month and day. */
  lemma MonthOfYearDayUnique(mp: int, d: int, doy: int)
    requires 0 <= mp < 12 && 1 <= d <= MarchMonthLength(mp)
    requires doy == MonthOffset(mp) + d - 1
    ensures 0 <= doy <= 365
    ensures MonthOfYearDay(doy) == (mp, d)
  {
    MonthOffsetBounds(mp);
    if mp < 11 {
      MonthOffsetBounds(mp + 1);
    }
    assert 153 * mp <= 5 * doy + 2 < 153 * mp + 153;
    DivideBy153(5 * doy + 2, mp);
  }

  /** The day of month `MonthOfYearDay` gives stays within the month, February's running to day 29 of a 366-day year. */
  lemma MonthOfYearDayInMonth(doy: int)
    requires 0 <= doy <= 365
    ensures var md := MonthOfYearDay(doy);
            (md.0 < 11 ==> md.1 <= MarchMonthLength(md.0)) && (md.0 == 11 ==> md.1 == doy - 336)
  {
    var mp := (5 * doy + 2) / 153;
    MonthOffsetBounds(mp);
    MonthOffsetBounds(mp + 1);
    if mp == 11 {
      assert MonthOffset(11) == 337;
    }
  }

  /** Month by month, the March-based month lengths are those of `DaysInMonth`, February aside. */
  lemma MarchMonthLengthMatches(y: int, m: int)
    requires 1 <= m <= 12 && m != 2
    ensures MarchMonthLength(if m > 2 then m - 3 else m + 9) == DaysInMonth(y, m)
  {
    match m
    case 1 => assert MonthOffset(11) == 337 && MonthOffset(10) == 306;
    case 3 => assert MonthOffset(1) == 31 && MonthOffset(0) == 0;
    case 4 => assert MonthOffset(2) == 61;
    case 5 => assert MonthOffset(3) == 92 && MonthOffset(2) == 61;
    case 6 => assert MonthOffset(4) == 122 && MonthOffset(3) == 92;
    case 7 => assert MonthOffset(5) == 153 && MonthOffset(4) == 122;
    case 8 => assert MonthOffset(6) == 184 && MonthOffset(5) == 153;
    case 9 => assert MonthOffset(7) == 214 && MonthOffset(6) == 184;
    case 10 => assert MonthOffset(8) == 245 && MonthOffset(7) == 214;
    case 11 => assert MonthOffset(9) == 275 && MonthOffset(8) == 245;
    case 12 => assert MonthOffset(10) == 306 && MonthOffset(9) == 275;
  }

  /** The month lengths of `DaysInMonth`, counted from March, and the day of the March-based year they give. */
  lemma DayOfYearInRange(c: Civil, era: int, yoe: int, mp: int)
    requires ValidCivil(c) && 0 <= yoe < 400
    requires (if c.month <= 2 then c.year - 1 else c.year) == 400 * era + yoe
    requires mp == if c.month > 2 then c.month - 3 else c.month + 9
    ensures c.day <= MarchMonthLength(mp)
    ensures MonthOffset(mp) + c.day - 1 < MarchYearLength(yoe)
  {
    if c.month == 2 {
      MarchYearLengthLeap(c.year, era, yoe);
      assert MonthOffset(11) == 337;
    } else {
      MarchYearLengthLeap(400 * era + yoe + 1, era, yoe);
      MarchMonthLengthMatches(c.year, c.month);
      MonthOffsetBounds(mp + 1);
      assert MonthOffset(mp + 1) <= 337;
    }
  }

  /** Every day number names a real date: the day never runs past the end of its month. */
  lemma CivilFromDaysValid(days: int)
    ensures ValidCivil(CivilFromDays(days))
  {
    var p := SplitDays(days);
    var md := MonthOfYearDay(p.doy);
    var c := CivilFromDays(days);
    MonthOfYearDayInMonth(p.doy);
    if md.0 == 11 {
      MarchYearLengthLeap(c.year, p.era, p.yoe);
    } else {
      MarchMonthLengthMatches(c.year, c.month);
    }
  }

  /** Writing a valid date as a day number and reading it back gives the date again. */
  lemma CivilDaysRoundTrip(c: Civil)
    requires ValidCivil(c)
    ensures CivilFromDays(DaysFromCivil(c.year, c.month, c.day)) == c
  {
    var ym := if c.month <= 2 then c.year - 1 else c.year;
    var era := ym / 400;
    var yoe := ym - 400 * era;
    var mp := if c.month > 2 then c.month - 3 else c.month + 9;
    var doy := MonthOffset(mp) + c.day - 1;
    var days := DaysFromCivil(c.year, c.month, c.day);
    DaysFromCivilParts(c.year, c.month, c.day, era, yoe);
    DayOfYearInRange(c, era, yoe, mp);
    MonthOfYearDayUnique(mp, c.day, doy);
    var p := EraDay(era, yoe, doy);
    SplitDaysUnique(days, p);
    assert MonthOfYearDay(p.doy) == (mp, c.day);
    assert c.year == 400 * era + yoe + (if c.month <= 2 then 1 else 0);
  }

  /** A valid date is the date of the day number it names. */
  lemma CivilOfDays(c: Civil, days: int)
    requires ValidCivil(c) && DaysFromCivil(c.year, c.month, c.day) == days
    ensures CivilFromDays(days) == c
  {
    CivilDaysRoundTrip(c);
  }

  /** The month before month `m` of year `y`. */
  function PrevMonth(y: int, m: int): (p: (int, int))
    requires 1 <= m <= 12
    ensures 1 <= p.1 <= 12
  {
    if m == 1 then (y - 1, 12) else (y, m - 1)
  }

  /** 1 March of the first year of an era comes 29 days after 1 February: the era's last March-based year is long. */
  lemma MarchFollowsFebruaryEraStart(y: int, era: int)
    requires y == 400 * era
    ensures DaysFromCivil(y, 3, 1) == DaysFromCivil(y, 2, 1) + 29
  {
    DaysFromCivilParts(y, 3, 1, era, 0);
    DaysFromCivilParts(y, 2, 1, era - 1, 399);
    assert MonthOffset(11) == 337 && MonthOffset(0) == 0;
    assert YearStart(399) == 145731;
  }

  /** Elsewhere in an era, 1 March follows 1 February by the length of the March-based year before, less March to January. */
  lemma MarchFollowsFebruaryInEra(y: int, era: int, yoe: int)
    requires 0 < yoe < 400 && y == 400 * era + yoe
    ensures DaysFromCivil(y, 3, 1) == DaysFromCivil(y, 2, 1) + MarchYearLength(yoe - 1) - 337
  {
    DaysFromCivilParts(y, 3, 1, era, yoe);
    DaysFromCivilParts(y, 2, 1, era, yoe - 1);
    assert MonthOffset(11) == 337 && MonthOffset(0) == 0;
  }

  /** A year that starts an era is a leap year. */
  lemma EraStartIsLeap(era: int)
    ensures IsLeapYear(400 * era)
  {
    assert 400 * era == 4 * (100 * era);
    assert 400 * era == 100 * (4 * era);
  }

  /** 1 March comes as many days after 1 February as February has: the step across the March-based year. */
  lemma MarchFollowsFebruary(y: int)
    ensures DaysFromCivil(y, 3, 1) == DaysFromCivil(y, 2, 1) + DaysInMonth(y, 2)
  {
    var era := y / 400;
    var yoe := y - 400 * era;
    if yoe == 0 {
      MarchFollowsFebruaryEraStart(y, era);
      EraStartIsLeap(era);
    } else {
      MarchFollowsFebruaryInEra(y, era, yoe);
      MarchYearLengthLeap(y, era, yoe - 1);
    }
  }

  /** Any other month follows the one before it within the same March-based year. */
  lemma MonthFollowsWithinYear(y: int, m: int)
    requires 1 <= m <= 12 && m != 3
    ensures var p := PrevMonth(y, m);
            DaysFromCivil(y, m, 1) == DaysFromCivil(p.0, p.1, 1) + DaysInMonth(p.0, p.1)
  {
    var p := PrevMonth(y, m);
    var ym := if m <= 2 then y - 1 else y;
    var era := ym / 400;
    var yoe := ym - 400 * era;
    DaysFromCivilParts(y, m, 1, era, yoe);
    DaysFromCivilParts(p.0, p.1, 1, era, yoe);
    MarchMonthLengthMatches(p.0, p.1);
  }

  /** The first of a month comes `DaysInMonth` days after the first of the month before. */
  lemma MonthFollowsPrevious(y: int, m: int)
    requires 1 <= m <= 12
    ensures var p := PrevMonth(y, m);
            DaysFromCivil(y, m, 1) == DaysFromCivil(p.0, p.1, 1) + DaysInMonth(p.0, p.1)
  {
    if m == 3 {
      MarchFollowsFebruary(y);
    } else {
      MonthFollowsWithinYear(y, m);
    }
  }
}
