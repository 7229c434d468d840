/**
 * `Date.prototype.toISOString` (always in UTC) and the `YYYY-MM-DD HH:mm:ss`
 * text the screens send, which is its first 19 characters with the `T`
 * replaced by a space.
 */
module IsoTime {
  import opened Wrappers
  import opened Js
  import opened Calendar
  import opened Clock
  import opened Text

  function Digit(d: nat): (c: char)
    requires d < 10
    ensures IsDigit(c) && DigitValue(c) == d
  {
    ('0' as int + d) as char
  }

  /** The last `width` decimal digits of `n`, padded with leading zeros. */
  function Pad(n: nat, width: nat): (s: string)
    ensures |s| == width && AllDigits(s)
  {
    if width == 0 then "" else Pad(n / 10, width - 1) + [Digit(n % 10)]
  }

  /** A number with at most `width` digits reads back from its padded text. */
  lemma {:induction false} PadValue(n: nat, width: nat)
    requires n < Pow10(width)
    ensures DigitsValue(Pad(n, width)) == n
  {
    if width > 0 {
      PadValue(n / 10, width - 1);
      var s := Pad(n, width);
      assert s[..|s| - 1] == Pad(n / 10, width - 1);
    }
  }

  /** Four digits for years 0 to 9999, otherwise a sign and six digits. */
  function YearText(y: int): string {
    if 0 <= y <= 9999 then Pad(y, 4)
    else (if y < 0 then "-" else "+") + Pad(if y < 0 then -y else y, 6)
  }

  /** The UTC calendar date and clock fields of an instant. */
  datatype Fields = Fields(year: int, month: nat, day: nat, hour: nat, minute: nat, second: nat, milli: nat)

  function UtcFields(t: int): (f: Fields)
    ensures 1 <= f.month <= 12 && 1 <= f.day <= 31
    ensures f.hour < 24 && f.minute < 60 && f.second < 60 && f.milli < 1000
  {
    var ms := TimeInDay(0, t);
    var c := CivilFromDays(LocalDay(0, t));
    Fields(c.year, c.month, c.day, ms / HOUR_MS, ms / MINUTE_MS % 60, ms / SECOND_MS % 60, ms % SECOND_MS)
  }

  /** `YYYY-MM-DD`, with the year written as `YearText` does. */
  function DateText(f: Fields): (s: string)
    ensures 'T' !in s && ' ' !in s
    ensures 0 <= f.year <= 9999 ==> |s| == 10
  {
    YearText(f.year) + "-" + Pad(f.month, 2) + "-" + Pad(f.day, 2)
  }

  /** `HH:mm:ss`. */
  function ClockText(f: Fields): (s: string)
    ensures |s| == 8 && 'T' !in s && ' ' !in s
  {
    Pad(f.hour, 2) + ":" + Pad(f.minute, 2) + ":" + Pad(f.second, 2)
  }

  /** `toISOString` of an instant with the given UTC fields. */
  function IsoText(f: Fields): (s: string)
    ensures |s| >= 24
  {
    DateText(f) + "T" + ClockText(f) + "." + Pad(f.milli, 3) + "Z"
  }

  /** `new Date(t).toISOString()`. */
  function IsoString(t: int): (s: string)
    ensures |s| >= 24
  {
    IsoText(UtcFields(t))
  }

  /** `date.toISOString().slice(0, 19).replace('T', ' ')`. */
  function PayloadDateTime(t: int): string {
    ReplaceFirst(IsoString(t)[..19], "T", " ")
  }

  /** `YYYY-MM-DD HH:mm:ss` from its fields. */
  function DateTimeText(f: Fields): string {
    DateText(f) + " " + ClockText(f)
  }

  /** The first 19 characters of the ISO text of fields with a four-digit year, with the `T` made a space. */
  lemma PayloadText(f: Fields)
    requires 0 <= f.year <= 9999
    ensures ReplaceFirst(IsoText(f)[..19], "T", " ") == DateTimeText(f)
  {
    var date := DateText(f);
    var clock := ClockText(f);
    var iso := IsoText(f);
    assert iso == (date + "T" + clock) + ("." + Pad(f.milli, 3) + "Z");
    assert iso[..19] == date + "T" + clock;
    FindAfterFreePrefix(date, "T", "");
    assert date + "T" + "" == date + "T";
    ReplaceKeepsTail(date, "T", " ", clock);
  }

  /** For years 0 to 9999 the payload text is the UTC date and time to the second, 19 characters long, with no `T`. */
  lemma PayloadShape(t: int)
    requires 0 <= UtcFields(t).year <= 9999
    ensures PayloadDateTime(t) == DateTimeText(UtcFields(t))
    ensures |PayloadDateTime(t)| == 19 && 'T' !in PayloadDateTime(t)
  {
    PayloadText(UtcFields(t));
  }

  /** The number written by the digits `s[i..j]`, if there are any and they are all digits. */
  function NumberAt(s: string, i: nat, j: nat): (r: Option<nat>)
    requires i <= j <= |s|
    ensures r.Some? <==> i < j && AllDigits(s[i..j])
  {
    if i < j && AllDigits(s[i..j]) then Some(DigitsValue(s[i..j])) else None
  }

  /** The UTC instant at hour `h`, minute `mi` and second `sec` of day number `day`. */
  function InstantOf(day: int, h: int, mi: int, sec: int): int {
    day * DAY_MS + h * HOUR_MS + mi * MINUTE_MS + sec * SECOND_MS
  }

  /** The instant named by parsed date and clock fields, when every field was read and the month exists. */
  function Assemble(y: Option<nat>, mo: Option<nat>, d: Option<nat>, h: Option<nat>, mi: Option<nat>, sec: Option<nat>): Option<int> {
    if y.Some? && mo.Some? && d.Some? && h.Some? && mi.Some? && sec.Some? && 1 <= mo.value <= 12 then
      Some(InstantOf(DaysFromCivil(y.value, mo.value, d.value), h.value, mi.value, sec.value))
    else None
  }

  /** Reads `YYYY-MM-DD HH:mm:ss` as a UTC instant, as the server does. */
  function ParseDateTime(s: string): Option<int> {
    if |s| != 19 || s[4] != '-' || s[7] != '-' || s[10] != ' ' || s[13] != ':' || s[16] != ':' then None
    else Assemble(NumberAt(s, 0, 4), NumberAt(s, 5, 7), NumberAt(s, 8, 10), NumberAt(s, 11, 13), NumberAt(s, 14, 16), NumberAt(s, 17, 19))
  }

  /** The clock fields give back the time of day to the second. */
  lemma ClockFields(ms: int)
    requires 0 <= ms < DAY_MS
    ensures (ms / HOUR_MS) * HOUR_MS + (ms / MINUTE_MS % 60) * MINUTE_MS + (ms / SECOND_MS % 60) * SECOND_MS
            == ms - ms % SECOND_MS
  {
    var s := ms / SECOND_MS;
    var m := s / 60;
    assert ms / MINUTE_MS == m;
    assert ms / HOUR_MS == m / 60;
  }

  /** Three pieces joined by two one-character separators, each found again at its position. */
  lemma JoinedPieces(a: string, sep1: string, b: string, sep2: string, c: string)
    requires |sep1| == 1 && |sep2| == 1
    ensures var s := a + sep1 + b + sep2 + c;
            var i := |a|;
            var j := |a| + 1 + |b|;
            |s| == j + 1 + |c| && s[i] == sep1[0] && s[j] == sep2[0]
            && s[..i] == a && s[i + 1..j] == b && s[j + 1..] == c
  {
    var s := a + sep1 + b + sep2 + c;
    assert s == a + (sep1 + (b + (sep2 + c)));
  }

  lemma DateTextPieces(f: Fields)
    requires 0 <= f.year <= 9999
    ensures var s := DateText(f);
            s[4] == '-' && s[7] == '-'
            && s[0..4] == Pad(f.year, 4) && s[5..7] == Pad(f.month, 2) && s[8..10] == Pad(f.day, 2)
  {
    JoinedPieces(Pad(f.year, 4), "-", Pad(f.month, 2), "-", Pad(f.day, 2));
  }

  lemma ClockTextPieces(f: Fields)
    ensures var s := ClockText(f);
            s[2] == ':' && s[5] == ':'
            && s[0..2] == Pad(f.hour, 2) && s[3..5] == Pad(f.minute, 2) && s[6..8] == Pad(f.second, 2)
  {
    JoinedPieces(Pad(f.hour, 2), ":", Pad(f.minute, 2), ":", Pad(f.second, 2));
  }

  /** A date text and a clock text joined by a space, each found again at its position. */
  lemma SpacedPieces(d: string, c: string)
    requires |d| == 10 && |c| == 8
    ensures var s := d + " " + c;
            |s| == 19 && s[10] == ' ' && s[4] == d[4] && s[7] == d[7] && s[13] == c[2] && s[16] == c[5]
            && s[0..4] == d[0..4] && s[5..7] == d[5..7] && s[8..10] == d[8..10]
            && s[11..13] == c[0..2] && s[14..16] == c[3..5] && s[17..19] == c[6..8]
  {
  }

  /** The fields of the payload text sit at fixed positions. */
  lemma DateTimeTextPieces(f: Fields)
    requires 0 <= f.year <= 9999
    ensures var s := DateTimeText(f);
            |s| == 19 && s[4] == '-' && s[7] == '-' && s[10] == ' ' && s[13] == ':' && s[16] == ':'
            && s[0..4] == Pad(f.year, 4) && s[5..7] == Pad(f.month, 2) && s[8..10] == Pad(f.day, 2)
            && s[11..13] == Pad(f.hour, 2) && s[14..16] == Pad(f.minute, 2) && s[17..19] == Pad(f.second, 2)
  {
    DateTextPieces(f);
    ClockTextPieces(f);
    SpacedPieces(DateText(f), ClockText(f));
  }

  /** A field written with `Pad` reads back at its position. */
  lemma PaddedNumberAt(s: string, i: nat, j: nat, width: nat, n: nat)
    requires i < j <= |s| && width == j - i && n < Pow10(width) && s[i..j] == Pad(n, width)
    ensures NumberAt(s, i, j) == Some(n)
  {
    PadValue(n, width);
  }

  /** Text with the separators in place and every field readable parses to the instant those fields name. */
  lemma ParseDateTimeOf(s: string, y: nat, mo: nat, d: nat, h: nat, mi: nat, sec: nat)
    requires |s| == 19 && s[4] == '-' && s[7] == '-' && s[10] == ' ' && s[13] == ':' && s[16] == ':'
    requires NumberAt(s, 0, 4) == Some(y) && NumberAt(s, 5, 7) == Some(mo) && NumberAt(s, 8, 10) == Some(d)
    requires NumberAt(s, 11, 13) == Some(h) && NumberAt(s, 14, 16) == Some(mi) && NumberAt(s, 17, 19) == Some(sec)
    requires 1 <= mo <= 12
    ensures ParseDateTime(s) == Some(InstantOf(DaysFromCivil(y, mo, d), h, mi, sec))
  {
  }

  /** The text of any fields with a four-digit year reads back as the instant those fields name. */
  lemma ParseDateTimeText(f: Fields)
    requires 0 <= f.year <= 9999 && 1 <= f.month <= 12 && f.day < 100
    requires f.hour < 100 && f.minute < 100 && f.second < 100
    ensures ParseDateTime(DateTimeText(f))
            == Some(InstantOf(DaysFromCivil(f.year, f.month, f.day), f.hour, f.minute, f.second))
  {
    var s := DateTimeText(f);
    DateTimeTextPieces(f);
    assert Pow10(2) == 100 && Pow10(4) == 10000;
    PaddedNumberAt(s, 0, 4, 4, f.year);
    PaddedNumberAt(s, 5, 7, 2, f.month);
    PaddedNumberAt(s, 8, 10, 2, f.day);
    PaddedNumberAt(s, 11, 13, 2, f.hour);
    PaddedNumberAt(s, 14, 16, 2, f.minute);
    PaddedNumberAt(s, 17, 19, 2, f.second);
    ParseDateTimeOf(s, f.year, f.month, f.day, f.hour, f.minute, f.second);
  }

  /** The clock fields of a time of day name that time of day on its day, truncated to the second. */
  lemma InstantOfTimeOfDay(day: int, ms: int)
    requires 0 <= ms < DAY_MS
    ensures InstantOf(day, ms / HOUR_MS, ms / MINUTE_MS % 60, ms / SECOND_MS % 60) == day * DAY_MS + ms - ms % SECOND_MS
  {
    ClockFields(ms);
  }

  /** An instant truncated to the whole second before it. */
  function WholeSeconds(t: int): int {
    t - t % SECOND_MS
  }

  /** Truncating to the second cuts only into the time of day, never into the whole days. */
  lemma WholeSecondsOfDay(t: int, day: int, ms: int)
    requires t == day * DAY_MS + ms
    ensures WholeSeconds(t) == day * DAY_MS + ms - ms % SECOND_MS
  {
    var k := day * 86400;
    assert t == 1000 * k + ms;
    assert t / 1000 == k + ms / 1000;
  }

  /** The UTC fields of an instant name that instant, truncated to the second. */
  lemma FieldsNameInstant(t: int)
    ensures var f := UtcFields(t);
            InstantOf(DaysFromCivil(f.year, f.month, f.day), f.hour, f.minute, f.second)
            == WholeSeconds(t)
  {
    var day := LocalDay(0, t);
    var ms := TimeInDay(0, t);
    DaysCivilRoundTrip(day);
    InstantOfTimeOfDay(day, ms);
    WholeSecondsOfDay(t, day, ms);
  }

  /** Reading the payload text back gives the instant, truncated to the second (years 0 to 9999). */
  lemma PayloadRoundTrip(t: int)
    requires 0 <= UtcFields(t).year <= 9999
    ensures ParseDateTime(PayloadDateTime(t)) == Some(WholeSeconds(t))
  {
    PayloadShape(t);
    ParseDateTimeText(UtcFields(t));
    FieldsNameInstant(t);
  }
}
