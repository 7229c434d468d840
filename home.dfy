/**
 * The home screen: lab reports and BMI entries kept between two optional
 * whole-day bounds and sorted by date, the preset ranges that set those
 * bounds, the date-picker state, and the chart series.
 */
module Home {
  import opened Wrappers
  import opened Js
  import opened Calendar
  import opened Clock
  import opened Lists

  /**
   * A date field as the server sends it (`""` when it is missing) and the
   * instant `new Date(text)` gives, None for an Invalid Date.
   */
  datatype Stamp = Stamp(text: string, at: Option<int>)

  datatype LabReport = LabReport(createdAt: Stamp, fastingSugar: string, randomSugar: string, cholesterol: string)

  datatype BmiEntry = BmiEntry(timestamp: Stamp, bmi: string)

  // ---------------------------------------------------------------------------
  // Filter and sort

  /** `startDate ? new Date(startDate).setHours(0, 0, 0, 0) : null`. */
  function LowerBound(tz: int, startDate: Option<int>): Option<int> {
    match startDate
    case Some(d) => Some(StartOfDay(tz, d))
    case None => None
  }

  /** `endDate ? new Date(endDate).setHours(23, 59, 59, 999) : null`. */
  function UpperBound(tz: int, endDate: Option<int>): Option<int> {
    match endDate
    case Some(d) => Some(EndOfDay(tz, d))
    case None => None
  }

  /** A bound takes part only when it is truthy: present and not the instant 0. */
  predicate IsSet(bound: Option<int>) {
    bound.Some? && bound.value != 0
  }

  /**
   * The filter callback: an item is dropped when it is before a set `start`
   * or after a set `end`. An Invalid Date compares false both ways and is kept.
   */
  predicate Kept(start: Option<int>, end: Option<int>, at: Option<int>) {
    !(IsSet(start) && at.Some? && at.value < start.value)
    && !(IsSet(end) && at.Some? && at.value > end.value)
  }

  /** The valid dates appear in ascending order. */
  predicate SortedBy<T>(s: seq<T>, dateOf: T -> Option<int>) {
    forall i, j :: 0 <= i < j < |s| && dateOf(s[i]).Some? && dateOf(s[j]).Some?
                   ==> dateOf(s[i]).value <= dateOf(s[j]).value
  }

  /** The comparator `new Date(a) - new Date(b)` is negative: both dates valid and `a` earlier. */
  predicate Before<T>(a: T, b: T, dateOf: T -> Option<int>) {
    dateOf(a).Some? && dateOf(b).Some? && dateOf(a).value < dateOf(b).value
  }

  /** Puts `x` after every element it does not sort before, keeping equal dates in arrival order. */
  function Insert<T(==)>(sorted: seq<T>, x: T, dateOf: T -> Option<int>): (r: seq<T>)
    requires SortedBy(sorted, dateOf)
    ensures SortedBy(r, dateOf)
    ensures multiset(r) == multiset(sorted) + multiset{x}
  {
    if sorted == [] then [x]
    else if Before(x, sorted[0], dateOf) then
      [x] + sorted
    else
      var rest := Insert(sorted[1..], x, dateOf);
      HeadStaysFirst(sorted, x, dateOf, rest);
      [sorted[0]] + rest
  }

  /** When `x` does not sort before the head, the head stays in front of the rest with `x` inserted. */
  lemma HeadStaysFirst<T>(sorted: seq<T>, x: T, dateOf: T -> Option<int>, rest: seq<T>)
    requires sorted != [] && SortedBy(sorted, dateOf) && !Before(x, sorted[0], dateOf)
    requires SortedBy(rest, dateOf) && multiset(rest) == multiset(sorted[1..]) + multiset{x}
    ensures SortedBy([sorted[0]] + rest, dateOf)
    ensures multiset([sorted[0]] + rest) == multiset(sorted) + multiset{x}
  {
    assert sorted == [sorted[0]] + sorted[1..];
    forall j | 0 <= j < |rest| && dateOf(sorted[0]).Some? && dateOf(rest[j]).Some?
      ensures dateOf(sorted[0]).value <= dateOf(rest[j]).value
    {
      assert rest[j] in multiset(rest);
      if rest[j] != x {
        assert rest[j] in multiset(sorted[1..]);
        var k :| 0 <= k < |sorted[1..]| && sorted[1..][k] == rest[j];
        assert sorted[k + 1] == rest[j];
      }
    }
    var r := [sorted[0]] + rest;
    forall i, j | 0 <= i < j < |r| && dateOf(r[i]).Some? && dateOf(r[j]).Some?
      ensures dateOf(r[i]).value <= dateOf(r[j]).value
    {
      if i > 0 {
        assert r[i] == rest[i - 1] && r[j] == rest[j - 1];
      } else {
        assert r[j] == rest[j - 1];
      }
    }
  }

  /** `.sort((a, b) => new Date(a[dateKey]) - new Date(b[dateKey]))`, as a stable insertion sort. */
  function SortByDate<T(==)>(s: seq<T>, dateOf: T -> Option<int>): (r: seq<T>)
    ensures SortedBy(r, dateOf)
    ensures multiset(r) == multiset(s)
  {
    if s == [] then []
    else
      assert s == s[..|s| - 1] + [s[|s| - 1]];
      Insert(SortByDate(s[..|s| - 1], dateOf), s[|s| - 1], dateOf)
  }

  /** The test `filterAndSort` passes to `filter`: the item's date is kept by the bounds. */
  function KeptTest<T>(dateOf: T -> Option<int>, start: Option<int>, end: Option<int>): T -> bool {
    (x: T) => Kept(start, end, dateOf(x))
  }

  /** `filterAndSort(data, dateKey)`: the kept items, in ascending date order. */
  function FilterAndSort<T(==,!new)>(data: seq<T>, dateOf: T -> Option<int>, start: Option<int>, end: Option<int>)
    : (r: seq<T>)
    ensures SortedBy(r, dateOf)
    ensures multiset(r) == multiset(Filter(data, KeptTest(dateOf, start, end)))
    ensures forall x :: x in r <==> x in data && Kept(start, end, dateOf(x))
  {
    var kept := Filter(data, KeptTest(dateOf, start, end));
    assert forall x :: KeptTest(dateOf, start, end)(x) == Kept(start, end, dateOf(x));
    var r := SortByDate(kept, dateOf);
    assert forall x :: x in r <==> x in multiset(kept);
    r
  }

  /**
   * With whole-day bounds a valid date is kept exactly when its local day
   * lies between the start day and the end day, both included (a bound that
   * is the instant 0 drops out, see `EpochBoundIgnored`).
   */
  lemma KeptByDay(tz: int, startDate: Option<int>, endDate: Option<int>, t: int)
    requires startDate.Some? ==> StartOfDay(tz, startDate.value) != 0
    requires endDate.Some? ==> EndOfDay(tz, endDate.value) != 0
    ensures Kept(LowerBound(tz, startDate), UpperBound(tz, endDate), Some(t))
            <==> (startDate.Some? ==> LocalDay(tz, startDate.value) <= LocalDay(tz, t))
                 && (endDate.Some? ==> LocalDay(tz, t) <= LocalDay(tz, endDate.value))
  {
    if startDate.Some? {
      DayBounds(tz, startDate.value);
      DayBounds(tz, t);
    }
    if endDate.Some? {
      DayBounds(tz, endDate.value);
      DayBounds(tz, t);
    }
  }

  /** A start bound at the instant 0 is falsy, so it filters nothing out. */
  lemma EpochBoundIgnored(tz: int, startDate: int, end: Option<int>, at: Option<int>)
    requires StartOfDay(tz, startDate) == 0
    ensures Kept(LowerBound(tz, Some(startDate)), end, at) == Kept(None, end, at)
  {
  }

  /** The instant a lab report was created, as `new Date(created_at)` reads it. */
  function LabDate(x: LabReport): Option<int> { x.createdAt.at }

  /** The instant of a BMI entry, as `new Date(timestamp)` reads it. */
  function BmiDate(x: BmiEntry): Option<int> { x.timestamp.at }

  /** Lab reports are filtered and sorted on `created_at`. */
  function FilteredLab(tz: int, labData: seq<LabReport>, startDate: Option<int>, endDate: Option<int>)
    : (r: seq<LabReport>)
    ensures SortedBy(r, LabDate)
    ensures multiset(r) == multiset(Filter(labData, KeptTest(LabDate, LowerBound(tz, startDate), UpperBound(tz, endDate))))
    ensures forall x :: x in r <==> x in labData && Kept(LowerBound(tz, startDate), UpperBound(tz, endDate), x.createdAt.at)
  {
    FilterAndSort(labData, LabDate, LowerBound(tz, startDate), UpperBound(tz, endDate))
  }

  /** BMI entries are filtered and sorted on `timestamp`. */
  function FilteredBmi(tz: int, bmiData: seq<BmiEntry>, startDate: Option<int>, endDate: Option<int>)
    : (r: seq<BmiEntry>)
    ensures SortedBy(r, BmiDate)
    ensures multiset(r) == multiset(Filter(bmiData, KeptTest(BmiDate, LowerBound(tz, startDate), UpperBound(tz, endDate))))
    ensures forall x :: x in r <==> x in bmiData && Kept(LowerBound(tz, startDate), UpperBound(tz, endDate), x.timestamp.at)
  {
    FilterAndSort(bmiData, BmiDate, LowerBound(tz, startDate), UpperBound(tz, endDate))
  }

  // ---------------------------------------------------------------------------
  // Preset ranges

  /** The range each filter button stands for, in days; None for custom, which keeps the picked dates. */
  function PresetWindow(tz: int, now: int, filter: string): Option<(int, int)> {
    if filter == "custom" then None
    else if filter == "today" then Some((StartOfDay(tz, now), EndOfDay(tz, now)))
    else if filter == "yesterday" then Some((StartOfDay(tz, now - DAY_MS), EndOfDay(tz, now - DAY_MS)))
    else if filter == "week" then Some((StartOfDay(tz, now - GetDay(tz, now) * DAY_MS), EndOfDay(tz, now)))
    else if filter == "month" then
      var c := CivilFromDays(LocalDay(tz, now));
      Some((AtLocal(tz, DaysFromCivil(c.year, c.month, 1), 0), EndOfDay(tz, now)))
    else Some((now, EndOfDay(tz, now)))
  }

  lemma EndOfDayShift(tz: int, t: int, k: int)
    ensures EndOfDay(tz, t) + k * DAY_MS == EndOfDay(tz, t + k * DAY_MS)
    ensures StartOfDay(tz, t) + k * DAY_MS == StartOfDay(tz, t + k * DAY_MS)
  {
    ShiftDays(tz, t, k);
  }

  /** Yesterday's setter steps: back one day with `setDate`, then to midnight for the start; the end of today back one day for the end. */
  lemma YesterdayPresetSteps(tz: int, now: int, back: int, endBack: int)
    requires back == GetDate(tz, now) - 1 && endBack == GetDate(tz, EndOfDay(tz, now)) - 1
    ensures SetHours(tz, SetDate(tz, now, back), 0, 0, 0, 0) == StartOfDay(tz, now - DAY_MS)
    ensures SetDate(tz, EndOfDay(tz, now), endBack) == EndOfDay(tz, now - DAY_MS)
  {
    SetDateShifts(tz, now, -1, back);
    SetDateShifts(tz, EndOfDay(tz, now), -1, endBack);
    EndOfDayShift(tz, now, -1);
  }

  /** The week's setter steps: back by the day of the week with `setDate`, then to midnight. */
  lemma WeekPresetSteps(tz: int, now: int, sunday: int)
    requires sunday == GetDate(tz, now) - GetDay(tz, now)
    ensures SetHours(tz, SetDate(tz, now, sunday), 0, 0, 0, 0) == StartOfDay(tz, now - GetDay(tz, now) * DAY_MS)
  {
    SetDateShifts(tz, now, -GetDay(tz, now), sunday);
  }

  /** The month's setter steps: to the first with `setDate(1)`, then to midnight. */
  lemma MonthPresetSteps(tz: int, now: int)
    ensures var c := CivilFromDays(LocalDay(tz, now));
            SetHours(tz, SetDate(tz, now, 1), 0, 0, 0, 0) == AtLocal(tz, DaysFromCivil(c.year, c.month, 1), 0)
  {
    var c := CivilFromDays(LocalDay(tz, now));
    AtLocalParts(tz, DaysFromCivil(c.year, c.month, 1), TimeInDay(tz, now));
  }

  /** The five filter names are different texts. */
  lemma FilterNamesDistinct()
    ensures "today" != "yesterday" && "today" != "week" && "today" != "month" && "today" != "custom"
    ensures "yesterday" != "week" && "yesterday" != "month" && "yesterday" != "custom"
    ensures "week" != "month" && "week" != "custom" && "month" != "custom"
  {
    assert "today"[0] != "month"[0];
  }

  /** The preset effect: `start` and `end` begin at the current instant and are moved by the `Date` setters. */
  method PresetRange(tz: int, now: int, filter: string) returns (range: Option<(int, int)>)
    ensures range == PresetWindow(tz, now, filter)
  {
    FilterNamesDistinct();
    var end := now;
    var start := now;
    end := SetHours(tz, end, 23, 59, 59, 999);
    if filter == "today" {
      start := SetHours(tz, start, 0, 0, 0, 0);
    } else if filter == "yesterday" {
      var back := GetDate(tz, start) - 1;
      start := SetDate(tz, start, back);
      start := SetHours(tz, start, 0, 0, 0, 0);
      var endBack := GetDate(tz, end) - 1;
      end := SetDate(tz, end, endBack);
      YesterdayPresetSteps(tz, now, back, endBack);
    } else if filter == "week" {
      var sunday := GetDate(tz, start) - GetDay(tz, start);
      start := SetDate(tz, start, sunday);
      start := SetHours(tz, start, 0, 0, 0, 0);
      WeekPresetSteps(tz, now, sunday);
    } else if filter == "month" {
      start := SetDate(tz, start, 1);
      start := SetHours(tz, start, 0, 0, 0, 0);
      MonthPresetSteps(tz, now);
    } else if filter == "custom" {
      return None;
    }
    range := Some((start, end));
  }

  /** Every preset but yesterday and custom ends at the last millisecond of today. */
  lemma PresetEndsToday(tz: int, now: int, filter: string)
    requires filter != "custom"
    ensures PresetWindow(tz, now, filter).Some?
    ensures var w := PresetWindow(tz, now, filter).value;
            filter != "yesterday" ==> LocalDay(tz, w.1) == LocalDay(tz, now) && TimeInDay(tz, w.1) == DAY_MS - 1
    ensures var w := PresetWindow(tz, now, filter).value;
            filter == "yesterday" ==> LocalDay(tz, w.1) == LocalDay(tz, now) - 1 && TimeInDay(tz, w.1) == DAY_MS - 1
  {
    AtLocalParts(tz, LocalDay(tz, now), DAY_MS - 1);
    ShiftDays(tz, now, -1);
    AtLocalParts(tz, LocalDay(tz, now) - 1, DAY_MS - 1);
  }

  /** Yesterday runs from its midnight to its last millisecond. */
  lemma YesterdayPreset(tz: int, now: int)
    ensures var w := PresetWindow(tz, now, "yesterday").value;
            LocalDay(tz, w.0) == LocalDay(tz, now) - 1 && TimeInDay(tz, w.0) == 0
            && w.1 - w.0 == DAY_MS - 1
  {
    ShiftDays(tz, now, -1);
    DayBounds(tz, now - DAY_MS);
    AtLocalParts(tz, LocalDay(tz, now) - 1, 0);
  }

  /** The week starts at midnight of the most recent Sunday, today if today is a Sunday. */
  lemma WeekPresetStart(tz: int, now: int)
    ensures var s := PresetWindow(tz, now, "week").value.0;
            GetDay(tz, s) == 0 && TimeInDay(tz, s) == 0
            && LocalDay(tz, now) - 6 <= LocalDay(tz, s) <= LocalDay(tz, now)
            && (LocalDay(tz, s) == LocalDay(tz, now) <==> GetDay(tz, now) == 0)
  {
    var k := GetDay(tz, now);
    ShiftDays(tz, now, -k);
    AtLocalParts(tz, LocalDay(tz, now) - k, 0);
  }

  /** The month starts at midnight of the first of the current month. */
  lemma MonthPresetStart(tz: int, now: int)
    ensures var s := PresetWindow(tz, now, "month").value.0;
            CivilFromDays(LocalDay(tz, s)) == CivilFromDays(LocalDay(tz, now)).(day := 1)
            && TimeInDay(tz, s) == 0 && s <= now
  {
    var day := LocalDay(tz, now);
    var c := CivilFromDays(day);
    var first := DaysFromCivil(c.year, c.month, 1);
    var s := AtLocal(tz, first, 0);
    assert PresetWindow(tz, now, "month") == Some((s, EndOfDay(tz, now)));
    AtLocalParts(tz, first, 0);
    CivilOfDays(c.(day := 1), first);
    assert first <= day by {
      DaysCivilRoundTrip(day);
      DayOfMonthOffset(c.year, c.month, c.day);
    }
    DayBounds(tz, now);
  }

  // ---------------------------------------------------------------------------
  // Filter and picker state

  datatype Picker = StartPicker | EndPicker

  /** The date-filter state of the home screen and the handlers that change it. */
  class DateFilter {
    var startDate: Option<int>
    var endDate: Option<int>
    var activeFilter: string
    var customPickerVisible: bool
    var showDatePicker: bool
    var activePicker: Option<Picker>

    /** The custom date buttons show exactly while the custom filter is chosen. */
    predicate PickerMatchesFilter()
      reads this
    {
      customPickerVisible <==> activeFilter == "custom"
    }

    /** The first render: filter `week`, no picker, and the preset effect run once for the week. */
    constructor(tz: int, now: int)
      ensures activeFilter == "week" && !customPickerVisible && !showDatePicker && activePicker == None
      ensures startDate.Some? && endDate.Some?
      ensures PresetWindow(tz, now, "week") == Some((startDate.value, endDate.value))
      ensures PickerMatchesFilter()
    {
      activeFilter := "week";
      customPickerVisible := false;
      showDatePicker := false;
      activePicker := None;
      var range := PresetRange(tz, now, "week");
      startDate := Some(range.value.0);
      endDate := Some(range.value.1);
    }

    /** The preset effect, run when `activeFilter` has changed. */
    method ApplyPreset(tz: int, now: int)
      modifies this
      ensures activeFilter == old(activeFilter) && customPickerVisible == old(customPickerVisible)
      ensures showDatePicker == old(showDatePicker) && activePicker == old(activePicker)
      ensures PresetWindow(tz, now, activeFilter).None? ==> startDate == old(startDate) && endDate == old(endDate)
      ensures PresetWindow(tz, now, activeFilter).Some? ==>
                startDate == Some(PresetWindow(tz, now, activeFilter).value.0)
                && endDate == Some(PresetWindow(tz, now, activeFilter).value.1)
    {
      var range := PresetRange(tz, now, activeFilter);
      if range.Some? {
        startDate := Some(range.value.0);
        endDate := Some(range.value.1);
      }
    }

    /** `handleFilterChange`: choose a filter; the preset effect runs only if the filter changed. */
    method HandleFilterChange(tz: int, now: int, filter: string)
      requires PickerMatchesFilter()
      modifies this
      ensures PickerMatchesFilter()
      ensures activeFilter == filter && (customPickerVisible <==> filter == "custom")
      ensures showDatePicker == old(showDatePicker) && activePicker == old(activePicker)
      ensures filter == old(activeFilter) || filter == "custom" ==> startDate == old(startDate) && endDate == old(endDate)
      ensures filter != old(activeFilter) && filter != "custom" ==>
                startDate == Some(PresetWindow(tz, now, filter).value.0)
                && endDate == Some(PresetWindow(tz, now, filter).value.1)
    {
      var changed := filter != activeFilter;
      activeFilter := filter;
      customPickerVisible := filter == "custom";
      if changed {
        ApplyPreset(tz, now);
      }
    }

    /** `showPicker(type)`: open the picker for one of the two bounds. */
    method ShowPicker(which: Picker)
      modifies this
      ensures activePicker == Some(which) && showDatePicker
      ensures startDate == old(startDate) && endDate == old(endDate)
      ensures activeFilter == old(activeFilter) && customPickerVisible == old(customPickerVisible)
    {
      activePicker := Some(which);
      showDatePicker := true;
    }

    /**
     * `onDateChange`: a picked date goes to the start bound when the start
     * picker is open and to the end bound otherwise; a cancelled pick
     * (no date) changes neither. The picker stays open only on iOS.
     */
    method OnDateChange(selected: Option<int>, isIos: bool)
      modifies this
      ensures showDatePicker == isIos && activePicker == None
      ensures activeFilter == old(activeFilter) && customPickerVisible == old(customPickerVisible)
      ensures selected.None? ==> startDate == old(startDate) && endDate == old(endDate)
      ensures selected.Some? && old(activePicker) == Some(StartPicker) ==>
                startDate == selected && endDate == old(endDate)
      ensures selected.Some? && old(activePicker) != Some(StartPicker) ==>
                endDate == selected && startDate == old(startDate)
    {
      showDatePicker := isIos;
      if selected.Some? {
        if activePicker == Some(StartPicker) {
          startDate := selected;
        } else {
          endDate := selected;
        }
      }
      activePicker := None;
    }

    /** The date the picker opens on: the bound being picked, or now when it is unset. */
    function PickerValue(now: int): (d: int)
      reads this
      ensures activePicker == Some(StartPicker) ==> d == startDate.GetOr(now)
      ensures activePicker != Some(StartPicker) ==> d == endDate.GetOr(now)
    {
      if activePicker == Some(StartPicker) then startDate.GetOr(now) else endDate.GetOr(now)
    }

    /** The lab reports the charts show for the current bounds. */
    function LabShown(tz: int, labData: seq<LabReport>): (r: seq<LabReport>)
      reads this
      ensures SortedBy(r, LabDate)
      ensures multiset(r) == multiset(Filter(labData, KeptTest(LabDate, LowerBound(tz, startDate), UpperBound(tz, endDate))))
      ensures forall x :: x in r <==> x in labData && Kept(LowerBound(tz, startDate), UpperBound(tz, endDate), x.createdAt.at)
    {
      FilteredLab(tz, labData, startDate, endDate)
    }

    /** The BMI entries the chart shows for the current bounds. */
    function BmiShown(tz: int, bmiData: seq<BmiEntry>): (r: seq<BmiEntry>)
      reads this
      ensures SortedBy(r, BmiDate)
      ensures multiset(r) == multiset(Filter(bmiData, KeptTest(BmiDate, LowerBound(tz, startDate), UpperBound(tz, endDate))))
      ensures forall x :: x in r <==> x in bmiData && Kept(LowerBound(tz, startDate), UpperBound(tz, endDate), x.timestamp.at)
    {
      FilteredBmi(tz, bmiData, startDate, endDate)
    }
  }

  // ---------------------------------------------------------------------------
  // Charts

  /** `parseFloat(value) || 0`: the parsed number, or 0 when it does not parse. */
  function ChartValue(text: string): (v: real)
    ensures ParseFloat(text).Num? ==> v == ParseFloat(text).v
    ensures ParseFloat(text).NaN? ==> v == 0.0
  {
    OrZero(ParseFloat(text))
  }

  /** Numbers plot at their value and text without digits plots at 0. */
  lemma ChartValueDefaults(n: nat, junk: string)
    requires NoDigits(junk)
    ensures ChartValue(NatText(n)) == n as real
    ensures ChartValue(junk) == 0.0
  {
    ParseNatText(n);
    NoDigitNoNumber(junk);
  }

  /** One chart value per record, in the order of the filtered list. */
  function Series<T>(data: seq<T>, field: T -> string): (r: seq<real>)
    ensures |r| == |data|
    ensures forall i :: 0 <= i < |data| ==> r[i] == ChartValue(field(data[i]))
  {
    seq(|data|, i requires 0 <= i < |data| => ChartValue(field(data[i])))
  }

  /** What `formatDate` shows: "N/A", "Invalid Date", or the local calendar date. */
  datatype DateLabel = NotAvailable | InvalidDate | OnDate(date: Civil)

  /** `formatDate(date)` for a date field of a record: "N/A" when the field is empty. */
  function FormatDate(tz: int, s: Stamp): (shown: DateLabel)
    ensures s.text == "" <==> shown.NotAvailable?
    ensures s.text != "" ==> (shown.InvalidDate? <==> s.at.None?)
    ensures shown.OnDate? ==> s.at.Some? && ValidCivil(shown.date)
                              && DaysFromCivil(shown.date.year, shown.date.month, shown.date.day) == LocalDay(tz, s.at.value)
  {
    if s.text == "" then NotAvailable
    else match s.at
      case None => InvalidDate
      case Some(t) =>
        CivilFromDaysValid(LocalDay(tz, t));
        DaysCivilRoundTrip(LocalDay(tz, t));
        OnDate(CivilFromDays(LocalDay(tz, t)))
  }

  /** The chart labels: one date label per record. */
  function Labels<T>(tz: int, data: seq<T>, stampOf: T -> Stamp): (r: seq<DateLabel>)
    ensures |r| == |data|
    ensures forall i :: 0 <= i < |data| ==> r[i] == FormatDate(tz, stampOf(data[i]))
  {
    seq(|data|, i requires 0 <= i < |data| => FormatDate(tz, stampOf(data[i])))
  }
}
