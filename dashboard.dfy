/**
 * The fluid-balance dashboard: a time window chosen by a range name, the
 * records inside it, their totals, the chart points (one per record, or one
 * per day) and the query string that reports a new intake or output.
 */
module Dashboard {
  import opened Wrappers
  import opened Calendar
  import opened Clock
  import opened Text
  import opened Lists

  const API_BASE := "https://nearyala.lk"

  /**
   * One entry of the user's fluid log. `at` is `new Date(timestamp)`:
   * the instant the server's timestamp text denotes, or None when it is an
   * Invalid Date (which compares false against every bound).
   */
  datatype FluidRecord = FluidRecord(timestamp: string, at: Option<int>, waterIn: real, waterOut: real)

  /** `[startDate, endDate]`, or a window whose bounds are Invalid Dates. */
  datatype Window = Between(start: int, end: int) | InvalidWindow

  /** `d >= startDate && d <= endDate`. */
  predicate Covers(w: Window, x: int) {
    w.Between? && w.start <= x <= w.end
  }

  predicate InWindow(w: Window, r: FluidRecord) {
    r.at.Some? && Covers(w, r.at.value)
  }

  // ---------------------------------------------------------------------------
  // Window resolution

  /** The window a range stands for, stated in days on the local clock. */
  function RangeWindow(tz: int, now: int, range: string, customDate: string, customAt: Option<int>): Window {
    if range == "today" then Between(StartOfDay(tz, now), now)
    else if range == "yesterday" then Between(StartOfDay(tz, now - DAY_MS), EndOfDay(tz, now - DAY_MS))
    else if range == "week" then Between(now - 7 * DAY_MS, now)
    else if range == "month" then
      var c := CivilFromDays(LocalDay(tz, now));
      var p := PrevMonth(c.year, c.month);
      Between(now - DaysInMonth(p.0, p.1) * DAY_MS, now)
    else if range == "custom" then
      if customDate == "" then Between(StartOfDay(tz, now), now)
      else match customAt
        case Some(d) => Between(StartOfDay(tz, d), EndOfDay(tz, d))
        case None => InvalidWindow
    else Between(0, now)
  }

  /**
   * The window `filterData` builds by setting fields of `Date` objects one
   * after the other. `now` is the current instant and `customAt` the instant
   * `new Date(customDate)` denotes, if it is a valid date.
   */
  method ResolveWindow(tz: int, now: int, range: string, customDate: string, customAt: Option<int>)
    returns (w: Window)
    ensures w == RangeWindow(tz, now, range, customDate, customAt)
  {
    var startDate: int;
    var endDate: int;
    if range == "today" {
      startDate := SetHours(tz, now, 0, 0, 0, 0);
      endDate := now;
    } else if range == "yesterday" {
      startDate := now;
      var startBack := GetDate(tz, startDate) - 1;
      startDate := SetDate(tz, startDate, startBack);
      startDate := SetHours(tz, startDate, 0, 0, 0, 0);
      endDate := now;
      var endBack := GetDate(tz, endDate) - 1;
      endDate := SetDate(tz, endDate, endBack);
      endDate := SetHours(tz, endDate, 23, 59, 59, 999);
      YesterdaySteps(tz, now, startBack);
      YesterdaySteps(tz, now, endBack);
    } else if range == "week" {
      startDate := now;
      var weekBack := GetDate(tz, startDate) - 7;
      startDate := SetDate(tz, startDate, weekBack);
      endDate := now;
      SetDateShifts(tz, now, -7, weekBack);
    } else if range == "month" {
      startDate := now;
      startDate := SetMonth(tz, startDate, GetMonth(tz, startDate) - 1);
      endDate := now;
      SetMonthBack(tz, now);
    } else if range == "custom" {
      if customDate != "" {
        if customAt.None? {
          return InvalidWindow;
        }
        var cDate := customAt.value;
        cDate := SetHours(tz, cDate, 0, 0, 0, 0);
        startDate := cDate;
        cDate := SetHours(tz, cDate, 23, 59, 59, 999);
        endDate := cDate;
        DayBounds(tz, customAt.value);
      } else {
        startDate := SetHours(tz, now, 0, 0, 0, 0);
        endDate := now;
      }
    } else {
      startDate := 0;
      endDate := now;
    }
    w := Between(startDate, endDate);
  }

  /** Going back one day with `setDate` and then to either end of that day gives the bounds of the previous local day. */
  lemma YesterdaySteps(tz: int, now: int, back: int)
    requires back == GetDate(tz, now) - 1
    ensures SetHours(tz, SetDate(tz, now, back), 0, 0, 0, 0) == StartOfDay(tz, now - DAY_MS)
    ensures SetHours(tz, SetDate(tz, now, back), 23, 59, 59, 999) == EndOfDay(tz, now - DAY_MS)
  {
    SetDateShifts(tz, now, -1, back);
  }

  /** Today, and custom without a date, run from local midnight up to the current instant. */
  lemma TodayWindow(tz: int, now: int, x: int)
    ensures Covers(RangeWindow(tz, now, "today", "", None), x)
            <==> LocalDay(tz, x) == LocalDay(tz, now) && x <= now
    ensures RangeWindow(tz, now, "custom", "", None) == RangeWindow(tz, now, "today", "", None)
  {
    DayBounds(tz, now);
  }

  /** Yesterday covers every instant of the previous local day and nothing else. */
  lemma YesterdayWindow(tz: int, now: int, x: int)
    ensures Covers(RangeWindow(tz, now, "yesterday", "", None), x)
            <==> LocalDay(tz, x) == LocalDay(tz, now) - 1
  {
    DayBounds(tz, now - DAY_MS);
    ShiftDays(tz, now, -1);
  }

  /** Week runs from exactly seven days before the current instant up to it; an unknown range from the epoch up to it. */
  lemma WeekAndFallbackWindows(tz: int, now: int, range: string, x: int)
    requires range !in ["today", "yesterday", "week", "month", "custom"]
    ensures Covers(RangeWindow(tz, now, "week", "", None), x) <==> now - 7 * DAY_MS <= x <= now
    ensures Covers(RangeWindow(tz, now, range, "", None), x) <==> 0 <= x <= now
  {
  }

  /** A custom date covers its whole local day; one that does not parse covers nothing. */
  lemma CustomWindow(tz: int, now: int, customDate: string, customAt: Option<int>, x: int)
    requires customDate != ""
    ensures Covers(RangeWindow(tz, now, "custom", customDate, customAt), x)
            <==> customAt.Some? && LocalDay(tz, x) == LocalDay(tz, customAt.value)
  {
    if customAt.Some? {
      DayBounds(tz, customAt.value);
    }
  }

  /**
   * The month window starts on the same day of the previous month at the
   * same time, or, when that month is too short, as many days into the
   * current month as it lacks.
   */
  lemma MonthWindowStart(tz: int, now: int)
    ensures var w := RangeWindow(tz, now, "month", "", None);
            var c := CivilFromDays(LocalDay(tz, now));
            var p := PrevMonth(c.year, c.month);
            var len := DaysInMonth(p.0, p.1);
            var s := CivilFromDays(LocalDay(tz, w.start));
            w.Between? && w.end == now && TimeInDay(tz, w.start) == TimeInDay(tz, now)
            && (c.day <= len ==> s == Civil(p.0, p.1, c.day))
            && (c.day > len ==> s == Civil(c.year, c.month, c.day - len))
  {
    var c := CivilFromDays(LocalDay(tz, now));
    var p := PrevMonth(c.year, c.month);
    var len := DaysInMonth(p.0, p.1);
    var start := RangeWindow(tz, now, "month", "", None).start;
    assert start == SetMonth(tz, now, GetMonth(tz, now) - 1) && start == now - len * DAY_MS by {
      SetMonthBack(tz, now);
    }
    assert TimeInDay(tz, start) == TimeInDay(tz, now) by {
      ShiftDays(tz, now, -len);
    }
    SetMonthBackDate(tz, now);
  }

  // ---------------------------------------------------------------------------
  // Filtering

  /** `allData.filter(item => d >= startDate && d <= endDate)`. */
  function KeepInWindow(all: seq<FluidRecord>, w: Window): (r: seq<FluidRecord>)
    ensures |r| <= |all|
    ensures forall x :: x in r <==> x in all && InWindow(w, x)
  {
    Filter(all, (x: FluidRecord) => InWindow(w, x))
  }

  /** The kept records stay in input order: filtering a concatenation concatenates the results. */
  lemma KeepInWindowInOrder(a: seq<FluidRecord>, b: seq<FluidRecord>, w: Window)
    ensures KeepInWindow(a + b, w) == KeepInWindow(a, w) + KeepInWindow(b, w)
  {
    FilterAppend(a, b, (x: FluidRecord) => InWindow(w, x));
  }

  /** Filtering the filtered log again with the same window keeps all of it. */
  lemma KeepInWindowIdempotent(all: seq<FluidRecord>, w: Window)
    ensures KeepInWindow(KeepInWindow(all, w), w) == KeepInWindow(all, w)
  {
    FilterIdempotent(all, (x: FluidRecord) => InWindow(w, x));
  }

  /** `filterData(allData, range, customDate)`: the records of the log inside the chosen window. */
  method FilterData(tz: int, now: int, all: seq<FluidRecord>, range: string, customDate: string, customAt: Option<int>)
    returns (filtered: seq<FluidRecord>)
    ensures filtered == KeepInWindow(all, RangeWindow(tz, now, range, customDate, customAt))
    ensures forall x :: x in filtered <==> x in all && InWindow(RangeWindow(tz, now, range, customDate, customAt), x)
  {
    var w := ResolveWindow(tz, now, range, customDate, customAt);
    filtered := KeepInWindow(all, w);
  }

  // ---------------------------------------------------------------------------
  // Totals

  datatype Field = WaterIn | WaterOut

  function Amount(r: FluidRecord, f: Field): real {
    match f
    case WaterIn => r.waterIn
    case WaterOut => r.waterOut
  }

  /** The sum of one field over the records. */
  function Total(s: seq<FluidRecord>, f: Field): real {
    if s == [] then 0.0 else Amount(s[0], f) + Total(s[1..], f)
  }

  lemma {:induction false} TotalAppend(a: seq<FluidRecord>, b: seq<FluidRecord>, f: Field)
    ensures Total(a + b, f) == Total(a, f) + Total(b, f)
  {
    if a == [] {
      assert a + b == b;
    } else {
      assert (a + b)[1..] == a[1..] + b;
      TotalAppend(a[1..], b, f);
    }
  }

  datatype FluidStats = FluidStats(totalWaterIn: real, totalUrineOut: real, balance: real)

  /** The `stats` reduce over the filtered records, left to right from all zeros. */
  function Stats(s: seq<FluidRecord>): (r: FluidStats)
    ensures r.totalWaterIn == Total(s, WaterIn)
    ensures r.totalUrineOut == Total(s, WaterOut)
    ensures r.balance == r.totalWaterIn - r.totalUrineOut
  {
    if s == [] then FluidStats(0.0, 0.0, 0.0)
    else
      var acc := Stats(s[..|s| - 1]);
      var item := s[|s| - 1];
      assert s == s[..|s| - 1] + [item];
      TotalAppend(s[..|s| - 1], [item], WaterIn);
      TotalAppend(s[..|s| - 1], [item], WaterOut);
      FluidStats(acc.totalWaterIn + item.waterIn,
                 acc.totalUrineOut + item.waterOut,
                 acc.totalWaterIn + item.waterIn - (acc.totalUrineOut + item.waterOut))
  }

  // ---------------------------------------------------------------------------
  // Chart points

  /** A chart point: its label text (`undefined` when the timestamp has no space) and its two values. */
  datatype ChartPoint = ChartPoint(text: Option<string>, waterIn: real, waterOut: real)

  /** `timestamp.split(" ")[0]`: the date part. */
  function DatePart(timestamp: string): string {
    Split(timestamp, ' ')[0]
  }

  /** `timestamp.split(" ")[1]`: the time part, if there is one. */
  function TimePart(timestamp: string): Option<string> {
    var parts := Split(timestamp, ' ');
    if |parts| > 1 then Some(parts[1]) else None
  }

  /** For a server timestamp `date time` the two parts are the date and the time. */
  lemma TimestampParts(date: string, time: string)
    requires ' ' !in date && ' ' !in time
    ensures DatePart(date + " " + time) == date
    ensures TimePart(date + " " + time) == Some(time)
  {
    SplitAtFirst(date, ' ', time);
    SplitAtFirst(time, ' ', "");
  }

  /** A text without a space is all date part and has no time part. */
  lemma NoSpaceParts(timestamp: string)
    requires ' ' !in timestamp
    ensures DatePart(timestamp) == timestamp && TimePart(timestamp) == None
  {
    SplitAtFirst(timestamp, ' ', "");
  }

  /** The today / yesterday / custom chart: one point per record, in order, labelled with its time. */
  function PerRecordPoints(s: seq<FluidRecord>): (r: seq<ChartPoint>)
    ensures |r| == |s|
    ensures forall i :: 0 <= i < |s| ==> r[i].waterIn == s[i].waterIn && r[i].waterOut == s[i].waterOut
    ensures forall i :: 0 <= i < |s| ==> r[i].text == TimePart(s[i].timestamp)
  {
    seq(|s|, i requires 0 <= i < |s| => ChartPoint(TimePart(s[i].timestamp), s[i].waterIn, s[i].waterOut))
  }

  predicate Distinct(keys: seq<string>) {
    forall i, j :: 0 <= i < j < |keys| ==> keys[i] != keys[j]
  }

  /** The date parts of the records, each once, in order of first appearance. */
  function DayKeys(s: seq<FluidRecord>): (keys: seq<string>)
    ensures Distinct(keys)
    ensures |keys| <= |s|
    ensures forall k :: k in keys <==> exists i :: 0 <= i < |s| && DatePart(s[i].timestamp) == k
  {
    if s == [] then []
    else
      var prev := DayKeys(s[..|s| - 1]);
      var day := DatePart(s[|s| - 1].timestamp);
      assert forall i :: 0 <= i < |s| - 1 ==> s[..|s| - 1][i] == s[i];
      if day in prev then prev else prev + [day]
  }

  /** The records whose date part is `day`. */
  function OnDay(s: seq<FluidRecord>, day: string): seq<FluidRecord> {
    Filter(s, (r: FluidRecord) => DatePart(r.timestamp) == day)
  }

  /** The sum of one field over the records of one day. */
  function DayTotal(s: seq<FluidRecord>, day: string, f: Field): real {
    Total(OnDay(s, day), f)
  }

  /** The week / month chart: one point per day, labelled with the day, holding that day's sums. */
  function DayPoints(s: seq<FluidRecord>): (r: seq<ChartPoint>)
    ensures |r| == |DayKeys(s)|
  {
    var keys := DayKeys(s);
    seq(|keys|, j requires 0 <= j < |keys| =>
      ChartPoint(Some(keys[j]), DayTotal(s, keys[j], WaterIn), DayTotal(s, keys[j], WaterOut)))
  }

  /** Appending a record adds its amount to its own day and to no other. */
  lemma DayTotalSnoc(s: seq<FluidRecord>, x: FluidRecord, day: string, f: Field)
    ensures DayTotal(s + [x], day, f)
            == DayTotal(s, day, f) + (if DatePart(x.timestamp) == day then Amount(x, f) else 0.0)
  {
    var keep := (r: FluidRecord) => DatePart(r.timestamp) == day;
    FilterAppend(s, [x], keep);
    TotalAppend(OnDay(s, day), OnDay([x], day), f);
    assert [x][1..] == [];
  }

  /** A day that no record has sums to zero. */
  lemma DayTotalAbsent(s: seq<FluidRecord>, day: string, f: Field)
    requires day !in DayKeys(s)
    ensures DayTotal(s, day, f) == 0.0
  {
    if OnDay(s, day) != [] {
      OnDayHasKey(s, day);
    }
  }

  lemma OnDayHasKey(s: seq<FluidRecord>, day: string)
    requires OnDay(s, day) != []
    ensures day in DayKeys(s)
  {
    var x := OnDay(s, day)[0];
    assert x in OnDay(s, day);
    var i :| 0 <= i < |s| && s[i] == x;
  }

  /** `acc` maps each day of `prefix` to its point, and `order` lists those days as they were first met. */
  ghost predicate Grouped(prefix: seq<FluidRecord>, acc: map<string, ChartPoint>, order: seq<string>) {
    order == DayKeys(prefix)
    && (forall k :: k in acc <==> k in order)
    && (forall k :: k in acc ==>
          acc[k] == ChartPoint(Some(k), DayTotal(prefix, k, WaterIn), DayTotal(prefix, k, WaterOut)))
  }

  /** One step of the reduce: create the day's point if it is new, then add the record's amounts to it. */
  lemma GroupedStep(prefix: seq<FluidRecord>, item: FluidRecord, date: string,
                    acc: map<string, ChartPoint>, order: seq<string>, base: map<string, ChartPoint>,
                    acc': map<string, ChartPoint>, order': seq<string>)
    requires Grouped(prefix, acc, order)
    requires date == DatePart(item.timestamp)
    requires base == if date in acc then acc else acc[date := ChartPoint(Some(date), 0.0, 0.0)]
    requires order' == if date in acc then order else order + [date]
    requires date in base
    requires acc' == base[date := base[date].(waterIn := base[date].waterIn + item.waterIn,
                                              waterOut := base[date].waterOut + item.waterOut)]
    ensures Grouped(prefix + [item], acc', order')
  {
    assert (prefix + [item])[..|prefix|] == prefix;
    BaseGrouped(prefix, date, acc, order, base);
    forall k | k in acc'
      ensures acc'[k] == ChartPoint(Some(k), DayTotal(prefix + [item], k, WaterIn), DayTotal(prefix + [item], k, WaterOut))
    {
      PointStep(prefix, item, date, base, acc', k);
    }
  }

  /** A new day's point starts at zero, which is what the records so far sum to on that day. */
  lemma BaseGrouped(prefix: seq<FluidRecord>, date: string, acc: map<string, ChartPoint>, order: seq<string>,
                    base: map<string, ChartPoint>)
    requires Grouped(prefix, acc, order)
    requires base == if date in acc then acc else acc[date := ChartPoint(Some(date), 0.0, 0.0)]
    ensures forall j :: j in base ==>
              base[j] == ChartPoint(Some(j), DayTotal(prefix, j, WaterIn), DayTotal(prefix, j, WaterOut))
  {
    if date !in acc {
      DayTotalAbsent(prefix, date, WaterIn);
      DayTotalAbsent(prefix, date, WaterOut);
    }
  }

  /** The point of one day after a step: the record's amounts added when it is the record's day, unchanged otherwise. */
  lemma PointStep(prefix: seq<FluidRecord>, item: FluidRecord, date: string,
                  base: map<string, ChartPoint>, acc': map<string, ChartPoint>, k: string)
    requires date == DatePart(item.timestamp) && date in base && k in acc'
    requires forall j :: j in base ==>
               base[j] == ChartPoint(Some(j), DayTotal(prefix, j, WaterIn), DayTotal(prefix, j, WaterOut))
    requires acc' == base[date := base[date].(waterIn := base[date].waterIn + item.waterIn,
                                              waterOut := base[date].waterOut + item.waterOut)]
    ensures acc'[k] == ChartPoint(Some(k), DayTotal(prefix + [item], k, WaterIn), DayTotal(prefix + [item], k, WaterOut))
  {
    DayTotalSnoc(prefix, item, k, WaterIn);
    DayTotalSnoc(prefix, item, k, WaterOut);
  }

  /**
   * The dictionary reduce of `chartGroupedData`: a map from day to point,
   * updated in place record by record, read out in insertion order. That is
   * the order `Object.values` gives for date parts of the form `YYYY-MM-DD`;
   * number-like keys and names inherited from `Object.prototype` are not
   * modelled.
   */
  method GroupByDay(s: seq<FluidRecord>) returns (points: seq<ChartPoint>)
    ensures points == DayPoints(s)
  {
    var acc: map<string, ChartPoint> := map[];
    var order: seq<string> := [];
    for i := 0 to |s|
      invariant Grouped(s[..i], acc, order)
    {
      ghost var acc0, order0 := acc, order;
      var item := s[i];
      var date := DatePart(item.timestamp);
      if date !in acc {
        acc := acc[date := ChartPoint(Some(date), 0.0, 0.0)];
        order := order + [date];
      }
      ghost var base := acc;
      acc := acc[date := acc[date].(waterIn := acc[date].waterIn + item.waterIn,
                                    waterOut := acc[date].waterOut + item.waterOut)];
      GroupedStep(s[..i], item, date, acc0, order0, base, acc, order);
      TakeOneMore(s, i, i + 1);
    }
    assert s[..|s|] == s;
    points := seq(|order|, j requires 0 <= j < |order| => acc[order[j]]);
  }

  /** The points `chartGroupedData` computes for a range: per record for today, yesterday and custom, per day otherwise. */
  method ChartGroupedData(range: string, filtered: seq<FluidRecord>) returns (points: seq<ChartPoint>)
    ensures range in ["today", "yesterday", "custom"] ==> points == PerRecordPoints(filtered)
    ensures range !in ["today", "yesterday", "custom"] ==> points == DayPoints(filtered)
  {
    if range in ["today", "yesterday", "custom"] {
      points := PerRecordPoints(filtered);
    } else {
      points := GroupByDay(filtered);
    }
  }

  // ---------------------------------------------------------------------------
  // Facts about the day buckets

  /** Sum of one field over the given days. */
  function SumOverDays(s: seq<FluidRecord>, keys: seq<string>, f: Field): real {
    if keys == [] then 0.0 else DayTotal(s, keys[0], f) + SumOverDays(s, keys[1..], f)
  }

  lemma {:induction false} SumOverDaysSnoc(s: seq<FluidRecord>, x: FluidRecord, keys: seq<string>, f: Field)
    requires Distinct(keys)
    ensures SumOverDays(s + [x], keys, f)
            == SumOverDays(s, keys, f) + (if DatePart(x.timestamp) in keys then Amount(x, f) else 0.0)
  {
    if keys != [] {
      DayTotalSnoc(s, x, keys[0], f);
      assert Distinct(keys[1..]);
      SumOverDaysSnoc(s, x, keys[1..], f);
      assert DatePart(x.timestamp) in keys <==> DatePart(x.timestamp) == keys[0] || DatePart(x.timestamp) in keys[1..];
      assert DatePart(x.timestamp) == keys[0] ==> DatePart(x.timestamp) !in keys[1..];
    }
  }

  lemma {:induction false} SumOverDaysAppendKey(s: seq<FluidRecord>, keys: seq<string>, day: string, f: Field)
    ensures SumOverDays(s, keys + [day], f) == SumOverDays(s, keys, f) + DayTotal(s, day, f)
  {
    if keys == [] {
      assert [day][1..] == [];
    } else {
      assert (keys + [day])[1..] == keys[1..] + [day];
      SumOverDaysAppendKey(s, keys[1..], day, f);
    }
  }

  /** Grouping by day loses nothing: the day sums add up to the totals of the records. */
  lemma {:induction false} DaySumsConserve(s: seq<FluidRecord>, f: Field)
    ensures SumOverDays(s, DayKeys(s), f) == Total(s, f)
  {
    if s != [] {
      var p := s[..|s| - 1];
      var x := s[|s| - 1];
      var day := DatePart(x.timestamp);
      assert s == p + [x];
      DaySumsConserve(p, f);
      TotalAppend(p, [x], f);
      SumOverDaysSnoc(p, x, DayKeys(p), f);
      if day !in DayKeys(p) {
        SumOverDaysAppendKey(s, DayKeys(p), day, f);
        DayTotalAbsent(p, day, f);
        DayTotalSnoc(p, x, day, f);
      }
    }
  }

  /** The day points carry exactly the totals the stat cards show. */
  lemma DayPointsMatchStats(s: seq<FluidRecord>)
    ensures SumOverDays(s, DayKeys(s), WaterIn) == Stats(s).totalWaterIn
    ensures SumOverDays(s, DayKeys(s), WaterOut) == Stats(s).totalUrineOut
  {
    DaySumsConserve(s, WaterIn);
    DaySumsConserve(s, WaterOut);
  }

  // ---------------------------------------------------------------------------
  // Chart and table

  datatype ChartData = ChartData(labels: seq<Option<string>>, waterIn: seq<real>, waterOut: seq<real>)

  /** `chartData`: at most five labels, taken from the front, and one value per point in each series. */
  function ChartDataOf(points: seq<ChartPoint>): (d: ChartData)
    ensures |d.labels| == if |points| < 5 then |points| else 5
    ensures forall i :: 0 <= i < |d.labels| ==> d.labels[i] == points[i].text
    ensures |d.waterIn| == |points| && |d.waterOut| == |points|
    ensures forall i :: 0 <= i < |points| ==> d.waterIn[i] == points[i].waterIn && d.waterOut[i] == points[i].waterOut
  {
    var labels := seq(|points|, i requires 0 <= i < |points| => points[i].text);
    ChartData(
      if |labels| < 5 then labels else labels[..5],
      seq(|points|, i requires 0 <= i < |points| => points[i].waterIn),
      seq(|points|, i requires 0 <= i < |points| => points[i].waterOut))
  }

  /** The chart is drawn when there are filtered records and labels; otherwise the empty message shows. */
  predicate ChartShown(filtered: seq<FluidRecord>, d: ChartData) {
    |filtered| > 0 && |d.labels| > 0
  }

  /** With either kind of points, the chart shows exactly when some record is in the window. */
  lemma ChartShownIffRecords(range: string, filtered: seq<FluidRecord>)
    ensures var points := if range in ["today", "yesterday", "custom"] then PerRecordPoints(filtered) else DayPoints(filtered);
            ChartShown(filtered, ChartDataOf(points)) <==> |filtered| > 0
  {
    if |filtered| > 0 {
      assert DatePart(filtered[0].timestamp) in DayKeys(filtered);
    }
  }

  // ---------------------------------------------------------------------------
  // Submission

  /** What pressing Submit does: an alert for a missing value or user, or a request to this URL. */
  datatype Submission = MissingValue | UserNotIdentified | Send(url: string)

  /** The `value` query parameter: intake, output and user, comma-separated (`%2C`). */
  function WaterQuery(inText: string, outText: string, uid: string): string {
    "IN(" + inText + ")%2COUT(" + outText + ")%2C" + uid
  }

  function DataUrl(query: string): string {
    API_BASE + "/api/v1/data?value=" + query
  }

  /** Reads intake, output and user back out of a `value` query parameter. */
  function ParseWaterQuery(q: string): Option<(string, string, string)> {
    if |q| < 3 || q[..3] != "IN(" then None
    else
      var rest := q[3..];
      match Find(rest, ")%2COUT(")
      case None => None
      case Some(i) =>
        var tail := rest[i + 8..];
        match Find(tail, ")%2C")
        case None => None
        case Some(j) => Some((rest[..i], tail[..j], tail[j + 4..]))
  }

  /** Values without a closing parenthesis come back out of the query unchanged. */
  lemma ParseWaterQueryInverse(inText: string, outText: string, uid: string)
    requires ')' !in inText && ')' !in outText
    ensures ParseWaterQuery(WaterQuery(inText, outText, uid)) == Some((inText, outText, uid))
  {
    var q := WaterQuery(inText, outText, uid);
    var tail := outText + ")%2C" + uid;
    assert q[..3] == "IN(";
    assert q[3..] == inText + ")%2COUT(" + tail;
    FindAfterFreePrefix(inText, ")%2COUT(", tail);
    assert (inText + ")%2COUT(" + tail)[|inText| + 8..] == tail;
    assert (inText + ")%2COUT(" + tail)[..|inText|] == inText;
    FindAfterFreePrefix(outText, ")%2C", uid);
    assert tail[..|outText|] == outText;
    assert tail[|outText| + 4..] == uid;
  }

  /** `!user?.user_uid`: no user, or an empty id. */
  predicate UnknownUser(uid: Option<string>) {
    uid.None? || uid.value == ""
  }

  /** `submitWaterIn`: refused without a value, then without a user; otherwise reports the intake with output 0. */
  function SubmitWaterIn(waterIn: string, uid: Option<string>): (r: Submission)
    ensures r.MissingValue? <==> waterIn == ""
    ensures r.UserNotIdentified? <==> waterIn != "" && UnknownUser(uid)
    ensures r.Send? ==> r.url == DataUrl(WaterQuery(waterIn, "0", uid.value))
    ensures r.Send? && ')' !in waterIn ==> ParseWaterQuery(WaterQuery(waterIn, "0", uid.value)) == Some((waterIn, "0", uid.value))
  {
    if waterIn == "" then MissingValue
    else if UnknownUser(uid) then UserNotIdentified
    else
      var q := WaterQuery(waterIn, "0", uid.value);
      assert ')' !in waterIn ==> ParseWaterQuery(q) == Some((waterIn, "0", uid.value)) by {
        if ')' !in waterIn {
          ParseWaterQueryInverse(waterIn, "0", uid.value);
        }
      }
      Send(DataUrl(q))
  }

  /** `submitUrineOut`: the mirror image, reporting the output with intake 0. */
  function SubmitUrineOut(urineOut: string, uid: Option<string>): (r: Submission)
    ensures r.MissingValue? <==> urineOut == ""
    ensures r.UserNotIdentified? <==> urineOut != "" && UnknownUser(uid)
    ensures r.Send? ==> r.url == DataUrl(WaterQuery("0", urineOut, uid.value))
    ensures r.Send? && ')' !in urineOut ==> ParseWaterQuery(WaterQuery("0", urineOut, uid.value)) == Some(("0", urineOut, uid.value))
  {
    if urineOut == "" then MissingValue
    else if UnknownUser(uid) then UserNotIdentified
    else
      var q := WaterQuery("0", urineOut, uid.value);
      assert ')' !in urineOut ==> ParseWaterQuery(q) == Some(("0", urineOut, uid.value)) by {
        if ')' !in urineOut {
          ParseWaterQueryInverse("0", urineOut, uid.value);
        }
      }
      Send(DataUrl(q))
  }
}
