/**
 * The ear health screen: hearing-level bands, the statistics over the
 * stored tests, the chart and history ordering, and the submission guard,
 * payload and form reset. Each test holds three hearing thresholds (high,
 * medium and low frequency, in dB) per ear, kept as the text the server
 * sent; the statistics read them with `parseFloat(x) || 0`, so an
 * unreadable threshold counts as 0.
 */
module Ear {
  import opened Wrappers
  import opened Js
  import opened Lists
  import opened IsoTime

  /** One stored ear test. */
  datatype EarRecord = EarRecord(datetime: string, lHigh: string, lMedium: string, lLow: string,
                                 rHigh: string, rMedium: string, rLow: string)

  // ---------------------------------------------------------------------------
  // Hearing levels

  datatype HearingLevel = Excellent | Good | Normal | Fair | Poor

  /**
   * `getHearingLevel`: inclusive upper bounds 10, 20, 25 and 40 dB. The
   * comparison `value <= 10` reads text with `Number`; NaN fails every
   * comparison and lands in Poor.
   */
  function LevelOf(value: JsNum): (l: HearingLevel)
    ensures l == Excellent <==> value.Num? && value.v <= 10.0
    ensures l == Good <==> value.Num? && 10.0 < value.v <= 20.0
    ensures l == Normal <==> value.Num? && 20.0 < value.v <= 25.0
    ensures l == Fair <==> value.Num? && 25.0 < value.v <= 40.0
    ensures l == Poor <==> value.NaN? || value.v > 40.0
  {
    if value.Num? && value.v <= 10.0 then Excellent
    else if value.Num? && value.v <= 20.0 then Good
    else if value.Num? && value.v <= 25.0 then Normal
    else if value.Num? && value.v <= 40.0 then Fair
    else Poor
  }

  function LevelName(l: HearingLevel): string {
    match l
    case Excellent => "Excellent"
    case Good => "Good"
    case Normal => "Normal"
    case Fair => "Fair"
    case Poor => "Poor"
  }

  function LevelColor(l: HearingLevel): string {
    match l
    case Excellent => "#4ECDC4"
    case Good => "#34A853"
    case Normal => "#4285F4"
    case Fair => "#FBBC05"
    case Poor => "#FF6B6B"
  }

  /** Position of a level on the scale, best hearing first. */
  function Rank(l: HearingLevel): (n: nat)
    ensures n < 5
  {
    match l
    case Excellent => 0
    case Good => 1
    case Normal => 2
    case Fair => 3
    case Poor => 4
  }

  /** A higher threshold never gets a better level. */
  lemma LevelMonotone(a: real, b: real)
    requires a <= b
    ensures Rank(LevelOf(Num(a))) <= Rank(LevelOf(Num(b)))
  {
  }

  /** The level of a threshold as the table and the cards compute it from the stored text. */
  function LevelOfText(text: string): HearingLevel {
    LevelOf(ToNumber(text))
  }

  /** The six thresholds of a history row, left high to right low. */
  function RowThresholds(r: EarRecord): seq<string> {
    [r.lHigh, r.lMedium, r.lLow, r.rHigh, r.rMedium, r.rLow]
  }

  /** The six cell colours of a history row: each cell takes the colour of the level of its own threshold. */
  function RowColors(r: EarRecord): (colors: seq<string>)
    ensures |colors| == 6
    ensures forall k :: 0 <= k < 6 ==> colors[k] == LevelColor(LevelOfText(RowThresholds(r)[k]))
  {
    var t := RowThresholds(r);
    seq(|t|, k requires 0 <= k < |t| => LevelColor(LevelOfText(t[k])))
  }

  /** A cell's colour names the band its threshold falls in, and only that band. */
  lemma RowCellBand(r: EarRecord, k: nat)
    requires k < 6
    ensures var t := ToNumber(RowThresholds(r)[k]);
            var c := RowColors(r)[k];
            (c == "#4ECDC4" <==> t.Num? && t.v <= 10.0)
            && (c == "#34A853" <==> t.Num? && 10.0 < t.v <= 20.0)
            && (c == "#4285F4" <==> t.Num? && 20.0 < t.v <= 25.0)
            && (c == "#FBBC05" <==> t.Num? && 25.0 < t.v <= 40.0)
            && (c == "#FF6B6B" <==> t.NaN? || t.v > 40.0)
  {
    var l := LevelOfText(RowThresholds(r)[k]);
    assert RowColors(r)[k] == LevelColor(l);
    ColorNamesLevel(l);
  }

  /** The five colours are different, so a colour tells its level. */
  lemma ColorNamesLevel(l: HearingLevel)
    ensures LevelColor(l) == "#4ECDC4" <==> l == Excellent
    ensures LevelColor(l) == "#34A853" <==> l == Good
    ensures LevelColor(l) == "#4285F4" <==> l == Normal
    ensures LevelColor(l) == "#FBBC05" <==> l == Fair
    ensures LevelColor(l) == "#FF6B6B" <==> l == Poor
  {
    var c := LevelColor(l);
    match l
    case Excellent => assert c[1] == '4' && c[2] == 'E';
    case Good => assert c[1] == '3';
    case Normal => assert c[1] == '4' && c[2] == '2';
    case Fair => assert c[1] == 'F' && c[2] == 'B';
    case Poor => assert c[1] == 'F' && c[2] == 'F';
  }

  // ---------------------------------------------------------------------------
  // Statistics

  /** One ear's three thresholds as `parseFloat` reads them. */
  datatype Thresholds = Thresholds(high: JsNum, medium: JsNum, low: JsNum)

  /** Both ears of one test as `parseFloat` reads them. */
  datatype EarReadings = EarReadings(left: Thresholds, right: Thresholds)

  function ReadingsOf(r: EarRecord): EarReadings {
    EarReadings(Thresholds(ParseFloat(r.lHigh), ParseFloat(r.lMedium), ParseFloat(r.lLow)),
                Thresholds(ParseFloat(r.rHigh), ParseFloat(r.rMedium), ParseFloat(r.rLow)))
  }

  /** The readings of every test, in record order. */
  function AllReadings(data: seq<EarRecord>): (rs: seq<EarReadings>)
    ensures |rs| == |data|
    ensures forall i :: 0 <= i < |data| ==> rs[i] == ReadingsOf(data[i])
  {
    if data == [] then [] else [ReadingsOf(data[0])] + AllReadings(data[1..])
  }

  /** `(t.high || 0) + (t.medium || 0) + (t.low || 0)) / 3`. */
  function Mean3(t: Thresholds): real {
    (OrZero(t.high) + OrZero(t.medium) + OrZero(t.low)) / 3.0
  }

  function LeftAverage(r: EarReadings): real {
    Mean3(r.left)
  }

  function RightAverage(r: EarReadings): real {
    Mean3(r.right)
  }

  /** The accumulator of `EarStats`' reduce. */
  datatype EarTotals = EarTotals(count: nat, sumLeft: real, sumRight: real)

  /** The reduce from `{count: 0, avgLeft: 0, avgRight: 0}`, one test at a time from the first. */
  function TotalsOf(rs: seq<EarReadings>): (t: EarTotals)
    ensures t.count == |rs|
    decreases |rs|
  {
    if rs == [] then EarTotals(0, 0.0, 0.0)
    else
      var acc := TotalsOf(rs[..|rs| - 1]);
      var item := rs[|rs| - 1];
      EarTotals(acc.count + 1, acc.sumLeft + LeftAverage(item), acc.sumRight + RightAverage(item))
  }

  /** The reduce adds up exactly the per-test averages. */
  lemma {:induction false} TotalsAreSums(rs: seq<EarReadings>)
    ensures TotalsOf(rs).sumLeft == Sum(rs, LeftAverage)
    ensures TotalsOf(rs).sumRight == Sum(rs, RightAverage)
    decreases |rs|
  {
    if rs != [] {
      var init := rs[..|rs| - 1];
      var item := rs[|rs| - 1];
      assert rs == init + [item];
      TotalsAreSums(init);
      SumSnoc(init, item, LeftAverage);
      SumSnoc(init, item, RightAverage);
    }
  }

  /** `(total / count).toFixed(1)`, or "N/A" (`None`) without records. */
  function Mean(total: real, count: nat): Option<real> {
    if count > 0 then Some(Rounded(total / count as real, 1)) else None
  }

  /** With at least one record an average is the mean with one decimal, so within 0.05 of it. */
  lemma MeanNear(total: real, count: nat)
    requires count > 0
    ensures Mean(total, count).Some?
    ensures total / count as real - 0.05 <= Mean(total, count).value <= total / count as real + 0.05
  {
    assert Pow10(1) == 10;
    RoundedIsNear(total / count as real, 1);
  }

  /** What `EarStats` shows: the two averages and, for the latest test, the levels of its two high-frequency thresholds. */
  datatype EarSummary = EarSummary(avgLeft: Option<real>, avgRight: Option<real>,
                                   latestLeftHigh: Option<HearingLevel>, latestRightHigh: Option<HearingLevel>)

  function SummaryOf(data: seq<EarRecord>): EarSummary {
    var t := TotalsOf(AllReadings(data));
    var latest := Last(data);
    EarSummary(
      Mean(t.sumLeft, t.count), Mean(t.sumRight, t.count),
      if latest.Some? then Some(LevelOfText(latest.value.lHigh)) else None,
      if latest.Some? then Some(LevelOfText(latest.value.rHigh)) else None)
  }

  /**
   * The averages are "N/A" exactly when there are no records and otherwise
   * the mean of the per-test averages with one decimal, so within 0.05 of
   * it; the latest cards appear exactly when there is a last record, and
   * show its levels.
   */
  lemma SummaryMeaning(data: seq<EarRecord>)
    ensures var s := SummaryOf(data);
            var rs := AllReadings(data);
            (s.avgLeft.None? <==> data == []) && (s.avgRight.None? <==> data == [])
            && (data != [] ==>
                  var n := |data| as real;
                  s.avgLeft == Some(Rounded(Sum(rs, LeftAverage) / n, 1))
                  && s.avgRight == Some(Rounded(Sum(rs, RightAverage) / n, 1))
                  && Sum(rs, LeftAverage) / n - 0.05 <= s.avgLeft.value <= Sum(rs, LeftAverage) / n + 0.05
                  && Sum(rs, RightAverage) / n - 0.05 <= s.avgRight.value <= Sum(rs, RightAverage) / n + 0.05)
            && (s.latestLeftHigh.None? <==> data == []) && (s.latestRightHigh.None? <==> data == [])
            && (data != [] ==>
                  s.latestLeftHigh == Some(LevelOfText(data[|data| - 1].lHigh))
                  && s.latestRightHigh == Some(LevelOfText(data[|data| - 1].rHigh)))
  {
    var rs := AllReadings(data);
    TotalsAreSums(rs);
    if data != [] {
      MeanNear(Sum(rs, LeftAverage), |data|);
      MeanNear(Sum(rs, RightAverage), |data|);
    }
  }

  /** Thresholds that cannot be read weigh in as 0, so they pull an average down rather than spoiling it. */
  lemma UnreadableCountsAsZero(r: EarRecord)
    requires NoDigits(r.lHigh) && NoDigits(r.lMedium) && NoDigits(r.lLow)
    ensures LeftAverage(ReadingsOf(r)) == 0.0
  {
    NoDigitNoNumber(r.lHigh);
    NoDigitNoNumber(r.lMedium);
    NoDigitNoNumber(r.lLow);
  }

  // ---------------------------------------------------------------------------
  // Chart and history

  /** `EarChart`: nothing for no data, else the left and right high-frequency series, one value per record. */
  function ChartOf(data: seq<EarRecord>): (chart: Option<(seq<JsNum>, seq<JsNum>)>)
    ensures chart.None? <==> data == []
    ensures chart.Some? ==> |chart.value.0| == |data| && |chart.value.1| == |data|
    ensures chart.Some? ==> forall i :: 0 <= i < |data| ==>
      chart.value.0[i] == ParseFloat(data[i].lHigh) && chart.value.1[i] == ParseFloat(data[i].rHigh)
  {
    if data == [] then None
    else Some((seq(|data|, i requires 0 <= i < |data| => ParseFloat(data[i].lHigh)),
               seq(|data|, i requires 0 <= i < |data| => ParseFloat(data[i].rHigh))))
  }

  // ---------------------------------------------------------------------------
  // Submission

  /** The form state: the chosen instant and the six thresholds as typed. */
  datatype EarForm = EarForm(datetime: int, lHigh: string, lMedium: string, lLow: string,
                             rHigh: string, rMedium: string, rLow: string)

  /** `Object.values(formData)` without the date, which is an object and never `""`. */
  function Inputs(f: EarForm): (values: seq<string>)
    ensures |values| == 6
  {
    [f.lHigh, f.lMedium, f.lLow, f.rHigh, f.rMedium, f.rLow]
  }

  /** The JSON body posted to `/api/v1/ear`; `userId` is `None` when `user.user_uid` is undefined. */
  datatype EarPayload = EarPayload(datetime: string, lHigh: string, lMedium: string, lLow: string,
                                   rHigh: string, rMedium: string, rLow: string, userId: Option<string>)

  /** `submitEarTest` up to the POST: `None` when the "Missing Fields" alert stops it. */
  function SubmitEar(form: EarForm, userId: Option<string>): (r: Option<EarPayload>)
    ensures r.None? <==> "" in Inputs(form)
  {
    if "" in Inputs(form) then None
    else Some(EarPayload(PayloadDateTime(form.datetime), form.lHigh, form.lMedium, form.lLow,
                         form.rHigh, form.rMedium, form.rLow, userId))
  }

  /** A sent payload carries the thresholds as typed, the user, and the chosen instant to the second. */
  lemma SubmitEarPayload(form: EarForm, userId: Option<string>)
    requires "" !in Inputs(form)
    requires 0 <= UtcFields(form.datetime).year <= 9999
    ensures SubmitEar(form, userId).Some?
    ensures var p := SubmitEar(form, userId).value;
            [p.lHigh, p.lMedium, p.lLow, p.rHigh, p.rMedium, p.rLow] == Inputs(form)
            && p.userId == userId
            && ParseDateTime(p.datetime) == Some(WholeSeconds(form.datetime))
  {
    PayloadRoundTrip(form.datetime);
  }

  /** The empty form with a fresh instant. */
  function EmptyForm(now: int): EarForm {
    EarForm(now, "", "", "", "", "", "")
  }

  /** The form after a submission: cleared only once the server accepted it. */
  function AfterSubmit(form: EarForm, accepted: bool, now: int): (next: EarForm)
    ensures accepted ==> Inputs(next) == ["", "", "", "", "", ""] && next.datetime == now
    ensures !accepted ==> next == form
  {
    if accepted then EmptyForm(now) else form
  }

  /** A cleared form is refused until every threshold is filled in again. */
  lemma ResetRefusesResubmit(form: EarForm, now: int, userId: Option<string>)
    ensures SubmitEar(AfterSubmit(form, true, now), userId).None?
  {
    assert Inputs(AfterSubmit(form, true, now))[0] == "";
  }
}
