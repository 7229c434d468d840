/**
 * The eye vision screen: vision-quality bands, the per-test acuity means
 * shared by the statistics and the chart, the average cards, and the
 * submission guard and payload. A stored test maps the keys `L1`..`L6` and
 * `R1`..`R6` to acuity values kept as the text the server sent; a missing
 * key reads as `undefined`, which `parseFloat(x) || 0` turns into 0 like any
 * other unreadable value.
 */
module Eye {
  import opened Wrappers
  import opened Js
  import opened Lists
  import opened IsoTime

  const LEFT_KEYS: seq<string> := ["L1", "L2", "L3", "L4", "L5", "L6"]
  const RIGHT_KEYS: seq<string> := ["R1", "R2", "R3", "R4", "R5", "R6"]

  /** One stored eye test. */
  datatype EyeRecord = EyeRecord(datetime: string, fields: map<string, string>)

  // ---------------------------------------------------------------------------
  // Vision quality

  datatype Quality = Excellent | Good | Normal | Fair | Poor

  /** `getVisionQuality`: inclusive lower bounds 1.0, 0.8, 0.6 and 0.4; NaN fails every comparison and lands in Poor. */
  function QualityOf(value: JsNum): (q: Quality)
    ensures q == Excellent <==> value.Num? && value.v >= 1.0
    ensures q == Good <==> value.Num? && 0.8 <= value.v < 1.0
    ensures q == Normal <==> value.Num? && 0.6 <= value.v < 0.8
    ensures q == Fair <==> value.Num? && 0.4 <= value.v < 0.6
    ensures q == Poor <==> value.NaN? || value.v < 0.4
  {
    if value.Num? && value.v >= 1.0 then Excellent
    else if value.Num? && value.v >= 0.8 then Good
    else if value.Num? && value.v >= 0.6 then Normal
    else if value.Num? && value.v >= 0.4 then Fair
    else Poor
  }

  function QualityName(q: Quality): string {
    match q
    case Excellent => "Excellent"
    case Good => "Good"
    case Normal => "Normal"
    case Fair => "Fair"
    case Poor => "Poor"
  }

  /** Position of a quality on the scale, best vision first. */
  function Rank(q: Quality): (n: nat)
    ensures n < 5
  {
    match q
    case Excellent => 0
    case Good => 1
    case Normal => 2
    case Fair => 3
    case Poor => 4
  }

  /** A higher acuity never gets a worse quality. */
  lemma QualityMonotone(a: real, b: real)
    requires a <= b
    ensures Rank(QualityOf(Num(b))) <= Rank(QualityOf(Num(a)))
  {
  }

  // ---------------------------------------------------------------------------
  // Per-test means

  /** `parseFloat(item[key])` for each key, in key order. */
  function ReadingsAt(item: EyeRecord, keys: seq<string>): (values: seq<JsNum>)
    ensures |values| == |keys|
    ensures forall i :: 0 <= i < |keys| ==>
      values[i] == if keys[i] in item.fields then ParseFloat(item.fields[keys[i]]) else NaN
  {
    if keys == [] then []
    else
      [if keys[0] in item.fields then ParseFloat(item.fields[keys[0]]) else NaN] + ReadingsAt(item, keys[1..])
  }

  /** Both eyes of one test as `parseFloat` reads them. */
  datatype EyeReadings = EyeReadings(left: seq<JsNum>, right: seq<JsNum>)

  function ReadingsOf(item: EyeRecord): EyeReadings {
    EyeReadings(ReadingsAt(item, LEFT_KEYS), ReadingsAt(item, RIGHT_KEYS))
  }

  /** The readings of every test, in record order. */
  function AllReadings(data: seq<EyeRecord>): (rs: seq<EyeReadings>)
    ensures |rs| == |data|
    ensures forall i :: 0 <= i < |data| ==> rs[i] == ReadingsOf(data[i])
  {
    if data == [] then [] else [ReadingsOf(data[0])] + AllReadings(data[1..])
  }

  /** `keys.reduce((sum, key) => sum + (parseFloat(item[key]) || 0), 0)` over readings taken in key order. */
  function KeySum(values: seq<JsNum>): real
    decreases |values|
  {
    if values == [] then 0.0 else KeySum(values[..|values| - 1]) + OrZero(values[|values| - 1])
  }

  /** The reduce over the keys adds every readable value and nothing for the rest. */
  lemma {:induction false} KeySumIsSum(values: seq<JsNum>)
    ensures KeySum(values) == Sum(values, OrZero)
    decreases |values|
  {
    if values != [] {
      var init := values[..|values| - 1];
      var x := values[|values| - 1];
      assert values == init + [x];
      KeySumIsSum(init);
      SumSnoc(init, x, OrZero);
    }
  }

  /** The mean acuity of one eye: the key sum over six. */
  function LeftMean(r: EyeReadings): real {
    KeySum(r.left) / 6.0
  }

  function RightMean(r: EyeReadings): real {
    KeySum(r.right) / 6.0
  }

  // ---------------------------------------------------------------------------
  // Statistics

  /** The accumulator of `EyeStats`' reduce. */
  datatype EyeTotals = EyeTotals(count: nat, sumLeft: real, sumRight: real)

  /** The reduce from `{count: 0, avgLeft: 0, avgRight: 0}`, one test at a time from the first. */
  function TotalsOf(rs: seq<EyeReadings>): (t: EyeTotals)
    ensures t.count == |rs|
    decreases |rs|
  {
    if rs == [] then EyeTotals(0, 0.0, 0.0)
    else
      var acc := TotalsOf(rs[..|rs| - 1]);
      var item := rs[|rs| - 1];
      EyeTotals(acc.count + 1, acc.sumLeft + LeftMean(item), acc.sumRight + RightMean(item))
  }

  /** `EyeChart`'s two series: one mean per test, in record order. */
  function Series(rs: seq<EyeReadings>): (series: (seq<real>, seq<real>))
    ensures |series.0| == |rs| && |series.1| == |rs|
    ensures forall i :: 0 <= i < |rs| ==> series.0[i] == LeftMean(rs[i]) && series.1[i] == RightMean(rs[i])
  {
    (seq(|rs|, i requires 0 <= i < |rs| => LeftMean(rs[i])),
     seq(|rs|, i requires 0 <= i < |rs| => RightMean(rs[i])))
  }

  /** What the trends card shows: "No data to display." (`None`) for no tests, otherwise `EyeChart`'s two series. */
  function ChartOf(data: seq<EyeRecord>): (chart: Option<(seq<real>, seq<real>)>)
    ensures chart.None? <==> data == []
    ensures chart.Some? ==> |chart.value.0| == |data| && |chart.value.1| == |data|
                            && forall i :: 0 <= i < |data| ==>
                                 chart.value.0[i] == LeftMean(ReadingsOf(data[i]))
                                 && chart.value.1[i] == RightMean(ReadingsOf(data[i]))
  {
    if data == [] then None else Some(Series(AllReadings(data)))
  }

  function Id(x: real): real { x }

  lemma {:induction false} SumOfMeans(rs: seq<EyeReadings>)
    ensures Sum(Series(rs).0, Id) == Sum(rs, LeftMean)
    ensures Sum(Series(rs).1, Id) == Sum(rs, RightMean)
    decreases |rs|
  {
    if rs != [] {
      SumOfMeans(rs[1..]);
      assert Series(rs).0[1..] == Series(rs[1..]).0;
      assert Series(rs).1[1..] == Series(rs[1..]).1;
    }
  }

  /** The reduce's totals are the sums of the per-test means. */
  lemma {:induction false} TotalsAreSums(rs: seq<EyeReadings>)
    ensures TotalsOf(rs).sumLeft == Sum(rs, LeftMean)
    ensures TotalsOf(rs).sumRight == Sum(rs, RightMean)
    decreases |rs|
  {
    if rs != [] {
      var init := rs[..|rs| - 1];
      var item := rs[|rs| - 1];
      assert rs == init + [item];
      TotalsAreSums(init);
      SumSnoc(init, item, LeftMean);
      SumSnoc(init, item, RightMean);
    }
  }

  /** The statistics and the chart use the same per-test means: the totals are the sums of the chart series. */
  lemma TotalsMatchChart(rs: seq<EyeReadings>)
    ensures TotalsOf(rs).sumLeft == Sum(Series(rs).0, Id)
    ensures TotalsOf(rs).sumRight == Sum(Series(rs).1, Id)
  {
    TotalsAreSums(rs);
    SumOfMeans(rs);
  }

  /** An average card: `(total / count).toFixed(2)`, or "N/A" (`None`) without tests. */
  function AverageCard(total: real, count: nat): Option<real> {
    if count > 0 then Some(Rounded(total / count as real, 2)) else None
  }

  /**
   * The quality under a card, shown only when the card is not "N/A"; it
   * classifies the card's two-decimal text, which `>=` reads back as a number.
   */
  function Subtitle(card: Option<real>): Option<Quality> {
    if card.Some? then Some(QualityOf(Num(card.value))) else None
  }

  /** What `EyeStats` shows for each eye: the card and its quality. */
  datatype EyeSummary = EyeSummary(avgLeft: Option<real>, avgRight: Option<real>,
                                   leftQuality: Option<Quality>, rightQuality: Option<Quality>)

  /** With at least one test a card shows the mean rounded to two decimals, which is within 0.005 of it. */
  lemma CardNear(total: real, count: nat)
    requires count > 0
    ensures AverageCard(total, count).Some?
    ensures total / count as real - 0.005 <= AverageCard(total, count).value <= total / count as real + 0.005
  {
    RoundedIsNear(total / count as real, 2);
    assert Pow10(2) == 100;
  }

  /** `EyeStats` over the tests' readings. */
  function SummaryFrom(rs: seq<EyeReadings>): EyeSummary {
    var t := TotalsOf(rs);
    var left := AverageCard(t.sumLeft, t.count);
    var right := AverageCard(t.sumRight, t.count);
    EyeSummary(left, right, Subtitle(left), Subtitle(right))
  }

  function SummaryOf(data: seq<EyeRecord>): EyeSummary {
    SummaryFrom(AllReadings(data))
  }

  /**
   * The cards are "N/A", and carry no quality, exactly when there are no
   * tests; otherwise each card is within 0.005 of the mean of the per-test
   * means and its quality is that of the card's value.
   */
  lemma SummaryMeaning(rs: seq<EyeReadings>)
    ensures var s := SummaryFrom(rs);
            (s.avgLeft.None? <==> rs == []) && (s.avgRight.None? <==> rs == [])
            && (s.leftQuality.None? <==> rs == []) && (s.rightQuality.None? <==> rs == [])
            && (rs != [] ==>
                  var meanLeft := Sum(rs, LeftMean) / |rs| as real;
                  var meanRight := Sum(rs, RightMean) / |rs| as real;
                  meanLeft - 0.005 <= s.avgLeft.value <= meanLeft + 0.005
                  && meanRight - 0.005 <= s.avgRight.value <= meanRight + 0.005
                  && s.leftQuality == Some(QualityOf(Num(s.avgLeft.value)))
                  && s.rightQuality == Some(QualityOf(Num(s.avgRight.value))))
  {
    TotalsAreSums(rs);
    if rs != [] {
      CardNear(Sum(rs, LeftMean), |rs|);
      CardNear(Sum(rs, RightMean), |rs|);
    }
  }

  /** Because the quality reads the rounded card, a mean just under 1.0 is already rated Excellent. */
  lemma RoundedCardLiftsQuality()
    ensures QualityOf(Num(0.996)) == Good
    ensures AverageCard(0.996, 1) == Some(1.0)
    ensures Subtitle(AverageCard(0.996, 1)) == Some(Excellent)
  {
    assert Pow10(2) == 100;
    assert (0.996 * 100.0 + 0.5).Floor == 100;
  }

  // ---------------------------------------------------------------------------
  // Submission

  /** The form state: the chosen instant, then the acuity inputs in the order `Object.entries` lists them. */
  datatype EyeForm = EyeForm(datetime: int, acuity: seq<(string, string)>)

  /** The form as it starts and as a successful submission leaves it: every acuity key empty. */
  function EmptyForm(now: int): (f: EyeForm)
    ensures |f.acuity| == 12
    ensures forall i :: 0 <= i < 12 ==> f.acuity[i] == ((LEFT_KEYS + RIGHT_KEYS)[i], "")
  {
    EyeForm(now, seq(12, i requires 0 <= i < 12 => ((LEFT_KEYS + RIGHT_KEYS)[i], "")))
  }

  /** `Object.values(formData).some(val => val === "")`; the date is an object and never `""`. */
  predicate HasEmptyInput(f: EyeForm) {
    exists i :: 0 <= i < |f.acuity| && f.acuity[i].1 == ""
  }

  /** A value in the JSON body: text, a number, or `undefined` (which `JSON.stringify` leaves out). */
  datatype PayloadValue = Text(text: string) | Number(n: JsNum) | Undefined

  /** `parseFloat` of an acuity input, as the reduce stores it. */
  function Acuity(text: string): PayloadValue {
    Number(ParseFloat(text))
  }

  /** The body the reduce writes, one key after another, into `base`, converting each input with `convert`. */
  function Written(base: map<string, PayloadValue>, entries: seq<(string, string)>, convert: string -> PayloadValue): map<string, PayloadValue>
    decreases |entries|
  {
    if entries == [] then base
    else
      var last := entries[|entries| - 1];
      Written(base, entries[..|entries| - 1], convert)[last.0 := convert(last.1)]
  }

  /** Writing one more entry of a list is writing the shorter prefix and then that entry. */
  lemma WrittenStep(base: map<string, PayloadValue>, entries: seq<(string, string)>, convert: string -> PayloadValue,
                    i: nat, next: nat)
    requires i < |entries| && next == i + 1
    ensures Written(base, entries[..next], convert) == Written(base, entries[..i], convert)[entries[i].0 := convert(entries[i].1)]
  {
    assert entries[..next][..i] == entries[..i];
  }

  /** The body with the date already written as `stamp`: the date, each acuity input in turn, then `user_id`. */
  function PayloadWith(stamp: string, acuity: seq<(string, string)>, userId: Option<string>): map<string, PayloadValue> {
    Written(map["datetime" := Text(stamp)], acuity, Acuity)["user_id" := if userId.Some? then Text(userId.value) else Undefined]
  }

  /** The JSON body posted to `/api/v1/eye`. */
  function PayloadOf(f: EyeForm, userId: Option<string>): map<string, PayloadValue> {
    PayloadWith(PayloadDateTime(f.datetime), f.acuity, userId)
  }

  /** The reduce over `Object.entries(formData)`: the date, written as `stamp`, then each acuity key in turn; then `user_id`. */
  method BuildPayload(stamp: string, acuity: seq<(string, string)>, userId: Option<string>) returns (payload: map<string, PayloadValue>)
    ensures payload == PayloadWith(stamp, acuity, userId)
  {
    var base := map["datetime" := Text(stamp)];
    payload := base;
    for i := 0 to |acuity|
      invariant payload == Written(base, acuity[..i], Acuity)
    {
      WrittenStep(base, acuity, Acuity, i, i + 1);
      payload := payload[acuity[i].0 := Acuity(acuity[i].1)];
    }
    assert acuity[..|acuity|] == acuity;
    payload := payload["user_id" := if userId.Some? then Text(userId.value) else Undefined];
  }

  /**
   * `submitEyeTest` up to the POST: `None` when the "Missing Fields" alert
   * stops it; otherwise the body its reduce builds.
   */
  method SubmitEye(f: EyeForm, userId: Option<string>) returns (r: Option<map<string, PayloadValue>>)
    ensures r.None? <==> HasEmptyInput(f)
    ensures r.Some? ==> r.value == PayloadOf(f, userId)
  {
    if HasEmptyInput(f) {
      return None;
    }
    var payload := BuildPayload(PayloadDateTime(f.datetime), f.acuity, userId);
    return Some(payload);
  }

  /** Keys that appear once each and are neither `datetime` nor `user_id`, as in the screen's form. */
  predicate DistinctKeys(entries: seq<(string, string)>) {
    (forall i, j :: 0 <= i < j < |entries| ==> entries[i].0 != entries[j].0)
    && (forall i :: 0 <= i < |entries| ==> entries[i].0 != "datetime" && entries[i].0 != "user_id")
  }

  /** The reduce writes exactly the keys of its entries on top of `base`. */
  lemma {:induction false} WrittenKeys(base: map<string, PayloadValue>, entries: seq<(string, string)>, convert: string -> PayloadValue)
    ensures Written(base, entries, convert).Keys == base.Keys + set i | 0 <= i < |entries| :: entries[i].0
    decreases |entries|
  {
    if entries != [] {
      var init := entries[..|entries| - 1];
      WrittenKeys(base, init, convert);
      var keys := set i | 0 <= i < |entries| :: entries[i].0;
      var initKeys := set i | 0 <= i < |init| :: init[i].0;
      assert keys == initKeys + {entries[|entries| - 1].0} by {
        forall k | k in keys ensures k in initKeys + {entries[|entries| - 1].0} {
          var i :| 0 <= i < |entries| && entries[i].0 == k;
          if i < |init| {
            assert init[i].0 == k;
          }
        }
        forall k | k in initKeys ensures k in keys {
          var i :| 0 <= i < |init| && init[i].0 == k;
          assert entries[i].0 == k;
        }
      }
    }
  }

  /** When no key repeats, each written key holds its own input, converted. */
  lemma {:induction false} WrittenValues(base: map<string, PayloadValue>, entries: seq<(string, string)>, convert: string -> PayloadValue)
    requires forall i, j :: 0 <= i < j < |entries| ==> entries[i].0 != entries[j].0
    ensures forall i :: 0 <= i < |entries| ==>
      entries[i].0 in Written(base, entries, convert) && Written(base, entries, convert)[entries[i].0] == convert(entries[i].1)
    decreases |entries|
  {
    if entries != [] {
      var init := entries[..|entries| - 1];
      WrittenValues(base, init, convert);
      forall i | 0 <= i < |entries|
        ensures entries[i].0 in Written(base, entries, convert) && Written(base, entries, convert)[entries[i].0] == convert(entries[i].1)
      {
        if i < |init| {
          assert init[i] == entries[i];
        }
      }
    }
  }

  /** A key of `base` that no entry names keeps its value. */
  lemma {:induction false} WrittenKeeps(base: map<string, PayloadValue>, entries: seq<(string, string)>, convert: string -> PayloadValue, k: string)
    requires k in base
    requires forall i :: 0 <= i < |entries| ==> entries[i].0 != k
    ensures k in Written(base, entries, convert) && Written(base, entries, convert)[k] == base[k]
    decreases |entries|
  {
    if entries != [] {
      var init := entries[..|entries| - 1];
      assert forall i :: 0 <= i < |init| ==> init[i] == entries[i];
      WrittenKeeps(base, init, convert, k);
    }
  }

  /**
   * When no key repeats and none is `datetime` or `user_id`, the body holds
   * exactly `datetime`, the acuity keys and `user_id`: the date text, each
   * acuity input through `parseFloat`, and the user.
   */
  lemma PayloadKeys(stamp: string, acuity: seq<(string, string)>, userId: Option<string>)
    requires DistinctKeys(acuity)
    ensures var p := PayloadWith(stamp, acuity, userId);
            p.Keys == {"datetime", "user_id"} + (set i | 0 <= i < |acuity| :: acuity[i].0)
            && (forall i :: 0 <= i < |acuity| ==> p[acuity[i].0] == Acuity(acuity[i].1))
            && p["datetime"] == Text(stamp)
            && p["user_id"] == if userId.Some? then Text(userId.value) else Undefined
  {
    var base := map["datetime" := Text(stamp)];
    WrittenKeys(base, acuity, Acuity);
    WrittenValues(base, acuity, Acuity);
    WrittenKeeps(base, acuity, Acuity, "datetime");
  }

  /** The date in the body reads back as the chosen instant, to the second (years 0 to 9999). */
  lemma PayloadDate(f: EyeForm, userId: Option<string>)
    requires DistinctKeys(f.acuity)
    requires 0 <= UtcFields(f.datetime).year <= 9999
    ensures var p := PayloadOf(f, userId);
            "datetime" in p && p["datetime"].Text? && ParseDateTime(p["datetime"].text) == Some(WholeSeconds(f.datetime))
  {
    PayloadKeys(PayloadDateTime(f.datetime), f.acuity, userId);
    PayloadRoundTrip(f.datetime);
  }

  /** The form after a submission: cleared only once the server accepted it. */
  function AfterSubmit(f: EyeForm, accepted: bool, now: int): (next: EyeForm)
    ensures accepted ==> next == EmptyForm(now)
    ensures !accepted ==> next == f
  {
    if accepted then EmptyForm(now) else f
  }

  /** A cleared form is refused until every acuity is filled in again. */
  lemma ResetRefusesResubmit(f: EyeForm, now: int)
    ensures HasEmptyInput(AfterSubmit(f, true, now))
  {
    assert AfterSubmit(f, true, now).acuity[0].1 == "";
  }
}
