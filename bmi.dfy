/**
 * The BMI screen: the statistics its list header reduces the records to,
 * the BMI category bands, the live preview under the form and the
 * submission guard and payload. Record fields are kept as the text the
 * server sent; the screen reads the BMI with `parseFloat`, which lets an
 * unreadable value through as NaN.
 */
module Bmi {
  import opened Wrappers
  import opened Js
  import opened Lists
  import opened IsoTime

  /** One stored measurement. */
  datatype BmiRecord = BmiRecord(timestamp: string, height: string, weight: string, bmi: string)

  /** `parseFloat(item.bmi)`. */
  function BmiOf(r: BmiRecord): JsNum {
    ParseFloat(r.bmi)
  }

  // ---------------------------------------------------------------------------
  // Statistics

  /** `data.map(item => parseFloat(item.bmi))`: the BMIs in record order. */
  function Readings(data: seq<BmiRecord>): (values: seq<JsNum>)
    ensures |values| == |data|
    ensures forall i :: 0 <= i < |data| ==> values[i] == BmiOf(data[i])
  {
    if data == [] then [] else [BmiOf(data[0])] + Readings(data[1..])
  }

  /** The accumulator of the header's reduce; `None` stands for `null`. */
  datatype BmiStats = BmiStats(count: nat, sum: JsNum, min: Option<JsNum>, max: Option<JsNum>, latest: Option<JsNum>)

  /** One step of the reduce: the record's BMI joins the running figures. */
  function Step(acc: BmiStats, bmi: JsNum): BmiStats {
    BmiStats(
      acc.count + 1,
      Add(acc.sum, bmi),
      Some(if acc.min.None? then bmi else Min(acc.min.value, bmi)),
      Some(if acc.max.None? then bmi else Max(acc.max.value, bmi)),
      Some(bmi))
  }

  /** The reduce from `{count: 0, avgBmi: 0, minBmi: null, maxBmi: null, latestBmi: null}` over the BMIs in order. */
  function StatsOf(values: seq<JsNum>): (st: BmiStats)
    ensures st.count == |values|
    ensures st.min.None? <==> values == []
    ensures st.max.None? <==> values == []
    ensures st.latest == Last(values)
    decreases |values|
  {
    if values == [] then BmiStats(0, Num(0.0), None, None, None)
    else Step(StatsOf(values[..|values| - 1]), values[|values| - 1])
  }

  /** The header's statistics of a list of records. */
  function HeaderStats(data: seq<BmiRecord>): BmiStats {
    StatsOf(Readings(data))
  }

  /** Every BMI could be read. */
  predicate AllRead(values: seq<JsNum>) {
    forall i :: 0 <= i < |values| ==> values[i].Num?
  }

  /** The sum of BMIs that could all be read, added from the first. */
  function SumOfRead(values: seq<JsNum>): real
    requires AllRead(values)
  {
    if values == [] then 0.0 else values[0].v + SumOfRead(values[1..])
  }

  lemma {:induction false} SumOfReadSnoc(values: seq<JsNum>, x: JsNum)
    requires AllRead(values + [x])
    ensures AllRead(values) && x.Num?
    ensures SumOfRead(values + [x]) == SumOfRead(values) + x.v
  {
    assert forall i :: 0 <= i < |values| ==> (values + [x])[i] == values[i];
    assert (values + [x])[|values|] == x;
    if values != [] {
      assert (values + [x])[1..] == values[1..] + [x];
      SumOfReadSnoc(values[1..], x);
    } else {
      assert values + [x] == [x];
    }
  }

  /**
   * The running sum is NaN as soon as one BMI could not be read; otherwise
   * it is the sum of all of them.
   */
  lemma {:induction false} StatsSum(values: seq<JsNum>)
    ensures StatsOf(values).sum.Num? <==> AllRead(values)
    ensures AllRead(values) ==> StatsOf(values).sum == Num(SumOfRead(values))
    decreases |values|
  {
    if values != [] {
      var init := values[..|values| - 1];
      var x := values[|values| - 1];
      assert values == init + [x];
      StatsSum(init);
      assert AllRead(values) ==> AllRead(init) by {
        assert forall i :: 0 <= i < |init| ==> init[i] == values[i];
      }
      assert AllRead(init) && x.Num? ==> AllRead(values);
      if AllRead(values) {
        SumOfReadSnoc(init, x);
      }
    }
  }

  /**
   * With every BMI read, `minBmi` and `maxBmi` are numbers bounding every
   * BMI, and each is one of them.
   */
  lemma {:induction false} StatsBounds(values: seq<JsNum>)
    requires values != [] && AllRead(values)
    ensures StatsOf(values).min.value.Num? && StatsOf(values).max.value.Num?
    ensures forall i :: 0 <= i < |values| ==>
      StatsOf(values).min.value.v <= values[i].v <= StatsOf(values).max.value.v
    ensures exists i :: 0 <= i < |values| && values[i] == StatsOf(values).min.value
    ensures exists i :: 0 <= i < |values| && values[i] == StatsOf(values).max.value
    decreases |values|
  {
    var init := values[..|values| - 1];
    var last := |values| - 1;
    var st := StatsOf(values);
    if init != [] {
      assert forall i :: 0 <= i < |init| ==> init[i] == values[i];
      StatsBounds(init);
      var pre := StatsOf(init);
      var i :| 0 <= i < |init| && init[i] == pre.min.value;
      var j :| 0 <= j < |init| && init[j] == pre.max.value;
      assert st.min.value == pre.min.value || st.min.value == values[last];
      assert st.max.value == pre.max.value || st.max.value == values[last];
      assert values[i] == pre.min.value && values[j] == pre.max.value;
    } else {
      assert values[0] == st.min.value && values[0] == st.max.value;
    }
  }

  /** Once one BMI could not be read, `minBmi` and `maxBmi` are NaN for good (as `Math.min` and `Math.max` make them). */
  lemma {:induction false} StatsUnreadable(values: seq<JsNum>)
    requires !AllRead(values)
    ensures StatsOf(values).min == Some(NaN) && StatsOf(values).max == Some(NaN)
    decreases |values|
  {
    var init := values[..|values| - 1];
    if AllRead(init) {
      assert !values[|values| - 1].Num? by {
        assert forall i :: 0 <= i < |init| ==> init[i] == values[i];
      }
    } else {
      StatsUnreadable(init);
    }
  }

  // ---------------------------------------------------------------------------
  // What the stat cards show

  /** `stats.count > 0 ? stats.avgBmi / stats.count : 0`. */
  function Average(st: BmiStats): (avg: JsNum)
    ensures st.count == 0 ==> avg == Num(0.0)
    ensures st.count > 0 ==> (avg.Num? <==> st.sum.Num?)
    ensures st.count > 0 && avg.Num? ==> avg.v == st.sum.v / st.count as real
  {
    if st.count > 0 then Divide(st.sum, st.count as real) else Num(0.0)
  }

  /** The "Average BMI" card: the average with one decimal when it is above 0, "N/A" (`None`) otherwise. */
  function AverageCard(st: BmiStats): Option<real> {
    if Greater(Average(st), 0.0) then Some(Rounded(Average(st).v, 1)) else None
  }

  /** The "Current BMI" card: the latest BMI with one decimal when it is truthy, "N/A" otherwise. */
  function CurrentCard(st: BmiStats): Option<real> {
    if st.latest.Some? && Truthy(st.latest.value) then Some(Rounded(st.latest.value.v, 1)) else None
  }

  /** The "BMI Range" card: `minBmi`-`maxBmi`, each with one decimal, when `minBmi` is truthy, "N/A" otherwise. */
  function RangeCard(st: BmiStats): Option<(JsNum, JsNum)> {
    if st.min.Some? && Truthy(st.min.value) then Some((ToFixed(st.min.value, 1), ToFixed(st.max.GetOr(NaN), 1))) else None
  }

  /** The category under the current BMI, computed only when the latest BMI is truthy. */
  function LatestCategory(st: BmiStats): Option<Category> {
    if st.latest.Some? && Truthy(st.latest.value) then Some(CategoryOf(st.latest.value)) else None
  }

  /** The current-BMI card and its category appear together, exactly when the last BMI is truthy. */
  lemma CurrentCardShown(values: seq<JsNum>)
    ensures var st := StatsOf(values);
            (CurrentCard(st).Some? <==> values != [] && Truthy(values[|values| - 1]))
            && (LatestCategory(st).Some? <==> CurrentCard(st).Some?)
            && (CurrentCard(st).Some? ==> CurrentCard(st).value == Rounded(values[|values| - 1].v, 1))
  {
  }

  lemma ShownAverage(st: BmiStats)
    requires AverageCard(st).Some?
    ensures st.count > 0 && st.sum.Num?
    ensures AverageCard(st).value == Rounded(st.sum.v / st.count as real, 1)
  {
  }

  /**
   * A shown average is the mean of BMIs that were all read, written with one
   * decimal, so within 0.05 of that mean; an empty list shows "N/A".
   */
  lemma AverageCardMean(values: seq<JsNum>)
    ensures values == [] ==> AverageCard(StatsOf(values)).None?
    ensures AverageCard(StatsOf(values)).Some? ==>
      AllRead(values)
      && var mean := SumOfRead(values) / |values| as real;
         AverageCard(StatsOf(values)).value == Rounded(mean, 1)
         && mean - 0.05 <= AverageCard(StatsOf(values)).value <= mean + 0.05
  {
    var st := StatsOf(values);
    if AverageCard(st).Some? {
      ShownAverage(st);
      StatsSum(values);
      assert Pow10(1) == 10;
      RoundedIsNear(SumOfRead(values) / |values| as real, 1);
    }
  }

  /**
   * A range is shown only when every BMI was read, and then it runs from
   * the smallest BMI to the largest, each written with one decimal: both
   * ends are numbers in order, each is some BMI rounded, and every BMI lies
   * within 0.05 of the range.
   */
  lemma RangeCardBounds(values: seq<JsNum>)
    requires RangeCard(StatsOf(values)).Some?
    ensures AllRead(values)
    ensures var (lo, hi) := RangeCard(StatsOf(values)).value;
            lo.Num? && hi.Num? && lo.v <= hi.v
            && (exists i :: 0 <= i < |values| && lo == ToFixed(values[i], 1))
            && (exists i :: 0 <= i < |values| && hi == ToFixed(values[i], 1))
            && forall i :: 0 <= i < |values| ==> lo.v - 0.05 <= values[i].v <= hi.v + 0.05
  {
    if !AllRead(values) {
      StatsUnreadable(values);
    }
    StatsBounds(values);
    var st := StatsOf(values);
    var min := st.min.value.v;
    var max := st.max.value.v;
    assert Pow10(1) == 10;
    RoundedIsNear(min, 1);
    RoundedIsNear(max, 1);
    RoundedMonotone(min, max, 1);
  }

  // ---------------------------------------------------------------------------
  // Categories

  datatype Category = Underweight | Normal | Overweight | Obese

  /** `getBMICategory`: strict upper bounds 18.5, 25 and 30; NaN compares false every time and lands in Obese. */
  function CategoryOf(bmi: JsNum): (c: Category)
    ensures c == Underweight <==> bmi.Num? && bmi.v < 18.5
    ensures c == Normal <==> bmi.Num? && 18.5 <= bmi.v < 25.0
    ensures c == Overweight <==> bmi.Num? && 25.0 <= bmi.v < 30.0
    ensures c == Obese <==> bmi.NaN? || bmi.v >= 30.0
  {
    if bmi.Num? && bmi.v < 18.5 then Underweight
    else if bmi.Num? && bmi.v < 25.0 then Normal
    else if bmi.Num? && bmi.v < 30.0 then Overweight
    else Obese
  }

  function CategoryName(c: Category): string {
    match c
    case Underweight => "Underweight"
    case Normal => "Normal"
    case Overweight => "Overweight"
    case Obese => "Obese"
  }

  function CategoryColor(c: Category): string {
    match c
    case Underweight => "#3B82F6"
    case Normal => "#10B981"
    case Overweight => "#F59E0B"
    case Obese => "#EF4444"
  }

  /** Position of a category on the scale, lightest first. */
  function Rank(c: Category): (n: nat)
    ensures n < 4
  {
    match c
    case Underweight => 0
    case Normal => 1
    case Overweight => 2
    case Obese => 3
  }

  /** A higher BMI never gets a lighter category. */
  lemma CategoryMonotone(a: real, b: real)
    requires a <= b
    ensures Rank(CategoryOf(Num(a))) <= Rank(CategoryOf(Num(b)))
  {
  }

  /** The table colours each row by `getBMICategory(item.bmi)`, where `<` turns the text into a number. */
  function RowColor(r: BmiRecord): string {
    CategoryColor(CategoryOf(ToNumber(r.bmi)))
  }

  /** When the stored text is a plain number, the row colour matches the category of the BMI the header reads. */
  lemma RowColorAgrees(r: BmiRecord)
    requires Trim(r.bmi) != "" && ToNumber(r.bmi).Num?
    ensures RowColor(r) == CategoryColor(CategoryOf(BmiOf(r)))
  {
    NumberAgreesWithParseFloat(r.bmi);
  }

  // ---------------------------------------------------------------------------
  // Preview

  /** `weight / (height * height)` of the parsed inputs. */
  datatype PreviewBmi = NoPreview | Finite(value: real) | Infinite(positive: bool)

  /**
   * `parseFloat(weight) / (parseFloat(height) * parseFloat(height))`: NaN
   * from either input, or 0/0, shows nothing; a height of 0 divides a
   * non-zero weight into an infinity of the weight's sign.
   */
  function Quotient(h: JsNum, w: JsNum): (p: PreviewBmi)
    ensures p.Finite? <==> h.Num? && w.Num? && h.v != 0.0
    ensures p.Finite? ==> p.value * (h.v * h.v) == w.v
    ensures p.Infinite? <==> h.Num? && w.Num? && h.v == 0.0 && w.v != 0.0
  {
    if w.NaN? || h.NaN? then NoPreview
    else if h.v == 0.0 then (if w.v == 0.0 then NoPreview else Infinite(w.v > 0.0))
    else Finite(w.v / (h.v * h.v))
  }

  /** `BmiPreview` of the two inputs as typed. */
  function PreviewOf(height: string, weight: string): PreviewBmi {
    Quotient(ParseFloat(height), ParseFloat(weight))
  }

  /** The category the preview shows; a positive infinity is Obese and a negative one Underweight. */
  function PreviewCategory(p: PreviewBmi): Option<Category> {
    match p
    case NoPreview => None
    case Finite(v) => Some(CategoryOf(Num(v)))
    case Infinite(positive) => Some(if positive then Obese else Underweight)
  }

  /** `formData.height && formData.weight > 0`, where `>` reads the weight with `Number`. */
  predicate PreviewShown(height: string, weight: string) {
    height != "" && Greater(ToNumber(weight), 0.0)
  }

  lemma PositiveQuotient(h: JsNum, w: JsNum)
    requires h.Num? && h.v != 0.0 && w.Num? && w.v > 0.0
    ensures Quotient(h, w).Finite? && Quotient(h, w).value > 0.0
  {
    assert h.v * h.v > 0.0;
  }

  /** A shown preview of a readable non-zero height is a positive BMI of the weight over the squared height. */
  lemma PreviewPositive(height: string, weight: string)
    requires PreviewShown(height, weight)
    requires ParseFloat(height).Num? && ParseFloat(height).v != 0.0
    ensures PreviewOf(height, weight).Finite?
    ensures PreviewOf(height, weight).value > 0.0
  {
    assert Trim(weight) != "";
    NumberAgreesWithParseFloat(weight);
    PositiveQuotient(ParseFloat(height), ParseFloat(weight));
  }

  // ---------------------------------------------------------------------------
  // Submission

  /** The form state: the chosen instant and the two inputs as typed. */
  datatype BmiForm = BmiForm(datetime: int, height: string, weight: string)

  /** The JSON body posted to `/api/v1/bmi`; `userId` is `None` when `user.id` is undefined. */
  datatype BmiPayload = BmiPayload(datetime: string, height: JsNum, weight: JsNum, userId: Option<string>)

  /** `submitBMI` up to the POST: `None` when the "Missing Fields" alert stops it. */
  function SubmitBmi(form: BmiForm, userId: Option<string>): (r: Option<BmiPayload>)
    ensures r.None? <==> form.height == "" || form.weight == ""
    ensures r.Some? ==> r.value.height == ParseFloat(form.height) && r.value.weight == ParseFloat(form.weight)
                        && r.value.userId == userId
  {
    if form.height == "" || form.weight == "" then None
    else Some(BmiPayload(PayloadDateTime(form.datetime), ParseFloat(form.height), ParseFloat(form.weight), userId))
  }

  /** An accepted form sends the chosen instant, which the server reads back to the second. */
  lemma SubmitBmiPayload(form: BmiForm, userId: Option<string>)
    requires form.height != "" && form.weight != ""
    requires 0 <= UtcFields(form.datetime).year <= 9999
    ensures SubmitBmi(form, userId).Some?
    ensures ParseDateTime(SubmitBmi(form, userId).value.datetime) == Some(WholeSeconds(form.datetime))
  {
    PayloadRoundTrip(form.datetime);
  }

  /** A height and a weight typed as digits with an optional fractional part (metres such as "1.75", kilograms such as "70") arrive as the numbers they write. */
  lemma SubmitBmiMeasures(form: BmiForm, userId: Option<string>, hw: string, hf: string, ww: string, wf: string)
    requires |hw| > 0 && AllDigits(hw) && AllDigits(hf) && form.height == DecimalText(hw, hf)
    requires |ww| > 0 && AllDigits(ww) && AllDigits(wf) && form.weight == DecimalText(ww, wf)
    ensures SubmitBmi(form, userId).Some?
    ensures SubmitBmi(form, userId).value.height == Num(Magnitude(hw, hf))
    ensures SubmitBmi(form, userId).value.weight == Num(Magnitude(ww, wf))
  {
    ParseDecimalText(hw, hf);
    ParseDecimalText(ww, wf);
  }

  /** The form after a submission: cleared, with a fresh instant, only once the server accepted it. */
  function AfterSubmit(form: BmiForm, accepted: bool, now: int): (next: BmiForm)
    ensures accepted ==> next == BmiForm(now, "", "")
    ensures !accepted ==> next == form
  {
    if accepted then BmiForm(now, "", "") else form
  }

  /** A cleared form cannot be sent again until both inputs are filled in. */
  lemma ResetRefusesResubmit(form: BmiForm, now: int, userId: Option<string>)
    ensures SubmitBmi(AfterSubmit(form, true, now), userId).None?
  {
  }
}
