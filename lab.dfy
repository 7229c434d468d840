/**
 * The medical lab report screen: the averages over stored reports, the
 * upload guard and its multipart body, the form reset and the history
 * order. Stored values are the text the server sent; `hcg` is stored and
 * uploaded but takes no part in the averages.
 */
module Lab {
  import opened Wrappers
  import opened Js
  import opened Lists
  import opened Multipart

  /** One stored report. */
  datatype LabRecord = LabRecord(fastingSugar: string, randomSugar: string, cholesterol: string, hcg: string)

  // ---------------------------------------------------------------------------
  // Statistics

  /** The three averaged values of a report as `parseFloat` reads them. */
  datatype LabReadings = LabReadings(fasting: JsNum, random: JsNum, cholesterol: JsNum)

  function ReadingsOf(r: LabRecord): LabReadings {
    LabReadings(ParseFloat(r.fastingSugar), ParseFloat(r.randomSugar), ParseFloat(r.cholesterol))
  }

  function AllReadings(data: seq<LabRecord>): (rs: seq<LabReadings>)
    ensures |rs| == |data|
    ensures forall i :: 0 <= i < |data| ==> rs[i] == ReadingsOf(data[i])
  {
    if data == [] then [] else [ReadingsOf(data[0])] + AllReadings(data[1..])
  }

  function Fasting(r: LabReadings): real { OrZero(r.fasting) }
  function Random(r: LabReadings): real { OrZero(r.random) }
  function Cholesterol(r: LabReadings): real { OrZero(r.cholesterol) }

  /** The accumulator of `ReportStats`' reduce. */
  datatype LabTotals = LabTotals(fasting: real, random: real, cholesterol: real, count: nat)

  /** The reduce from all zeros, one report at a time from the first, each value through `parseFloat(x) || 0`. */
  function TotalsOf(rs: seq<LabReadings>): (t: LabTotals)
    ensures t.count == |rs|
    decreases |rs|
  {
    if rs == [] then LabTotals(0.0, 0.0, 0.0, 0)
    else
      var acc := TotalsOf(rs[..|rs| - 1]);
      var item := rs[|rs| - 1];
      LabTotals(acc.fasting + Fasting(item), acc.random + Random(item), acc.cholesterol + Cholesterol(item), acc.count + 1)
  }

  /** The totals are the sums of the readable values, unreadable ones adding nothing. */
  lemma {:induction false} TotalsAreSums(rs: seq<LabReadings>)
    ensures TotalsOf(rs).fasting == Sum(rs, Fasting)
    ensures TotalsOf(rs).random == Sum(rs, Random)
    ensures TotalsOf(rs).cholesterol == Sum(rs, Cholesterol)
    decreases |rs|
  {
    if rs != [] {
      var init := rs[..|rs| - 1];
      var item := rs[|rs| - 1];
      assert rs == init + [item];
      TotalsAreSums(init);
      SumSnoc(init, item, Fasting);
      SumSnoc(init, item, Random);
      SumSnoc(init, item, Cholesterol);
    }
  }

  /** `getAvg`: `(total / count).toFixed(0)`, or "N/A" (`None`) when there is no report. */
  function Average(total: real, count: nat): Option<real> {
    if count > 0 then Some(Rounded(total / count as real, 0)) else None
  }

  /** With at least one report an average is the mean rounded to a whole number, so within 0.5 of it. */
  lemma AverageNear(total: real, count: nat)
    requires count > 0
    ensures Average(total, count).Some?
    ensures total / count as real - 0.5 <= Average(total, count).value <= total / count as real + 0.5
  {
    RoundedIsNear(total / count as real, 0);
  }

  /** The three cards `ReportStats` shows. */
  datatype LabStats = LabStats(fasting: Option<real>, random: Option<real>, cholesterol: Option<real>)

  function StatsFrom(rs: seq<LabReadings>): LabStats {
    var t := TotalsOf(rs);
    LabStats(Average(t.fasting, t.count), Average(t.random, t.count), Average(t.cholesterol, t.count))
  }

  function ReportStats(data: seq<LabRecord>): LabStats {
    StatsFrom(AllReadings(data))
  }

  /**
   * Every card is "N/A" exactly when there are no reports; otherwise it is
   * within 0.5 of the sum of the readable values over the number of
   * reports, every report counting in the denominator.
   */
  lemma StatsMeaning(rs: seq<LabReadings>)
    ensures var s := StatsFrom(rs);
            (s.fasting.None? <==> rs == []) && (s.random.None? <==> rs == []) && (s.cholesterol.None? <==> rs == [])
            && (rs != [] ==>
                  var n := |rs| as real;
                  Sum(rs, Fasting) / n - 0.5 <= s.fasting.value <= Sum(rs, Fasting) / n + 0.5
                  && Sum(rs, Random) / n - 0.5 <= s.random.value <= Sum(rs, Random) / n + 0.5
                  && Sum(rs, Cholesterol) / n - 0.5 <= s.cholesterol.value <= Sum(rs, Cholesterol) / n + 0.5)
  {
    TotalsAreSums(rs);
    if rs != [] {
      AverageNear(Sum(rs, Fasting), |rs|);
      AverageNear(Sum(rs, Random), |rs|);
      AverageNear(Sum(rs, Cholesterol), |rs|);
    }
  }

  /** The `hcg` value of a report has no effect on the averages. */
  lemma HcgIgnored(data: seq<LabRecord>, i: nat, hcg: string)
    requires i < |data|
    ensures ReportStats(data[i := data[i].(hcg := hcg)]) == ReportStats(data)
  {
    var changed := data[i := data[i].(hcg := hcg)];
    assert AllReadings(changed) == AllReadings(data) by {
      forall j | 0 <= j < |data|
        ensures AllReadings(changed)[j] == AllReadings(data)[j]
      {
        assert changed[j].fastingSugar == data[j].fastingSugar;
        assert changed[j].randomSugar == data[j].randomSugar;
        assert changed[j].cholesterol == data[j].cholesterol;
      }
    }
  }

  // ---------------------------------------------------------------------------
  // Upload

  /** The form: the four text inputs and the picked image, if any. */
  datatype LabForm = LabForm(fastingSugar: string, randomSugar: string, cholesterol: string, hcg: string,
                             reportImage: Option<Image>)

  /** The form as it starts and as a successful upload leaves it. */
  const EMPTY_FORM: LabForm := LabForm("", "", "", "", None)

  /** `otherFields`: every input but the image, under its key, in declaration order. */
  function OtherFields(f: LabForm): (fields: seq<(string, string)>)
    ensures |fields| == 4
  {
    [("fasting_sugar", f.fastingSugar), ("random_sugar", f.randomSugar),
     ("cholesterol", f.cholesterol), ("hcg", f.hcg)]
  }

  /** The guard of `submitReport` is exactly: an empty input, or no image. */
  lemma RefusedMeaning(f: LabForm)
    ensures Refused(OtherFields(f), f.reportImage)
            <==> f.fastingSugar == "" || f.randomSugar == "" || f.cholesterol == "" || f.hcg == "" || f.reportImage.None?
  {
    var fields := OtherFields(f);
    if f.fastingSugar == "" { assert fields[0].1 == ""; }
    if f.randomSugar == "" { assert fields[1].1 == ""; }
    if f.cholesterol == "" { assert fields[2].1 == ""; }
    if f.hcg == "" { assert fields[3].1 == ""; }
  }

  /**
   * `submitReport` up to the POST: `None` when the "Missing Fields" alert
   * stops it, otherwise a new multipart body with `user_uid`, the four
   * inputs and `report_image`.
   */
  method SubmitReport(f: LabForm, userId: Option<string>, android: bool) returns (r: Option<FormPayload>)
    ensures r.None? <==> Refused(OtherFields(f), f.reportImage)
    ensures r.Some? ==> fresh(r.value)
                        && r.value.parts == ComposedParts(userId, OtherFields(f), "report_image", f.reportImage.value, android)
  {
    var fields := OtherFields(f);
    if Refused(fields, f.reportImage) {
      return None;
    }
    var payload := Compose(userId, fields, "report_image", f.reportImage.value, android);
    return Some(payload);
  }

  /**
   * An accepted upload sends `user_uid`, then `fasting_sugar`,
   * `random_sugar`, `cholesterol` and `hcg` with the texts as typed, then
   * the image with the URI for this platform.
   */
  lemma UploadBody(f: LabForm, userId: Option<string>, android: bool)
    requires f.reportImage.Some?
    ensures ComposedParts(userId, OtherFields(f), "report_image", f.reportImage.value, android)
            == [("user_uid", Field(UidText(userId))),
                ("fasting_sugar", Field(f.fastingSugar)), ("random_sugar", Field(f.randomSugar)),
                ("cholesterol", Field(f.cholesterol)), ("hcg", Field(f.hcg)),
                ("report_image", ImagePart(f.reportImage.value, android))]
  {
    var fields := OtherFields(f);
    var parts := ComposedParts(userId, fields, "report_image", f.reportImage.value, android);
    var expected := [("user_uid", Field(UidText(userId))),
                     ("fasting_sugar", Field(f.fastingSugar)), ("random_sugar", Field(f.randomSugar)),
                     ("cholesterol", Field(f.cholesterol)), ("hcg", Field(f.hcg)),
                     ("report_image", ImagePart(f.reportImage.value, android))];
    ComposedPartsMeaning(userId, fields, "report_image", f.reportImage.value, android);
    forall i | 0 <= i < 6
      ensures parts[i] == expected[i]
    {
      if 1 <= i <= 4 {
        assert parts[(i - 1) + 1] == (fields[i - 1].0, Field(fields[i - 1].1));
      }
    }
  }

  /** The form after an upload: cleared only once the server accepted it. */
  function AfterSubmit(f: LabForm, accepted: bool): (next: LabForm)
    ensures accepted ==> next == EMPTY_FORM
    ensures !accepted ==> next == f
  {
    if accepted then EMPTY_FORM else f
  }

  /** A cleared form is refused until it is filled in again. */
  lemma ResetRefusesResubmit(f: LabForm)
    ensures Refused(OtherFields(AfterSubmit(f, true)), AfterSubmit(f, true).reportImage)
  {
  }
}
