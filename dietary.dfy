/**
 * The dietary intake screen: the nutrient totals over stored meals, the
 * upload guard and its multipart body, and the form reset. Stored values
 * are the text the server sent; vitamins and minerals are stored and
 * uploaded but not totalled.
 */
module Dietary {
  import opened Wrappers
  import opened Js
  import opened Lists
  import opened Multipart

  /** One stored meal. */
  datatype FoodRecord = FoodRecord(carbohydrates: string, protein: string, fat: string, vitamins: string, minerals: string)

  // ---------------------------------------------------------------------------
  // Totals

  /** The three totalled nutrients of a meal as `parseFloat` reads them. */
  datatype Nutrients = Nutrients(carbohydrates: JsNum, protein: JsNum, fat: JsNum)

  function NutrientsOf(r: FoodRecord): Nutrients {
    Nutrients(ParseFloat(r.carbohydrates), ParseFloat(r.protein), ParseFloat(r.fat))
  }

  function AllNutrients(data: seq<FoodRecord>): (ns: seq<Nutrients>)
    ensures |ns| == |data|
    ensures forall i :: 0 <= i < |data| ==> ns[i] == NutrientsOf(data[i])
  {
    if data == [] then [] else [NutrientsOf(data[0])] + AllNutrients(data[1..])
  }

  function Carbohydrates(n: Nutrients): real { OrZero(n.carbohydrates) }
  function Protein(n: Nutrients): real { OrZero(n.protein) }
  function Fat(n: Nutrients): real { OrZero(n.fat) }

  /** The accumulator of `NutritionSummary`'s reduce. */
  datatype Totals = Totals(carbohydrates: real, protein: real, fat: real)

  /** The reduce from all zeros, one meal at a time from the first, each value through `parseFloat(x) || 0`. */
  function TotalsOf(ns: seq<Nutrients>): Totals
    decreases |ns|
  {
    if ns == [] then Totals(0.0, 0.0, 0.0)
    else
      var acc := TotalsOf(ns[..|ns| - 1]);
      var item := ns[|ns| - 1];
      Totals(acc.carbohydrates + Carbohydrates(item), acc.protein + Protein(item), acc.fat + Fat(item))
  }

  /** The totals are the sums of the readable values, unreadable ones adding nothing; all are 0 without meals. */
  lemma {:induction false} TotalsAreSums(ns: seq<Nutrients>)
    ensures TotalsOf(ns).carbohydrates == Sum(ns, Carbohydrates)
    ensures TotalsOf(ns).protein == Sum(ns, Protein)
    ensures TotalsOf(ns).fat == Sum(ns, Fat)
    ensures ns == [] ==> TotalsOf(ns) == Totals(0.0, 0.0, 0.0)
    decreases |ns|
  {
    if ns != [] {
      var init := ns[..|ns| - 1];
      var item := ns[|ns| - 1];
      assert ns == init + [item];
      TotalsAreSums(init);
      SumSnoc(init, item, Carbohydrates);
      SumSnoc(init, item, Protein);
      SumSnoc(init, item, Fat);
    }
  }

  /** The three cards: each total with one decimal (`toFixed(1)`). */
  datatype Summary = Summary(carbohydrates: real, protein: real, fat: real)

  function SummaryFrom(ns: seq<Nutrients>): Summary {
    var t := TotalsOf(ns);
    Summary(Rounded(t.carbohydrates, 1), Rounded(t.protein, 1), Rounded(t.fat, 1))
  }

  function NutritionSummary(data: seq<FoodRecord>): Summary {
    SummaryFrom(AllNutrients(data))
  }

  /** Each card is within 0.05 of the sum of the readable values; with no meals every card is 0. */
  lemma SummaryMeaning(ns: seq<Nutrients>)
    ensures var s := SummaryFrom(ns);
            Sum(ns, Carbohydrates) - 0.05 <= s.carbohydrates <= Sum(ns, Carbohydrates) + 0.05
            && Sum(ns, Protein) - 0.05 <= s.protein <= Sum(ns, Protein) + 0.05
            && Sum(ns, Fat) - 0.05 <= s.fat <= Sum(ns, Fat) + 0.05
            && (ns == [] ==> s == Summary(0.0, 0.0, 0.0))
  {
    TotalsAreSums(ns);
    assert Pow10(1) == 10;
    RoundedIsNear(Sum(ns, Carbohydrates), 1);
    RoundedIsNear(Sum(ns, Protein), 1);
    RoundedIsNear(Sum(ns, Fat), 1);
    if ns == [] {
      assert (0.0 * 10.0 + 0.5).Floor == 0;
    }
  }

  /** Vitamins and minerals have no effect on the totals. */
  lemma VitaminsMineralsIgnored(data: seq<FoodRecord>, i: nat, vitamins: string, minerals: string)
    requires i < |data|
    ensures NutritionSummary(data[i := data[i].(vitamins := vitamins, minerals := minerals)]) == NutritionSummary(data)
  {
    var changed := data[i := data[i].(vitamins := vitamins, minerals := minerals)];
    assert AllNutrients(changed) == AllNutrients(data) by {
      forall j | 0 <= j < |data|
        ensures AllNutrients(changed)[j] == AllNutrients(data)[j]
      {
        assert changed[j].carbohydrates == data[j].carbohydrates;
        assert changed[j].protein == data[j].protein;
        assert changed[j].fat == data[j].fat;
      }
    }
  }

  // ---------------------------------------------------------------------------
  // Upload

  /** The form: the five nutrient inputs and the picked image, if any. */
  datatype FoodForm = FoodForm(carbohydrates: string, protein: string, fat: string, vitamins: string, minerals: string,
                               foodImage: Option<Image>)

  /** The form as it starts and as a successful upload leaves it. */
  const EMPTY_FORM: FoodForm := FoodForm("", "", "", "", "", None)

  /** `otherFields`: every input but the image, under its key, in declaration order. */
  function OtherFields(f: FoodForm): (fields: seq<(string, string)>)
    ensures |fields| == 5
  {
    [("carbohydrates", f.carbohydrates), ("protein", f.protein), ("fat", f.fat),
     ("vitamins", f.vitamins), ("minerals", f.minerals)]
  }

  /** The guard of `submitFoodIntake` is exactly: an empty nutrient input, or no image. */
  lemma RefusedMeaning(f: FoodForm)
    ensures Refused(OtherFields(f), f.foodImage)
            <==> f.carbohydrates == "" || f.protein == "" || f.fat == "" || f.vitamins == "" || f.minerals == ""
                 || f.foodImage.None?
  {
    var fields := OtherFields(f);
    if f.carbohydrates == "" { assert fields[0].1 == ""; }
    if f.protein == "" { assert fields[1].1 == ""; }
    if f.fat == "" { assert fields[2].1 == ""; }
    if f.vitamins == "" { assert fields[3].1 == ""; }
    if f.minerals == "" { assert fields[4].1 == ""; }
  }

  /**
   * `submitFoodIntake` up to the POST: `None` when the "Missing Fields"
   * alert stops it, otherwise a new multipart body with `user_uid`, the five
   * nutrients and `food_image`.
   */
  method SubmitFoodIntake(f: FoodForm, userId: Option<string>, android: bool) returns (r: Option<FormPayload>)
    ensures r.None? <==> Refused(OtherFields(f), f.foodImage)
    ensures r.Some? ==> fresh(r.value)
                        && r.value.parts == ComposedParts(userId, OtherFields(f), "food_image", f.foodImage.value, android)
  {
    var fields := OtherFields(f);
    if Refused(fields, f.foodImage) {
      return None;
    }
    var payload := Compose(userId, fields, "food_image", f.foodImage.value, android);
    return Some(payload);
  }

  /**
   * An accepted upload sends `user_uid`, then `carbohydrates`, `protein`,
   * `fat`, `vitamins` and `minerals` with the texts as typed, then the image
   * with the URI for this platform.
   */
  lemma UploadBody(f: FoodForm, userId: Option<string>, android: bool)
    requires f.foodImage.Some?
    ensures ComposedParts(userId, OtherFields(f), "food_image", f.foodImage.value, android)
            == [("user_uid", Field(UidText(userId))),
                ("carbohydrates", Field(f.carbohydrates)), ("protein", Field(f.protein)), ("fat", Field(f.fat)),
                ("vitamins", Field(f.vitamins)), ("minerals", Field(f.minerals)),
                ("food_image", ImagePart(f.foodImage.value, android))]
  {
    var fields := OtherFields(f);
    var parts := ComposedParts(userId, fields, "food_image", f.foodImage.value, android);
    var expected := [("user_uid", Field(UidText(userId))),
                     ("carbohydrates", Field(f.carbohydrates)), ("protein", Field(f.protein)), ("fat", Field(f.fat)),
                     ("vitamins", Field(f.vitamins)), ("minerals", Field(f.minerals)),
                     ("food_image", ImagePart(f.foodImage.value, android))];
    ComposedPartsMeaning(userId, fields, "food_image", f.foodImage.value, android);
    forall i | 0 <= i < 7
      ensures parts[i] == expected[i]
    {
      if 1 <= i <= 5 {
        assert parts[(i - 1) + 1] == (fields[i - 1].0, Field(fields[i - 1].1));
      }
    }
  }

  /** The form after an upload: cleared only once the server accepted it. */
  function AfterSubmit(f: FoodForm, accepted: bool): (next: FoodForm)
    ensures accepted ==> next == EMPTY_FORM
    ensures !accepted ==> next == f
  {
    if accepted then EMPTY_FORM else f
  }

  /** A cleared form is refused until it is filled in again. */
  lemma ResetRefusesResubmit(f: FoodForm)
    ensures Refused(OtherFields(AfterSubmit(f, true)), AfterSubmit(f, true).foodImage)
  {
  }
}
