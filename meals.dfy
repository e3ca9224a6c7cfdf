/** Distribution of the daily macro targets over the four meals, and the
    per-meal table. */
module Meals {
  import opened Tables
  import opened Rounding

  /** One meal's grams: each daily figure times that meal's fraction for
      the macro, rounded to one decimal. Every figure is within 0.05 g of
      its exact share, and non-negative daily figures give non-negative
      meal figures. */
  function MacrosForMeal(daily: Macros, meal: Meal): (r: Macros)
    ensures forall n :: OneDecimal(Get(r, n))
    ensures forall n ::
      Get(daily, n) * Get(MealFraction(meal), n) - 0.05 < Get(r, n)
      <= Get(daily, n) * Get(MealFraction(meal), n) + 0.05
    ensures forall n :: 0.0 <= Get(daily, n) ==> 0.0 <= Get(r, n)
  {
    var fr := MealFraction(meal);
    assert forall n :: 0.0 <= Get(daily, n) ==> 0.0 <= Get(daily, n) * Get(fr, n);
    Macros(RoundTenth(daily.protein * fr.protein), RoundTenth(daily.fat * fr.fat), RoundTenth(daily.carb * fr.carb))
  }

  /** Sum of one macro's meal grams over a list of meals. */
  function SplitSum(daily: Macros, meals: seq<Meal>, n: Nutrient): real {
    if meals == [] then 0.0 else Get(MacrosForMeal(daily, meals[0]), n) + SplitSum(daily, meals[1..], n)
  }

  /** Sum of one macro's exact, unrounded meal shares over a list of meals. */
  function ShareSum(daily: Macros, meals: seq<Meal>, n: Nutrient): real {
    if meals == [] then 0.0
    else Get(daily, n) * Get(MealFraction(meals[0]), n) + ShareSum(daily, meals[1..], n)
  }

  /** One macro's fractions of a list of meals, in order. */
  function Fractions(meals: seq<Meal>, n: Nutrient): seq<real> {
    if meals == [] then [] else [Get(MealFraction(meals[0]), n)] + Fractions(meals[1..], n)
  }

  /** Sum of a list of reals. */
  function Total(xs: seq<real>): real {
    if xs == [] then 0.0 else xs[0] + Total(xs[1..])
  }

  /** Sum of a list of reals, each scaled by d. */
  function ScaledTotal(d: real, xs: seq<real>): real {
    if xs == [] then 0.0 else d * xs[0] + ScaledTotal(d, xs[1..])
  }

  /** Scaling every term scales the sum. */
  lemma {:induction false} ScaledTotalFactors(d: real, xs: seq<real>)
    ensures ScaledTotal(d, xs) == d * Total(xs)
  {
    if xs != [] {
      ScaledTotalFactors(d, xs[1..]);
    }
  }

  /** The fraction sum of a list of meals is the sum of their fractions. */
  lemma {:induction false} FractionSumIsTotal(meals: seq<Meal>, n: Nutrient)
    ensures FractionSum(meals, n) == Total(Fractions(meals, n))
  {
    if meals != [] {
      FractionSumIsTotal(meals[1..], n);
      assert Fractions(meals, n)[1..] == Fractions(meals[1..], n);
    }
  }

  /** The exact shares of a list of meals are their fractions, each scaled
      by the daily figure. */
  lemma {:induction false} ShareSumIsScaledTotal(daily: Macros, meals: seq<Meal>, n: Nutrient)
    ensures ShareSum(daily, meals, n) == ScaledTotal(Get(daily, n), Fractions(meals, n))
  {
    if meals != [] {
      ShareSumIsScaledTotal(daily, meals[1..], n);
      assert Fractions(meals, n)[1..] == Fractions(meals[1..], n);
    }
  }

  /** The exact shares of a list of meals are the daily figure times the
      sum of those meals' fractions. */
  lemma {:induction false} ShareSumIsFractionOfDaily(daily: Macros, meals: seq<Meal>, n: Nutrient)
    ensures ShareSum(daily, meals, n) == Get(daily, n) * FractionSum(meals, n)
  {
    ShareSumIsScaledTotal(daily, meals, n);
    FractionSumIsTotal(meals, n);
    ScaledTotalFactors(Get(daily, n), Fractions(meals, n));
  }

  /** Meals whose fractions of a macro add up to one share out exactly the
      daily figure of that macro. */
  lemma ShareSumOfPartition(daily: Macros, meals: seq<Meal>, n: Nutrient)
    requires FractionSum(meals, n) == 1.0
    ensures ShareSum(daily, meals, n) == Get(daily, n)
  {
    ShareSumIsFractionOfDaily(daily, meals, n);
  }

  /** Over any list of meals, the summed meal grams of a macro differ from
      the summed exact shares by each meal's rounding: more than -0.05 and
      at most 0.05 g per meal. */
  lemma {:induction false} SplitSumError(daily: Macros, meals: seq<Meal>, n: Nutrient)
    ensures meals != [] ==> ShareSum(daily, meals, n) - 0.05 * |meals| as real < SplitSum(daily, meals, n)
    ensures SplitSum(daily, meals, n) <= ShareSum(daily, meals, n) + 0.05 * |meals| as real
  {
    if meals != [] {
      SplitSumError(daily, meals[1..], n);
    }
  }

  /** Meals whose fractions of a macro add up to one reproduce the daily
      figure of that macro to within their rounding. */
  lemma SplitReconstructs(daily: Macros, meals: seq<Meal>, n: Nutrient)
    requires meals != [] && FractionSum(meals, n) == 1.0
    ensures Get(daily, n) - 0.05 * |meals| as real < SplitSum(daily, meals, n)
    ensures SplitSum(daily, meals, n) <= Get(daily, n) + 0.05 * |meals| as real
  {
    ShareSumOfPartition(daily, meals, n);
    SplitSumError(daily, meals, n);
  }

  /** The four meals split each daily macro with at most 0.2 g of rounding
      drift: their grams add up to the daily figure, to within the four
      meals' rounding. */
  lemma MealSplitReconstructsDaily(daily: Macros, n: Nutrient)
    ensures Get(daily, n) - 0.2 < SplitSum(daily, MealOrder, n) <= Get(daily, n) + 0.2
  {
    FractionsPartitionDay(n);
    SplitReconstructs(daily, MealOrder, n);
  }

  /** A row of the per-meal table. */
  datatype Row = Row(meal: Meal, grams: Macros, kcal: real)

  /** Calories of gram figures that each have one decimal themselves have
      one decimal, so rounding them again changes nothing: a table row's
      kcal are exactly 4p + 9f + 4c of its rounded grams. */
  lemma KcalOfOneDecimalGrams(g: Macros)
    requires OneDecimal(g.protein) && OneDecimal(g.fat) && OneDecimal(g.carb)
    ensures OneDecimal(Kcal(g))
    ensures RoundTenth(Kcal(g)) == Kcal(g)
  {
    var a, b, c := (10.0 * g.protein).Floor, (10.0 * g.fat).Floor, (10.0 * g.carb).Floor;
    var k := 4 * a + 9 * b + 4 * c;
    assert a as real == 10.0 * g.protein && b as real == 10.0 * g.fat && c as real == 10.0 * g.carb;
    assert 10.0 * Kcal(g) == k as real;
    assert (k as real).Floor == k;
    RoundTenthIdempotent(Kcal(g));
  }

  /** Sum of one macro's grams over the rows of a table. */
  function GramsSum(rows: seq<Row>, n: Nutrient): real {
    if rows == [] then 0.0 else Get(rows[0].grams, n) + GramsSum(rows[1..], n)
  }

  /** Rows holding the splits of a list of meals sum to that list's split sum. */
  lemma {:induction false} GramsSumOfSplit(daily: Macros, rows: seq<Row>, meals: seq<Meal>, n: Nutrient)
    requires |rows| == |meals|
    requires forall i :: 0 <= i < |rows| ==> rows[i].grams == MacrosForMeal(daily, meals[i])
    ensures GramsSum(rows, n) == SplitSum(daily, meals, n)
  {
    if rows != [] {
      GramsSumOfSplit(daily, rows[1..], meals[1..], n);
    }
  }

  /** The per-meal table for the daily grams: one row per meal in the order
      Desayuno, Comida, Merienda, Cena; each row holds that meal's rounded
      grams and the calories of those rounded grams, rounded again, which
      equal their exact calories. For each macro the table's grams add up
      to the daily figure within 0.2 g. */
  method BuildDailyTable(daily: Macros) returns (table: seq<Row>)
    ensures |table| == |MealOrder|
    ensures forall i :: 0 <= i < |table| ==> table[i].meal == MealOrder[i]
    ensures forall i :: 0 <= i < |table| ==> table[i].grams == MacrosForMeal(daily, MealOrder[i])
    ensures forall i :: 0 <= i < |table| ==> table[i].kcal == RoundTenth(Kcal(table[i].grams))
    ensures forall i :: 0 <= i < |table| ==> table[i].kcal == Kcal(table[i].grams)
    ensures forall n :: Get(daily, n) - 0.2 < GramsSum(table, n) <= Get(daily, n) + 0.2
  {
    table := [];
    for i := 0 to |MealOrder|
      invariant |table| == i
      invariant forall j :: 0 <= j < i ==> table[j].meal == MealOrder[j]
      invariant forall j :: 0 <= j < i ==> table[j].grams == MacrosForMeal(daily, MealOrder[j])
      invariant forall j :: 0 <= j < i ==> table[j].kcal == RoundTenth(Kcal(table[j].grams))
      invariant forall j :: 0 <= j < i ==> table[j].kcal == Kcal(table[j].grams)
    {
      var meal := MealOrder[i];
      var grams := MacrosForMeal(daily, meal);
      var kcal := RoundTenth(4.0 * grams.protein + 9.0 * grams.fat + 4.0 * grams.carb);
      assert OneDecimal(Get(grams, Protein)) && OneDecimal(Get(grams, Fat)) && OneDecimal(Get(grams, Carb));
      KcalOfOneDecimalGrams(grams);
      table := table + [Row(meal, grams, kcal)];
    }
    forall n
      ensures Get(daily, n) - 0.2 < GramsSum(table, n) <= Get(daily, n) + 0.2
    {
      GramsSumOfSplit(daily, table, MealOrder, n);
      MealSplitReconstructsDaily(daily, n);
    }
  }
}
