/** The calculation that runs when the form is submitted: basal rate,
    multiplier, total calories, daily macros, the selected meal's macros and
    the per-meal table. */
module App {
  import opened Tables
  import opened Rounding
  import opened Energy
  import opened Allocation
  import opened Meals

  /** The values the form supplies. The age, the extra kcal and the
      percentage adjustment are whole numbers in the form. */
  datatype Inputs = Inputs(
    sex: string, weight: real, height: real, age: int,
    tier: Tier, custom: CustomMultiplier,
    extraKcal: int, percent: int, meal: Meal)

  /** Everything the results section shows. */
  datatype Report = Report(
    basalRate: real, multiplier: real, totalKcal: real,
    daily: Macros, selectedMeal: Macros, table: seq<Row>)

  /** Runs the pipeline. An override that does not parse stops the
      calculation with no partial results; otherwise the percentage
      adjustment is applied once, to the total calories, and the allocator
      runs with an adjustment of zero. */
  method Calculate(input: Inputs) returns (r: Result<Report>)
    ensures r.Err? <==> input.custom.Unparseable?
    ensures r.Err? ==> r.error == InvalidCustomMultiplier
    ensures r.Ok? ==>
      r.value.basalRate == HarrisBenedict(input.sex, input.weight, input.height, input.age as real)
      && ResolveMultiplier(input.tier, input.custom) == Ok(r.value.multiplier)
      && r.value.totalKcal
         == TotalKcal(r.value.basalRate, r.value.multiplier, input.extraKcal as real, input.percent as real)
      && r.value.daily == AllocateDailyMacros(input.weight, r.value.totalKcal, input.tier, 0.0)
      && r.value.selectedMeal == MacrosForMeal(r.value.daily, input.meal)
    ensures r.Ok? ==>
      |r.value.table| == |MealOrder|
      && forall i :: 0 <= i < |r.value.table| ==>
           r.value.table[i].meal == MealOrder[i]
           && r.value.table[i].grams == MacrosForMeal(r.value.daily, MealOrder[i])
           && r.value.table[i].kcal == RoundTenth(Kcal(r.value.table[i].grams))
    ensures r.Ok? ==>
      forall n :: Get(r.value.daily, n) - 0.2 < GramsSum(r.value.table, n) <= Get(r.value.daily, n) + 0.2
    ensures r.Ok? ==>
      r.value.daily.carb >= 0.0
      && forall i :: 0 <= i < |r.value.table| ==> r.value.table[i].grams.carb >= 0.0
  {
    var basal := HarrisBenedict(input.sex, input.weight, input.height, input.age as real);
    var resolved := ResolveMultiplier(input.tier, input.custom);
    if resolved.Err? {
      return Err(resolved.error);
    }
    var multiplier := resolved.value;
    var kcal := basal * multiplier + input.extraKcal as real;
    kcal := kcal * (1.0 + input.percent as real / 100.0);
    assert kcal == TotalKcal(basal, multiplier, input.extraKcal as real, input.percent as real);
    var daily := AllocateDailyMacros(input.weight, kcal, input.tier, 0.0);
    assert daily.carb >= 0.0;
    var selected := MacrosForMeal(daily, input.meal);
    var table := BuildDailyTable(daily);
    forall i | 0 <= i < |table|
      ensures table[i].grams.carb >= 0.0
    {
      assert Get(daily, Carb) >= 0.0;
      assert Get(table[i].grams, Carb) >= 0.0;
    }
    r := Ok(Report(basal, multiplier, kcal, daily, selected, table));
  }
}
