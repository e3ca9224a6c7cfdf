/** Daily macro allocation: protein and fat from grams per kilogram of
    body weight, carbohydrate from the calories that remain. */
module Allocation {
  import opened Tables
  import opened Rounding
  import opened Energy

  /** Calories that the protein and fat targets of a tier take: between
      11.9 kcal per kg (Alto) and 21.5 kcal per kg (Bajo). */
  function ProteinFatKcal(weight: real, tier: Tier): (r: real)
    ensures 0.0 <= weight ==> 11.9 * weight <= r <= 21.5 * weight
  {
    4.0 * (MacroPerKg(tier).protein * weight) + 9.0 * (MacroPerKg(tier).fat * weight)
  }

  /** Daily grams before the adjustment factor and before rounding. Protein
      and fat come from body weight alone; carbohydrate takes the remaining
      calories at 4 kcal/g and is zero when nothing remains, so then the
      triple's calories exceed the requested total instead of protein or
      fat giving way. */
  function RawDailyMacros(weight: real, kcal: real, tier: Tier): (r: Macros)
    ensures r.carb >= 0.0
    ensures r.carb == 0.0 <==> kcal <= ProteinFatKcal(weight, tier)
    ensures r.carb > 0.0 ==> Kcal(r) == kcal
    ensures r.carb == 0.0 ==> Kcal(r) >= kcal
  {
    var protein := MacroPerKg(tier).protein * weight;
    var fat := MacroPerKg(tier).fat * weight;
    var carbKcal := kcal - protein * 4.0 - fat * 9.0;
    var carb := if carbKcal > 0.0 then carbKcal / 4.0 else 0.0;
    Macros(protein, fat, carb)
  }

  /** A daily gram figure multiplied by the adjustment factor and rounded
      to one decimal. A non-negative factor keeps a non-negative figure
      non-negative, and a zero figure stays zero whatever the factor. */
  function Adjusted(grams: real, factor: real): (r: real)
    ensures OneDecimal(r)
    ensures grams * factor - 0.05 < r <= grams * factor + 0.05
    ensures 0.0 <= grams && 0.0 <= factor ==> 0.0 <= r
    ensures grams == 0.0 ==> r == 0.0
  {
    RoundTenth(grams * factor)
  }

  /** Daily protein, fat and carbohydrate grams: the raw allocation, each
      figure scaled by the percentage adjustment and rounded on its own, so
      each has one decimal and lies within 0.05 g of raw*factor (the
      contract of Adjusted). The carbohydrate target is never negative
      unless the adjustment removes more than 100%, and it is zero whenever
      protein and fat already take all the calories. */
  function AllocateDailyMacros(weight: real, kcal: real, tier: Tier, pct: real): (r: Macros)
    ensures forall n :: Get(r, n) == Adjusted(Get(RawDailyMacros(weight, kcal, tier), n), AdjustFactor(pct))
    ensures pct >= -100.0 ==> r.carb >= 0.0
    ensures kcal <= ProteinFatKcal(weight, tier) ==> r.carb == 0.0
  {
    var raw := RawDailyMacros(weight, kcal, tier);
    var f := AdjustFactor(pct);
    Macros(Adjusted(raw.protein, f), Adjusted(raw.fat, f), Adjusted(raw.carb, f))
  }

  /** Every daily figure has one decimal and lies within 0.05 g of its raw
      value times the adjustment factor. */
  lemma AllocationWindow(weight: real, kcal: real, tier: Tier, pct: real, n: Nutrient)
    ensures OneDecimal(Get(AllocateDailyMacros(weight, kcal, tier, pct), n))
    ensures Get(RawDailyMacros(weight, kcal, tier), n) * AdjustFactor(pct) - 0.05
         < Get(AllocateDailyMacros(weight, kcal, tier, pct), n)
         <= Get(RawDailyMacros(weight, kcal, tier), n) * AdjustFactor(pct) + 0.05
  {
    var g, f := Get(RawDailyMacros(weight, kcal, tier), n), AdjustFactor(pct);
    var r := Get(AllocateDailyMacros(weight, kcal, tier, pct), n);
    assert r == Adjusted(g, f);
    assert OneDecimal(r) && g * f - 0.05 < r <= g * f + 0.05;
  }

  /** With no adjustment each daily figure is its raw value rounded: within
      0.05 g of it. */
  lemma UnadjustedAllocation(weight: real, kcal: real, tier: Tier, n: Nutrient)
    ensures Get(RawDailyMacros(weight, kcal, tier), n) - 0.05 < Get(AllocateDailyMacros(weight, kcal, tier, 0.0), n)
    ensures Get(AllocateDailyMacros(weight, kcal, tier, 0.0), n) <= Get(RawDailyMacros(weight, kcal, tier), n) + 0.05
  {
    var g := Get(RawDailyMacros(weight, kcal, tier), n);
    assert Get(AllocateDailyMacros(weight, kcal, tier, 0.0), n) == Adjusted(g, AdjustFactor(0.0));
    assert AdjustFactor(0.0) == 1.0;
    assert g * AdjustFactor(0.0) == g;
  }

  /** Protein and fat targets depend on weight, tier and adjustment only:
      they are the same whatever the total calories. */
  lemma ProteinFatIgnoreKcal(weight: real, kcal1: real, kcal2: real, tier: Tier, pct: real)
    ensures AllocateDailyMacros(weight, kcal1, tier, pct).protein == AllocateDailyMacros(weight, kcal2, tier, pct).protein
    ensures AllocateDailyMacros(weight, kcal1, tier, pct).fat == AllocateDailyMacros(weight, kcal2, tier, pct).fat
  {
    var r1, r2 := RawDailyMacros(weight, kcal1, tier), RawDailyMacros(weight, kcal2, tier);
    assert r1.protein == r2.protein && r1.fat == r2.fat;
    assert AllocateDailyMacros(weight, kcal1, tier, pct).protein == Adjusted(r1.protein, AdjustFactor(pct));
    assert AllocateDailyMacros(weight, kcal2, tier, pct).protein == Adjusted(r2.protein, AdjustFactor(pct));
    assert AllocateDailyMacros(weight, kcal1, tier, pct).fat == Adjusted(r1.fat, AdjustFactor(pct));
    assert AllocateDailyMacros(weight, kcal2, tier, pct).fat == Adjusted(r2.fat, AdjustFactor(pct));
  }

  /** Before rounding, carbohydrate grams never decrease when the total
      calories increase. */
  lemma RawCarbMonotone(weight: real, kcal1: real, kcal2: real, tier: Tier)
    requires kcal1 <= kcal2
    ensures RawDailyMacros(weight, kcal1, tier).carb <= RawDailyMacros(weight, kcal2, tier).carb
  {
  }

  /** Scaling by a non-negative factor and rounding preserves the order of
      two gram figures. */
  lemma AdjustedMonotone(g1: real, g2: real, factor: real)
    requires g1 <= g2 && 0.0 <= factor
    ensures Adjusted(g1, factor) <= Adjusted(g2, factor)
  {
    assert g1 * factor <= g2 * factor;
    RoundTenthMonotone(g1 * factor, g2 * factor);
  }

  /** After adjustment and rounding the carbohydrate target still never
      decreases when the total calories increase, as long as the
      adjustment removes at most 100%. */
  lemma CarbMonotone(weight: real, kcal1: real, kcal2: real, tier: Tier, pct: real)
    requires kcal1 <= kcal2
    requires pct >= -100.0
    ensures AllocateDailyMacros(weight, kcal1, tier, pct).carb <= AllocateDailyMacros(weight, kcal2, tier, pct).carb
  {
    var c1, c2 := RawDailyMacros(weight, kcal1, tier).carb, RawDailyMacros(weight, kcal2, tier).carb;
    RawCarbMonotone(weight, kcal1, kcal2, tier);
    AdjustedMonotone(c1, c2, AdjustFactor(pct));
  }

  /** A heavy deficit: 65 kg at the medium tier with 500 kcal gets 110.5 g
      protein and 71.5 g fat (1085.5 kcal) and no carbohydrate; protein and
      fat are not scaled down to fit. */
  lemma DeficitExample()
    ensures AllocateDailyMacros(65.0, 500.0, Medio, 0.0) == Macros(110.5, 71.5, 0.0)
  {
    var raw := RawDailyMacros(65.0, 500.0, Medio);
    assert raw == Macros(110.5, 71.5, 0.0);
    RoundTenthUnique(110.5, 110.5);
    RoundTenthUnique(71.5, 71.5);
  }
}
