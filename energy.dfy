/** Energy estimation: the Harris-Benedict basal metabolic rate, the
    activity multiplier (preset or custom) and the total daily calories. */
module Energy {
  import opened Tables

  /** Basal metabolic rate in kcal/day by the Harris-Benedict equation. The
      male formula is chosen only for the exact label "hombre"; every other
      label gets the female formula. Within the ranges the form accepts
      (30-200 kg, 100-250 cm, 10-120 years) the rate is positive for both
      formulas. */
  function HarrisBenedict(sex: string, weight: real, height: real, age: real): (r: real)
    ensures 30.0 <= weight <= 200.0 && 100.0 <= height <= 250.0 && 10.0 <= age <= 120.0 ==> r > 0.0
  {
    if sex == "hombre" then
      88.362 + 13.397 * weight + 4.799 * height - 5.677 * age
    else
      447.593 + 9.247 * weight + 3.098 * height - 4.330 * age
  }

  /** Only "hombre" selects the male formula: any other label, including a
      differently capitalised one, gives the same rate as "mujer". */
  lemma OnlyHombreIsMale(sex: string, weight: real, height: real, age: real)
    requires sex != "hombre"
    ensures HarrisBenedict(sex, weight, height, age) == HarrisBenedict("mujer", weight, height, age)
    ensures HarrisBenedict("Hombre", weight, height, age) == HarrisBenedict("mujer", weight, height, age)
  {
    assert "Hombre" != "hombre" by { assert "Hombre"[0] != "hombre"[0]; }
  }

  /** For either formula the rate grows with weight and height and falls
      with age. */
  lemma BasalRateMonotone(sex: string, w1: real, w2: real, h1: real, h2: real, a1: real, a2: real)
    requires w1 <= w2 && h1 <= h2 && a2 <= a1
    ensures HarrisBenedict(sex, w1, h1, a1) <= HarrisBenedict(sex, w2, h2, a2)
    ensures (w1 < w2 || h1 < h2 || a2 < a1) ==> HarrisBenedict(sex, w1, h1, a1) < HarrisBenedict(sex, w2, h2, a2)
  {
  }

  /** A worked value for each formula. */
  lemma BasalRateExamples()
    ensures HarrisBenedict("hombre", 70.0, 175.0, 25.0) == 1724.052
    ensures HarrisBenedict("mujer", 65.0, 178.0, 30.0) == 1470.192
  {
  }

  /** The free-text multiplier override, after deciding whether it is blank
      and, if not, whether it parses as a number. */
  datatype CustomMultiplier = Blank | Given(value: real) | Unparseable

  datatype Error = InvalidCustomMultiplier

  datatype Result<T> = Ok(value: T) | Err(error: Error)

  /** The multiplier in use: a non-blank override wins over the tier's
      preset, and an override that does not parse is an error. */
  function ResolveMultiplier(tier: Tier, custom: CustomMultiplier): (r: Result<real>)
    ensures r.Err? <==> custom.Unparseable?
    ensures r.Err? ==> r.error == InvalidCustomMultiplier
    ensures custom.Given? ==> r == Ok(custom.value)
    ensures custom.Blank? ==> r == Ok(ActivityMultiplier(tier))
  {
    match custom
    case Blank => Ok(ActivityMultiplier(tier))
    case Given(v) => Ok(v)
    case Unparseable => Err(InvalidCustomMultiplier)
  }

  /** Without an override the multiplier is one of the three presets. */
  lemma PresetMultipliers(tier: Tier)
    ensures ResolveMultiplier(Alto, Blank) == Ok(1.6)
    ensures ResolveMultiplier(Medio, Blank) == Ok(1.55)
    ensures ResolveMultiplier(Bajo, Blank) == Ok(1.5)
    ensures ResolveMultiplier(tier, Given(1.8)) == Ok(1.8)
  {
  }

  /** Scaling factor of a signed percentage adjustment. */
  function AdjustFactor(pct: real): (f: real)
    ensures pct >= -100.0 <==> f >= 0.0
    ensures pct == 0.0 <==> f == 1.0
  {
    1.0 + pct / 100.0
  }

  /** Total daily calories: the basal rate times the multiplier, plus the
      extra kcal, and the percentage adjustment applied to that sum. With no
      percentage it is the scaled basal rate plus the extra kcal; removing
      100% leaves nothing, extra kcal included. */
  function TotalKcal(basal: real, multiplier: real, extra: real, pct: real): (r: real)
    ensures pct == 0.0 ==> r == basal * multiplier + extra
    ensures pct == -100.0 ==> r == 0.0
  {
    (basal * multiplier + extra) * AdjustFactor(pct)
  }

  /** The extra kcal are added before the percentage, so the percentage
      scales them too; adding them after would differ exactly when both
      the extra kcal and the percentage are non-zero. */
  lemma ExtraBeforePercentage(basal: real, multiplier: real, extra: real, pct: real)
    ensures TotalKcal(basal, multiplier, extra, pct)
         == TotalKcal(basal, multiplier, 0.0, pct) + extra * AdjustFactor(pct)
    ensures TotalKcal(basal, multiplier, extra, pct) == TotalKcal(basal, multiplier, 0.0, pct) + extra
        <==> extra == 0.0 || pct == 0.0
  {
    var base := basal * multiplier * AdjustFactor(pct);
    assert TotalKcal(basal, multiplier, 0.0, pct) == base;
    assert TotalKcal(basal, multiplier, extra, pct) == base + extra * AdjustFactor(pct);
    assert extra * AdjustFactor(pct) - extra == extra * pct / 100.0;
  }

  /** A worked value shows the order of the two adjustments. */
  lemma TotalKcalExamples()
    ensures TotalKcal(1000.0, 1.5, 100.0, 10.0) == 1760.0
  {
  }
}
