# Calorie and macro calculator: a Dafny model

This project models the calculation core of a small calorie and macro
calculator (`app.py`). From a person's sex, weight, height and age it
estimates the basal metabolic rate with the Harris-Benedict equation. It
scales that rate by an activity multiplier, which is a preset per activity
tier or a custom override. It adds manual extra kcal and then applies a
percentage adjustment. The total is split into daily protein, fat and
carbohydrate grams:

- protein and fat come from grams per kilogram for the tier;
- carbohydrate takes whatever calories remain, and never goes below zero.

The daily grams are then spread over four meals (Desayuno, Comida,
Merienda, Cena) by fixed per-meal fractions. The result is a four-row table
with each row's calories.

Modules, one per component of the pipeline:

- `Rounding` (rounding.dfy): one-decimal rounding of exact reals.
- `Tables` (tables.dfy): the tiers, meals and constant tables (multipliers,
  grams per kilogram, meal fractions).
- `Energy` (energy.dfy): Harris-Benedict, multiplier resolution, total kcal.
- `Allocation` (allocation.dfy): daily macro allocation.
- `Meals` (meals.dfy): per-meal split and the per-meal table, built by a loop.
- `App` (app.dfy): the calculation run when the form is submitted, including
  the in-place `*=` of the total kcal and the error stop.

Quantities are Dafny `real`s, so every constant is exact and there is no
floating-point behaviour. `round(x, 1)` is modelled as
`RoundTenth(x) = floor(10*x + 1/2) / 10`, which rounds ties up.

For a man of 70 kg, 175 cm and 25 years the male formula gives 1724.052
kcal (`BasalRateExamples`). `(1000*1.5 + 100)` with +10 % gives 1760 kcal
(`TotalKcalExamples`). With exact reals and half-up rounding each meal
figure is within 0.05 g of its exact share, so the four meals are within
0.2 g of the daily grams (`MealSplitReconstructsDaily`), and so is the
table that the calculation returns.

## Model

| member | source | states |
|---|---|---|
| `Rounding.RoundTenth` | app.py:48-50 | the result has one decimal, lies in (x - 0.05, x + 0.05], is non-negative for non-negative x and zero for zero |
| `Rounding.RoundTenthUnique` | app.py:48-50 | any one-decimal value in (x - 0.05, x + 0.05] is RoundTenth(x), so the window specifies the rounding completely |
| `Rounding.RoundTenthIdempotent` | app.py:108 | rounding a value that already has one decimal leaves it unchanged, as for the kcal of a table row |
| `Rounding.RoundTenthMonotone` | app.py:48-50 | x <= y implies RoundTenth(x) <= RoundTenth(y) |
| `Rounding.RoundTenthTiesUp` | app.py:48-50 | the chosen tie rule: 0.25 rounds to 0.3 and -0.25 rounds to -0.2 |
| `Tables.ActivityMultiplier` | app.py:18-22 | presets lie in [1.5, 1.6]; 1.6 exactly for Alto and 1.5 exactly for Bajo |
| `Tables.Kcal` | app.py:108 | 4 kcal/g for protein and carbohydrate and 9 kcal/g for fat; the body is the source formula, and non-negative grams give non-negative kcal |
| `Tables.MacroPerKg` | app.py:24-28 | each tier has positive fat per kg, below its protein per kg |
| `Tables.TiersOrdered` | app.py:18-28 | the less active the tier, the lower its multiplier (Bajo < Medio < Alto) and the more protein and fat per kg (Alto < Medio < Bajo) |
| `Tables.MealFraction` | app.py:30-35 | every meal fraction of every macro is strictly between 0 and 1 |
| `Tables.MealLabel` | app.py:109 | the label stored in a table row; the body is the source's meal names, and `MealOrderIsComplete` proves that distinct meals get distinct labels |
| `Tables.MealOrderIsComplete` | app.py:106 | the table order lists all four meals, each exactly once, and meal labels are distinct |
| `Tables.FractionsPartitionDay` | app.py:30-35 | for each macro separately, the fractions of the four meals sum to exactly 1 |
| `Energy.HarrisBenedict` | app.py:12-16 | the body is the source's two formulas; the rate is positive for weights 30-200 kg, heights 100-250 cm and ages 10-120; `OnlyHombreIsMale`, `BasalRateMonotone` and `BasalRateExamples` carry its other properties |
| `Energy.OnlyHombreIsMale` | app.py:12-16 | every sex label other than "hombre" (including "Hombre") gets the female formula, the same rate as "mujer" |
| `Energy.BasalRateMonotone` | app.py:12-16 | for both formulas the basal rate rises with weight and height and falls with age, strictly when any of them changes |
| `Energy.BasalRateExamples` | app.py:12-16 | worked values: male 70 kg/175 cm/25 y gives 1724.052; female 65 kg/178 cm/30 y gives 1470.192 |
| `Energy.ResolveMultiplier` | app.py:76-83 | error exactly when the override does not parse; a parsed override is used as is; a blank override gives the tier preset |
| `Energy.PresetMultipliers` | app.py:18-22 | without an override Alto, Medio and Bajo resolve to 1.6, 1.55 and 1.5; the override 1.8 resolves to 1.8 whatever the tier |
| `Energy.AdjustFactor` | app.py:86 | the factor is non-negative exactly when the percentage is at least -100, and it is 1 exactly when the percentage is 0 |
| `Energy.ExtraBeforePercentage` | app.py:85-86 | the percentage also scales the extra kcal; adding the extra after the percentage would give the same total only when the extra or the percentage is zero |
| `Energy.TotalKcal` | app.py:85-86 | the body is the source formula, extra first and then the percentage; with 0% the total is basal*multiplier + extra, and with -100% it is zero; `ExtraBeforePercentage` carries the order of the two steps |
| `Energy.TotalKcalExamples` | app.py:85-86 | (1000*1.5 + 100) with +10% gives 1760 |
| `Allocation.ProteinFatKcal` | app.py:41-42 | the body is the source's protein and fat kcal; for a non-negative weight they lie between 11.9 and 21.5 kcal per kg |
| `Allocation.RawDailyMacros` | app.py:38-45 | before rounding: carbohydrate is never negative; it is zero exactly when the total kcal are at most the protein and fat kcal; when it is positive the triple's kcal equal the total, and otherwise they are at least the total |
| `Allocation.Adjusted` | app.py:47-50 | a scaled figure rounded to one decimal, within 0.05 of grams*factor; non-negative for non-negative grams and factor; zero for zero grams |
| `Allocation.AllocateDailyMacros` | app.py:37-52 | each daily figure is its raw figure scaled by the factor and rounded on its own (`Adjusted`); carbohydrate is non-negative whenever the adjustment is at least -100%, and zero whenever protein and fat take all the calories |
| `Allocation.AllocationWindow` | app.py:47-50 | every daily figure has one decimal and lies within 0.05 g of raw*factor |
| `Allocation.UnadjustedAllocation` | app.py:88 | with the zero adjustment the caller uses, each daily figure is within 0.05 g of its raw value, so the percentage is not applied a second time |
| `Allocation.ProteinFatIgnoreKcal` | app.py:38-49 | protein and fat grams are the same for any two total kcal values: they are never reduced when calories are short |
| `Allocation.RawCarbMonotone` | app.py:44-45 | before rounding, carbohydrate grams never decrease as the total kcal increase |
| `Allocation.AdjustedMonotone` | app.py:47-50 | scaling by a non-negative factor and rounding keep the order of two gram figures |
| `Allocation.CarbMonotone` | app.py:44-50 | after adjustment and rounding, carbohydrate grams still never decrease as the total kcal increase, for adjustments of at least -100% |
| `Allocation.DeficitExample` | app.py:37-52 | 65 kg, Medio, 500 kcal gives 110.5 g protein, 71.5 g fat and 0 g carbohydrate |
| `Meals.MacrosForMeal` | app.py:54-59 | each meal figure has one decimal and is within 0.05 g of daily*fraction; non-negative daily figures give non-negative meal figures |
| `Meals.ShareSumIsFractionOfDaily` | app.py:54-59 | the exact shares of any list of meals sum to the daily figure times the sum of their fractions |
| `Meals.ShareSumOfPartition` | app.py:30-35 | meals whose fractions sum to 1 share out exactly the daily figure |
| `Meals.SplitSumError` | app.py:54-59 | over any list of meals the summed rounded grams are within 0.05 g per meal of the summed exact shares |
| `Meals.SplitReconstructs` | app.py:54-59 | meals whose fractions sum to 1 reproduce the daily figure to within 0.05 g per meal |
| `Meals.MealSplitReconstructsDaily` | app.py:54-59 | for each macro the four meals' grams add up to the daily grams within 0.2 g |
| `Meals.KcalOfOneDecimalGrams` | app.py:108 | the kcal of grams with one decimal have one decimal, so rounding them again changes nothing |
| `Meals.GramsSumOfSplit` | app.py:105-109 | rows holding the splits of a list of meals sum, macro by macro, to the split sum of those meals |
| `Meals.BuildDailyTable` | app.py:105-109 | exactly four rows in the order Desayuno, Comida, Merienda, Cena; each row's grams are that meal's split; its kcal are the rounded kcal of those grams, which equal their exact kcal; for each macro the rows' grams sum to within 0.2 g of the daily figure |
| `App.Calculate` | app.py:73-109 | fails exactly when the override does not parse, with no partial results; otherwise the basal rate, multiplier, total kcal (extra first, then the percentage), daily macros (allocator adjustment 0), selected-meal macros and table are as specified, the table's grams sum to within 0.2 g of the daily figures, and all carbohydrate figures are non-negative |

## Left out

- Streamlit widgets, titles and output (`st.write`, `st.table`, `st.dataframe`): presentation only. The `:.1f` and `:.2f` display formatting is also not modelled. `st.error` followed by `st.stop` is modelled as the `Err(InvalidCustomMultiplier)` result of `App.Calculate`.
- Loading the food-composition CSV with pandas, trimming its header and caching it: file I/O and a foreign library. The core computation does not use that data.
- Parsing the override text: `strip()` and Python's `float()`, which accepts whitespace, exponents, `inf` and `nan`. The override arrives already decided as `Blank`, `Given(value)` or `Unparseable`. A given value is used as is, even if it is zero or negative, because the source does not check it either.
- IEEE-754 arithmetic and Python's `round` tie rule. Python rounds the binary value half-to-even, so `round(0.25, 1)` is 0.2, while `RoundTenth(0.25)` is 0.3. Results can differ at such ties and wherever binary floats differ from exact decimals.
- The input limits of the form widgets (weight 30-200, height 100-250, age 10-120, percentage -25 to 25): the core does not check them. They appear only as the hypothesis of the positivity clause of `HarrisBenedict`.
- The sex selector offers only "hombre" and "mujer". The model accepts any string, and every string other than "hombre" uses the female formula.
- Determinism of the pipeline: each output of `App.Calculate` is fixed by its postconditions as a function of the inputs. No separate lemma compares two runs, because a lemma cannot call a method.
