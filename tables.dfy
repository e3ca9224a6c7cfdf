/** The constant tables of the calculator: activity tiers with their energy
    multipliers and grams per kilogram, and the four meals of the day with
    the share of each macro they receive. */
module Tables {

  /** Activity tier, named by the labels the form offers. */
  datatype Tier = Alto | Medio | Bajo

  /** Meal of the day, named by the labels the form and the table show. */
  datatype Meal = Desayuno | Comida | Merienda | Cena

  /** The three calorie-bearing macros. */
  datatype Nutrient = Protein | Fat | Carb

  /** A protein/fat/carbohydrate triple: grams, or per-meal fractions. */
  datatype Macros = Macros(protein: real, fat: real, carb: real)

  /** Grams (or fractions) per kilogram of body weight for protein and fat. */
  datatype PerKg = PerKg(protein: real, fat: real)

  function Get(m: Macros, n: Nutrient): real {
    match n
    case Protein => m.protein
    case Fat => m.fat
    case Carb => m.carb
  }

  /** Energy of a macro triple in grams: 4 kcal/g for protein and
      carbohydrate, 9 kcal/g for fat. */
  function Kcal(m: Macros): (r: real)
    ensures 0.0 <= m.protein && 0.0 <= m.fat && 0.0 <= m.carb ==> 0.0 <= r
  {
    4.0 * m.protein + 9.0 * m.fat + 4.0 * m.carb
  }

  /** Preset activity multiplier of each tier. */
  function ActivityMultiplier(t: Tier): (r: real)
    ensures 1.5 <= r <= 1.6
    ensures r == 1.6 <==> t == Alto
    ensures r == 1.5 <==> t == Bajo
  {
    match t
    case Alto => 1.6
    case Medio => 1.55
    case Bajo => 1.5
  }

  /** Protein and fat grams per kilogram of body weight for each tier; every
      tier asks for less fat than protein. */
  function MacroPerKg(t: Tier): (r: PerKg)
    ensures 0.0 < r.fat < r.protein
  {
    match t
    case Alto => PerKg(1.4, 0.7)
    case Medio => PerKg(1.7, 1.1)
    case Bajo => PerKg(2.0, 1.5)
  }

  /** The less active the tier, the lower its multiplier and the more protein
      and fat per kilogram it asks for. */
  lemma TiersOrdered()
    ensures ActivityMultiplier(Bajo) < ActivityMultiplier(Medio) < ActivityMultiplier(Alto)
    ensures MacroPerKg(Alto).protein < MacroPerKg(Medio).protein < MacroPerKg(Bajo).protein
    ensures MacroPerKg(Alto).fat < MacroPerKg(Medio).fat < MacroPerKg(Bajo).fat
  {
  }

  /** Share of the daily protein, fat and carbohydrate that a meal receives. */
  function MealFraction(m: Meal): (r: Macros)
    ensures forall n :: 0.0 < Get(r, n) < 1.0
  {
    match m
    case Desayuno => Macros(0.10, 0.10, 0.27)
    case Comida => Macros(0.39, 0.40, 0.26)
    case Merienda => Macros(0.08, 0.06, 0.17)
    case Cena => Macros(0.43, 0.44, 0.30)
  }

  /** Label of a meal as shown in the per-meal table. */
  function MealLabel(m: Meal): string {
    match m
    case Desayuno => "Desayuno"
    case Comida => "Comida"
    case Merienda => "Merienda"
    case Cena => "Cena"
  }

  /** The order in which the per-meal table lists the meals. */
  const MealOrder: seq<Meal> := [Desayuno, Comida, Merienda, Cena]

  /** MealOrder lists every meal exactly once, and distinct meals have
      distinct labels. */
  lemma MealOrderIsComplete()
    ensures |MealOrder| == 4
    ensures forall m: Meal :: m in MealOrder
    ensures forall i, j :: 0 <= i < j < |MealOrder| ==> MealOrder[i] != MealOrder[j]
    ensures forall m1: Meal, m2: Meal :: MealLabel(m1) == MealLabel(m2) ==> m1 == m2
  {
    forall m: Meal
      ensures m in MealOrder
    {
      match m
      case Desayuno => assert MealOrder[0] == m;
      case Comida => assert MealOrder[1] == m;
      case Merienda => assert MealOrder[2] == m;
      case Cena => assert MealOrder[3] == m;
    }
    forall m1: Meal, m2: Meal | MealLabel(m1) == MealLabel(m2)
      ensures m1 == m2
    {
      assert MealLabel(m1)[..2] == MealLabel(m2)[..2];
      assert MealLabel(m1)[2] == MealLabel(m2)[2];
    }
  }

  /** Sum of one macro's fractions over a list of meals. */
  function FractionSum(meals: seq<Meal>, n: Nutrient): real {
    if meals == [] then 0.0 else Get(MealFraction(meals[0]), n) + FractionSum(meals[1..], n)
  }

  /** For each macro independently, the four meals' fractions add up to
      exactly one: the meals partition the day's protein, fat and
      carbohydrate. */
  lemma FractionsPartitionDay(n: Nutrient)
    ensures FractionSum(MealOrder, n) == 1.0
  {
    assert MealOrder[1..] == [Comida, Merienda, Cena];
    assert MealOrder[1..][1..] == [Merienda, Cena];
    assert MealOrder[1..][1..][1..] == [Cena];
    assert MealOrder[1..][1..][1..][1..] == [];
  }
}
