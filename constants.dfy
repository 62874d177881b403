/** The calculator's configuration: activity multipliers, the BMI category
    table, energy densities, the macro floor, the initial split and the
    calorie-goal factors. */
module Constants {

  datatype Gender = Male | Female

  datatype ActivityLevel = Sedentary | Light | Moderate | Active | VeryActive

  datatype CalorieGoal = Loss | Maintenance | Gain | Custom

  datatype Macro = Protein | Carbohydrate | Fat

  /** Position of a level in the declared order, from least to most active. */
  function ActivityRank(level: ActivityLevel): nat {
    match level
    case Sedentary => 0
    case Light => 1
    case Moderate => 2
    case Active => 3
    case VeryActive => 4
  }

  /** TDEE = BMR times this factor. */
  function ActivityMultiplier(level: ActivityLevel): real {
    match level
    case Sedentary => 1.2
    case Light => 1.375
    case Moderate => 1.55
    case Active => 1.725
    case VeryActive => 1.9
  }

  /** A more active level always has a larger multiplier. */
  lemma MultipliersIncrease(a: ActivityLevel, b: ActivityLevel)
    ensures ActivityRank(a) < ActivityRank(b) <==> ActivityMultiplier(a) < ActivityMultiplier(b)
  {
  }

  /** The upper end of a BMI band: a number, or `Infinity` for the last band. */
  datatype Bound = Finite(value: real) | Infinity

  datatype BmiCategory = BmiCategory(name: string, min: real, max: Bound)

  /** `bmi >= category.min && bmi < category.max` */
  predicate InCategory(c: BmiCategory, bmi: real) {
    c.min <= bmi && (c.max.Finite? ==> bmi < c.max.value)
  }

  const BmiCategories: seq<BmiCategory> := [
    BmiCategory("Значительный дефицит массы", 0.0, Finite(16.0)),
    BmiCategory("Недостаточная масса", 16.0, Finite(18.5)),
    BmiCategory("Нормальный вес", 18.5, Finite(25.0)),
    BmiCategory("Избыточная масса", 25.0, Finite(30.0)),
    BmiCategory("Ожирение I степени", 30.0, Finite(35.0)),
    BmiCategory("Ожирение II степени", 35.0, Finite(40.0)),
    BmiCategory("Ожирение III степени", 40.0, Infinity)
  ]

  /** Each band ends where the next begins, bands are non-empty, and only the last is unbounded. */
  predicate Contiguous(cats: seq<BmiCategory>) {
    && |cats| > 0
    && cats[|cats| - 1].max == Infinity
    && (forall i :: 0 <= i < |cats| - 1 ==>
          cats[i].max.Finite? && cats[i].max.value == cats[i + 1].min && cats[i].min < cats[i].max.value)
  }

  lemma BmiCategoriesContiguous()
    ensures Contiguous(BmiCategories) && BmiCategories[0].min == 0.0
  {
  }

  /** In a contiguous table, the band holding `x` starts at or below `x`, and every later band starts above it. */
  lemma {:induction false} ContiguousMinsIncrease(cats: seq<BmiCategory>, i: nat, j: nat)
    requires Contiguous(cats) && i < j < |cats|
    ensures cats[i].max.Finite? && cats[i].max.value <= cats[j].min
    decreases j - i
  {
    if j > i + 1 {
      ContiguousMinsIncrease(cats, i + 1, j);
    }
  }

  /** No value lies in two bands of a contiguous table. */
  lemma CategoryUnique(cats: seq<BmiCategory>, x: real, i: nat, j: nat)
    requires Contiguous(cats) && i < |cats| && j < |cats|
    requires InCategory(cats[i], x) && InCategory(cats[j], x)
    ensures i == j
  {
    if i < j {
      ContiguousMinsIncrease(cats, i, j);
    } else if j < i {
      ContiguousMinsIncrease(cats, j, i);
    }
  }

  /** Every value from the table's lower end upwards lies in some band. */
  lemma {:induction false} CategoryExists(cats: seq<BmiCategory>, x: real) returns (k: nat)
    requires Contiguous(cats) && cats[0].min <= x
    ensures k < |cats| && InCategory(cats[k], x)
    decreases |cats|
  {
    if InCategory(cats[0], x) {
      k := 0;
    } else {
      assert |cats| > 1;
      var rest := cats[1..];
      assert Contiguous(rest) by {
        forall i | 0 <= i < |rest| - 1
          ensures rest[i].max.Finite? && rest[i].max.value == rest[i + 1].min && rest[i].min < rest[i].max.value
        {
          assert rest[i] == cats[i + 1] && rest[i + 1] == cats[i + 2];
        }
      }
      var k' := CategoryExists(rest, x);
      k := k' + 1;
    }
  }

  /** The BMI table partitions `[0, Infinity)`: each non-negative BMI is in exactly one band, a negative one in none. */
  lemma BmiCategoriesPartition(bmi: real)
    ensures bmi >= 0.0 <==> exists k :: 0 <= k < |BmiCategories| && InCategory(BmiCategories[k], bmi)
    ensures forall i, j ::
              (0 <= i < |BmiCategories| && 0 <= j < |BmiCategories| &&
               InCategory(BmiCategories[i], bmi) && InCategory(BmiCategories[j], bmi)) ==> i == j
  {
    BmiCategoriesContiguous();
    if bmi >= 0.0 {
      var k := CategoryExists(BmiCategories, bmi);
    }
    forall i, j | 0 <= i < |BmiCategories| && 0 <= j < |BmiCategories| &&
                  InCategory(BmiCategories[i], bmi) && InCategory(BmiCategories[j], bmi)
      ensures i == j
    {
      CategoryUnique(BmiCategories, bmi, i, j);
    }
  }

  /** `MACRONUTRIENT_CALORIES_PER_GRAM`, in kcal per gram. */
  function CaloriesPerGram(m: Macro): (r: nat)
    ensures r > 0
  {
    match m
    case Protein => 4
    case Carbohydrate => 4
    case Fat => 9
  }

  const InitialProteinPercentage: int := 30
  const InitialCarbPercentage: int := 40
  const InitialFatPercentage: int := 30
  /** The smallest share any macro may take of the calories, in percent. */
  const MinMacroPercentage: int := 5

  /** The default split sums to 100 with every part at or above the floor,
      and the floor leaves room for all three parts. */
  lemma InitialSplitValid()
    ensures InitialProteinPercentage + InitialCarbPercentage + InitialFatPercentage == 100
    ensures InitialProteinPercentage >= MinMacroPercentage
    ensures InitialCarbPercentage >= MinMacroPercentage
    ensures InitialFatPercentage >= MinMacroPercentage
    ensures 3 * MinMacroPercentage <= 100
  {
  }

  /** 15% below TDEE for losing weight. */
  const WeightLossPercentage: real := 0.15
  /** 15% above TDEE for gaining weight. */
  const WeightGainPercentage: real := 0.15

  datatype GoalOption = GoalOption(goal: CalorieGoal, title: string)

  /** `CALORIE_GOAL_OPTIONS`: the buttons of the planner; `Custom` has none. */
  const CalorieGoalOptions: seq<GoalOption> := [
    GoalOption(Loss, "Снижение веса"),
    GoalOption(Maintenance, "Поддержание веса"),
    GoalOption(Gain, "Набор веса")
  ]

  lemma GoalOptionsExcludeCustom()
    ensures (set o | o in CalorieGoalOptions :: o.goal) == {Loss, Maintenance, Gain}
  {
    assert CalorieGoalOptions[0].goal == Loss;
    assert CalorieGoalOptions[1].goal == Maintenance;
    assert CalorieGoalOptions[2].goal == Gain;
  }
}
