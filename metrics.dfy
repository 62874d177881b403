/** Body metrics shared by both calculators: input ranges, BMI, the
    Mifflin-St Jeor BMR, TDEE and the calorie target a goal derives from it. */
module Metrics {
  import opened Wrappers
  import opened Constants
  import MacroSplit

  /** The form, after `parseFloat`/`parseInt`: `None` stands for a NaN parse. */
  datatype UserData = UserData(weight: Option<real>, height: Option<real>, age: Option<int>,
                               gender: Gender, activityLevel: ActivityLevel)

  /** The errors object: one optional message per field. */
  datatype InputErrors = InputErrors(weight: Option<string>, height: Option<string>, age: Option<string>)

  const WeightError: string := "Вес: 20-200 кг."
  const HeightError: string := "Рост: 100-220 см."
  const AgeError: string := "Возраст: 10-100 лет."

  predicate WeightInRange(w: Option<real>) { w.Some? && 20.0 <= w.value <= 200.0 }
  predicate HeightInRange(h: Option<real>) { h.Some? && 100.0 <= h.value <= 220.0 }
  predicate AgeInRange(a: Option<int>) { a.Some? && 10 <= a.value <= 100 }

  predicate InputsValid(d: UserData) {
    WeightInRange(d.weight) && HeightInRange(d.height) && AgeInRange(d.age)
  }

  /** An errors object with no key set. */
  predicate NoErrors(e: InputErrors) {
    e.weight.None? && e.height.None? && e.age.None?
  }

  /** `weight / (height / 100)^2`, with the weight in kg and the height in cm. */
  function Bmi(weightKg: real, heightCm: real): real
    requires heightCm != 0.0
  {
    var heightM := heightCm / 100.0;
    weightKg / (heightM * heightM)
  }

  /** Mifflin-St Jeor: `10 w + 6.25 h - 5 a`, plus 5 for men and minus 161 for women. */
  function Bmr(gender: Gender, weightKg: real, heightCm: real, ageYears: int): real {
    var base := 10.0 * weightKg + 6.25 * heightCm - 5.0 * ageYears as real;
    if gender == Male then base + 5.0 else base - 161.0
  }

  function Tdee(bmr: real, level: ActivityLevel): real {
    bmr * ActivityMultiplier(level)
  }

  datatype Results = Results(bmi: real, bmiCategory: BmiCategory, bmr: real, tdee: real)

  /** What the results should be for valid inputs: BMI, the one band holding it, BMR and TDEE. */
  predicate ResultsFor(d: UserData, r: Results)
    requires InputsValid(d)
  {
    var bmi := Bmi(d.weight.value, d.height.value);
    var bmr := Bmr(d.gender, d.weight.value, d.height.value, d.age.value);
    && r.bmi == bmi
    && r.bmiCategory in BmiCategories
    && InCategory(r.bmiCategory, bmi)
    && r.bmr == bmr
    && r.tdee == Tdee(bmr, d.activityLevel)
  }

  /** For valid inputs the BMI lies between 20 / 2.2^2 and 200, so it is positive. */
  lemma BmiBounds(d: UserData)
    requires InputsValid(d)
    ensures 4.0 < Bmi(d.weight.value, d.height.value) <= 200.0
  {
    var w, h := d.weight.value, d.height.value;
    var hm := h / 100.0;
    var sq := hm * hm;
    assert 1.0 <= hm <= 2.2;
    assert hm * hm <= 2.2 * hm <= 4.84;
    assert hm * hm >= 1.0 * hm >= 1.0;
    var b := w / sq;
    assert b == Bmi(w, h);
    assert b * sq == w;
    assert (b - 4.0) * sq == w - 4.0 * sq > 0.0;
    assert (200.0 - b) * sq == 200.0 * sq - w >= 0.0;
    FactorSign(b - 4.0, sq);
    FactorSign(200.0 - b, sq);
    assert b > 4.0 && b <= 200.0;
  }

  /** The sign of a product with a positive factor is the sign of the other factor. */
  lemma FactorSign(x: real, y: real)
    requires y > 0.0
    ensures x * y > 0.0 ==> x > 0.0
    ensures x * y >= 0.0 ==> x >= 0.0
  {
  }

  /** Men's BMR is always 166 kcal above women's for the same body. */
  lemma BmrGenderGap(w: real, h: real, a: int)
    ensures Bmr(Male, w, h, a) - Bmr(Female, w, h, a) == 166.0
  {
  }

  /** For valid inputs BMR is at least 164 kcal, so TDEE is positive and grows with the activity level. */
  lemma TdeePositive(d: UserData)
    requires InputsValid(d)
    ensures Bmr(d.gender, d.weight.value, d.height.value, d.age.value) >= 164.0
    ensures Tdee(Bmr(d.gender, d.weight.value, d.height.value, d.age.value), d.activityLevel) > 0.0
  {
  }

  /** TDEE is increasing in the activity level for a positive BMR. */
  lemma TdeeIncreasesWithActivity(bmr: real, a: ActivityLevel, b: ActivityLevel)
    requires bmr > 0.0 && ActivityRank(a) < ActivityRank(b)
    ensures Tdee(bmr, a) < Tdee(bmr, b)
  {
    MultipliersIncrease(a, b);
  }

  /** The calories a preset goal aims at: 85%, 100% or 115% of TDEE. */
  function GoalCalories(tdee: real, goal: CalorieGoal): real
    requires goal != Custom
  {
    match goal
    case Loss => tdee * (1.0 - WeightLossPercentage)
    case Gain => tdee * (1.0 + WeightGainPercentage)
    case Maintenance => tdee
  }

  /** One run of the target-calorie effect: the new target it stores, or
      `None` when it stores nothing. It acts only when there are results with a
      truthy (non-zero) TDEE; a preset goal stores its rounded calories when
      they differ from the current target, the custom goal stores the rounded
      TDEE only over a target of 0. */
  function TargetCaloriesEffect(results: Option<Results>, goal: CalorieGoal, current: int): Option<int> {
    if results.None? || results.value.tdee == 0.0 then None
    else if goal != Custom then
      var t := MacroSplit.Round(GoalCalories(results.value.tdee, goal));
      if t != current then Some(t) else None
    else if current == 0 then Some(MacroSplit.Round(results.value.tdee))
    else None
  }

  /** The effect stores exactly the goal's rounded calories, and only when the target differs from them. */
  lemma TargetEffectPreset(results: Option<Results>, goal: CalorieGoal, current: int)
    requires results.Some? && results.value.tdee != 0.0 && goal != Custom
    ensures var t := MacroSplit.Round(GoalCalories(results.value.tdee, goal));
            && (TargetCaloriesEffect(results, goal, current).None? <==> current == t)
            && (current != t ==> TargetCaloriesEffect(results, goal, current) == Some(t))
            && (goal == Loss ==> t == MacroSplit.Round(results.value.tdee * 0.85))
            && (goal == Maintenance ==> t == MacroSplit.Round(results.value.tdee))
            && (goal == Gain ==> t == MacroSplit.Round(results.value.tdee * 1.15))
  {
  }

  /** Under the custom goal a stored target is never overwritten; only 0 is replaced by the rounded TDEE. */
  lemma TargetEffectCustom(results: Option<Results>, current: int)
    requires results.Some? && results.value.tdee != 0.0
    ensures current != 0 ==> TargetCaloriesEffect(results, Custom, current).None?
    ensures current == 0 ==> TargetCaloriesEffect(results, Custom, current) == Some(MacroSplit.Round(results.value.tdee))
  {
  }

  /** With no results, or a zero TDEE, the effect does nothing. */
  lemma TargetEffectInactive(results: Option<Results>, goal: CalorieGoal, current: int)
    requires results.None? || results.value.tdee == 0.0
    ensures TargetCaloriesEffect(results, goal, current).None?
  {
  }

  /** Re-running the effect after it stored a preset target stores nothing: the target is a fixed point. */
  lemma TargetEffectSettles(results: Option<Results>, goal: CalorieGoal, current: int)
    requires goal != Custom && TargetCaloriesEffect(results, goal, current).Some?
    ensures TargetCaloriesEffect(results, goal, TargetCaloriesEffect(results, goal, current).value).None?
  {
  }

  /** For a positive TDEE the loss target is below maintenance and maintenance is below gain, before rounding. */
  lemma GoalCaloriesOrdered(tdee: real)
    requires tdee > 0.0
    ensures GoalCalories(tdee, Loss) < GoalCalories(tdee, Maintenance) < GoalCalories(tdee, Gain)
  {
  }
}
