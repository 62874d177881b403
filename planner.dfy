/** The nutrition planner component: the events it sends to the
    diet-settings updater, the per-macro breakdown, the outcome message and
    the slider bounds. Both calculators ship the same planner text, so one
    model serves both. */
module Planner {
  import opened Wrappers
  import opened Constants
  import opened Text
  import opened MacroSplit

  /** `handleTargetCaloriesChange`: from the parsed input (`None` for NaN),
      the update it sends and the goal change it requests, if any. */
  method HandleTargetCaloriesChange(input: Option<int>, tdee: real, goal: CalorieGoal)
    returns (u: Update, goalChange: Option<CalorieGoal>)
    ensures u.TargetCalories? && u.value >= 0
    ensures input.Some? && input.value >= 0 ==> u.value == input.value
    ensures input.Some? && input.value < 0 ==> u.value == 0
    ensures input.None? ==> u.value == Max(0, Round(tdee))
    ensures goalChange.Some? <==> goal != Custom
    ensures goalChange.Some? ==> goalChange.value == Custom
  {
    var val: int;
    if input.Some? {
      val := input.value;
    } else {
      val := Round(if tdee != 0.0 then tdee else 0.0);
    }
    if val < 0 {
      val := 0;
    }
    u := TargetCalories(val);
    goalChange := if goal != Custom then Some(Custom) else None;
  }

  /** The target the updater stores after a target-calories edit is exactly the value the handler sent. */
  lemma TargetEditStored(prev: DietSettings, v: int)
    requires v >= 0
    ensures Rebalance(prev, TargetCalories(v)).settings == prev.(targetCalories := v)
  {
  }

  /** `handleMacroChange`: the one-key update for the moved slider. */
  function MacroChange(m: Macro, value: int): (u: Update)
    ensures !u.TargetCalories? && u.value == value
    ensures u.ProteinPercentage? <==> m == Protein
    ensures u.CarbPercentage? <==> m == Carbohydrate
    ensures u.FatPercentage? <==> m == Fat
  {
    match m
    case Protein => ProteinPercentage(value)
    case Carbohydrate => CarbPercentage(value)
    case Fat => FatPercentage(value)
  }

  /** A macro's share of the target, in kcal. */
  function MacroCalories(target: int, percentage: int): real {
    (target * percentage) as real / 100.0
  }

  datatype MacroInfo = MacroInfo(name: string, grams: real, calories: real, percentage: int)

  function MacroName(m: Macro): string {
    match m
    case Protein => "Белки"
    case Carbohydrate => "Углеводы"
    case Fat => "Жиры"
  }

  function Info(m: Macro, target: int, percentage: int): MacroInfo {
    var calories := MacroCalories(target, percentage);
    MacroInfo(MacroName(m), calories / CaloriesPerGram(m) as real, calories, percentage)
  }

  /** The `macronutrients` list: protein, carbohydrate, fat, in that order. */
  function Macronutrients(s: DietSettings): (r: seq<MacroInfo>)
    ensures |r| == 3
  {
    [Info(Protein, s.targetCalories, s.protein),
     Info(Carbohydrate, s.targetCalories, s.carb),
     Info(Fat, s.targetCalories, s.fat)]
  }

  /** Each entry carries its own percentage, its calories are that share of
      the target, and its grams times the macro's energy density give back its calories. */
  lemma BreakdownEntries(s: DietSettings)
    ensures var r := Macronutrients(s);
            && r[0].percentage == s.protein && r[1].percentage == s.carb && r[2].percentage == s.fat
            && r[0].calories * 100.0 == (s.targetCalories * s.protein) as real
            && r[1].calories * 100.0 == (s.targetCalories * s.carb) as real
            && r[2].calories * 100.0 == (s.targetCalories * s.fat) as real
            && r[0].grams * 4.0 == r[0].calories
            && r[1].grams * 4.0 == r[1].calories
            && r[2].grams * 9.0 == r[2].calories
  {
  }

  /** When the percentages sum to 100 the three calorie amounts add up to the target. */
  lemma BreakdownSumsToTarget(s: DietSettings)
    requires PercentSum(s) == 100
    ensures var r := Macronutrients(s);
            r[0].calories + r[1].calories + r[2].calories == s.targetCalories as real
  {
    var t := s.targetCalories;
    assert t * s.protein + t * s.carb + t * s.fat == t * 100;
    MulAsReal(t, 100);
  }

  datatype DietOutcome = LoseWeight | GainWeight | KeepWeight

  /** The outcome message's case: more than 5% of TDEE below it loses weight, more than 5% above gains. */
  function OutcomeOf(target: int, tdee: real): DietOutcome {
    var calorieDiff := target as real - tdee;
    var tdeeThreshold := tdee * 0.05;
    if calorieDiff < -tdeeThreshold then LoseWeight
    else if calorieDiff > tdeeThreshold then GainWeight
    else KeepWeight
  }

  /** For a non-negative TDEE exactly one outcome holds, each by its own condition. */
  lemma OutcomeTrichotomy(target: int, tdee: real)
    requires tdee >= 0.0
    ensures var d := target as real - tdee;
            && (OutcomeOf(target, tdee) == LoseWeight <==> d < -0.05 * tdee)
            && (OutcomeOf(target, tdee) == GainWeight <==> d > 0.05 * tdee)
            && (OutcomeOf(target, tdee) == KeepWeight <==> -0.05 * tdee <= d <= 0.05 * tdee)
  {
  }

  function OutcomeTail(o: DietOutcome): string {
    match o
    case LoseWeight => "приведет к потере веса."
    case GainWeight => "приведет к набору веса."
    case KeepWeight => "поможет сохранить текущий вес."
  }

  function MessageFor(target: int, o: DietOutcome): string {
    "Этот рацион (" + IntToString(target) + " ккал) " + OutcomeTail(o)
  }

  /** `outcomeMessage` */
  function OutcomeMessage(target: int, tdee: real): string {
    MessageFor(target, OutcomeOf(target, tdee))
  }

  lemma SuffixChar(h: string, t: string, k: nat)
    requires 0 < k <= |t|
    ensures (h + t)[|h + t| - k] == t[|t| - k]
  {
  }

  /** Two characters near its end tell the three tails apart. */
  lemma TailMarks(o: DietOutcome)
    ensures |OutcomeTail(o)| >= 7
    ensures var t := OutcomeTail(o);
            (t[|t| - 2], t[|t| - 7]) ==
              match o case LoseWeight => ('а', 'е') case GainWeight => ('а', 'у') case KeepWeight => ('с', 'и')
  {
  }

  /** Messages of different outcomes differ, whatever the targets they name. */
  lemma MessagesDistinct(t1: int, o1: DietOutcome, t2: int, o2: DietOutcome)
    requires o1 != o2
    ensures MessageFor(t1, o1) != MessageFor(t2, o2)
  {
    var tail1, tail2 := OutcomeTail(o1), OutcomeTail(o2);
    TailMarks(o1);
    TailMarks(o2);
    SuffixChar("Этот рацион (" + IntToString(t1) + " ккал) ", tail1, 2);
    SuffixChar("Этот рацион (" + IntToString(t1) + " ккал) ", tail1, 7);
    SuffixChar("Этот рацион (" + IntToString(t2) + " ккал) ", tail2, 2);
    SuffixChar("Этот рацион (" + IntToString(t2) + " ккал) ", tail2, 7);
  }

  /** The message names the target. */
  lemma MessageNamesTarget(t: int, o: DietOutcome)
    ensures Contains(MessageFor(t, o), IntToString(t))
  {
    var needle := IntToString(t);
    var rest := needle + " ккал) " + OutcomeTail(o);
    assert MessageFor(t, o) == "Этот рацион (" + rest;
    assert IsPrefix(needle, rest);
    ContainsAppend("Этот рацион (", rest, needle);
  }

  /** `proteinSliderMax` */
  const ProteinSliderMax: int := 100 - 2 * MinMacroPercentage

  /** `actualCarbAndFatMax` for the current protein share. */
  function CarbAndFatSliderMax(protein: int): int {
    Max(MinMacroPercentage, 100 - protein - MinMacroPercentage)
  }

  /** The protein slider ends at 90, the upper end of the updater's protein
      clamp; the carb and fat sliders end at or above the floor and, for a
      protein of at most 90, exactly at the updater's carb and fat clamp bound. */
  lemma SliderBounds(protein: int)
    ensures ProteinSliderMax == 90 == 100 - 2 * MinPct
    ensures CarbAndFatSliderMax(protein) >= MinPct
    ensures protein <= 100 - 2 * MinPct ==> CarbAndFatSliderMax(protein) == 100 - protein - MinPct
  {
  }

  /** From a valid split, any slider position the planner offers is applied exactly. */
  lemma SliderValueApplied(prev: DietSettings, m: Macro, v: int)
    requires ValidSplit(prev)
    requires m == Protein ==> MinPct <= v <= ProteinSliderMax
    requires m != Protein ==> MinPct <= v <= CarbAndFatSliderMax(prev.protein)
    ensures var r := Rebalance(prev, MacroChange(m, v)).settings;
            && (m == Protein ==> r.protein == v)
            && (m == Carbohydrate ==> r.carb == v && r.protein == prev.protein)
            && (m == Fat ==> r.fat == v && r.protein == prev.protein)
  {
    if m == Carbohydrate {
      CarbEditShape(prev, v);
    } else if m == Fat {
      FatEditShape(prev, v);
    }
  }
}
