/** The stand-alone BMI calculator (IMT/App.tsx): input validation, the
    metrics computation and the diet-settings updater. React state setters
    are modelled by returning the value the component would store. */
module ImtApp {
  import opened Wrappers
  import opened Constants
  import opened MacroSplit
  import opened Metrics

  /** `validateInputs`: fills an errors object field by field and reports whether it stayed empty. */
  method ValidateInputs(d: UserData) returns (errors: InputErrors, ok: bool)
    ensures errors.weight.None? <==> WeightInRange(d.weight)
    ensures errors.height.None? <==> HeightInRange(d.height)
    ensures errors.age.None? <==> AgeInRange(d.age)
    ensures errors.weight.Some? ==> errors.weight.value == WeightError
    ensures errors.height.Some? ==> errors.height.value == HeightError
    ensures errors.age.Some? ==> errors.age.value == AgeError
    ensures ok <==> InputsValid(d)
  {
    errors := InputErrors(None, None, None);
    if d.weight.None? || d.weight.value < 20.0 || d.weight.value > 200.0 {
      errors := errors.(weight := Some(WeightError));
    }
    if d.height.None? || d.height.value < 100.0 || d.height.value > 220.0 {
      errors := errors.(height := Some(HeightError));
    }
    if d.age.None? || d.age.value < 10 || d.age.value > 100 {
      errors := errors.(age := Some(AgeError));
    }
    ok := NoErrors(errors);
  }

  /** `calculateMetrics`: the errors it stores and the results (`None` for `null`). */
  method CalculateMetrics(d: UserData) returns (errors: InputErrors, results: Option<Results>)
    ensures NoErrors(errors) <==> InputsValid(d)
    ensures results.Some? <==> InputsValid(d)
    ensures results.Some? ==> ResultsFor(d, results.value)
  {
    var ok;
    errors, ok := ValidateInputs(d);
    if !ok {
      return errors, None;
    }
    var weightKg, heightCm, ageYears := d.weight.value, d.height.value, d.age.value;
    var heightM := heightCm / 100.0;
    var bmi := weightKg / (heightM * heightM);
    assert bmi == Bmi(weightKg, heightCm);
    BmiBounds(d);

    var current: Option<BmiCategory> := None;
    for i := 0 to |BmiCategories|
      invariant current.None? ==> forall j :: 0 <= j < i ==> !InCategory(BmiCategories[j], bmi)
      invariant forall k :: current == Some(k) ==> k in BmiCategories && InCategory(k, bmi)
    {
      var category := BmiCategories[i];
      if bmi >= category.min && (category.max.Infinity? || bmi < category.max.value) {
        current := Some(category);
        break;
      }
    }
    var last := BmiCategories[|BmiCategories| - 1];
    if current.None? && bmi >= last.min {
      current := Some(last);
    }

    var bmr: real;
    if d.gender == Male {
      bmr := 10.0 * weightKg + 6.25 * heightCm - 5.0 * ageYears as real + 5.0;
    } else {
      bmr := 10.0 * weightKg + 6.25 * heightCm - 5.0 * ageYears as real - 161.0;
    }
    assert bmr == Bmr(d.gender, weightKg, heightCm, ageYears);
    var tdee := bmr * ActivityMultiplier(d.activityLevel);
    assert tdee == Tdee(bmr, d.activityLevel);

    BmiCategoriesPartition(bmi);
    assert current.Some?;
    if current.Some? {
      results := Some(Results(bmi, current.value, bmr, tdee));
    } else {
      results := None;
    }
  }

  /** The protein branch: protein clamped into `[5, 90]`, carb and fat sharing the rest in the previous ratio. */
  method ProteinShares(prev: DietSettings, value: int) returns (p: int, c: int, f: int)
    ensures var r := RebalanceProtein(prev, value);
            p == r.protein && c == r.carb && f == r.fat
  {
    p := Max(MinMacroPercentage, Min(value, 100 - 2 * MinMacroPercentage));
    var remainingForCF := 100 - p;
    var prevCandFSum := prev.carb + prev.fat;
    var cShare: real := 0.5;
    if prevCandFSum > 0 && prevCandFSum != 0 {
      cShare := prev.carb as real / prevCandFSum as real;
    }
    var cTarget := remainingForCF as real * cShare;
    var q := CarbTarget(prev, remainingForCF);
    ShareMatches(prev, remainingForCF, cShare);
    if cTarget < MinMacroPercentage as real {
      c := MinMacroPercentage;
      f := remainingForCF - c;
    } else if remainingForCF as real - cTarget < MinMacroPercentage as real {
      f := MinMacroPercentage;
      c := remainingForCF - f;
    } else {
      c := Round(cTarget);
      f := remainingForCF - c;
    }
  }

  /** The carb branch: carb clamped into `[5, 95 - p]`, fat taking the rest and pinned to the floor. */
  method CarbShares(p: int, value: int) returns (c: int, f: int)
    ensures p + c + f == 100
    ensures p > 100 - 2 * MinPct ==> c == 100 - p - MinPct && f == MinPct
    ensures p <= 100 - 2 * MinPct ==> c == Clamp(value, MinPct, 100 - p - MinPct) && f >= MinPct
  {
    c := Max(MinMacroPercentage, Min(value, 100 - p - MinMacroPercentage));
    f := 100 - p - c;
    if f < MinMacroPercentage {
      f := MinMacroPercentage;
      c := 100 - p - f;
    }
  }

  /** The fat branch: fat clamped into `[5, 95 - p]`, carb taking the rest and pinned to the floor. */
  method FatShares(p: int, value: int) returns (c: int, f: int)
    ensures p + c + f == 100
    ensures p > 100 - 2 * MinPct ==> c == MinPct && f == 100 - p - MinPct
    ensures p <= 100 - 2 * MinPct ==> f == Clamp(value, MinPct, 100 - p - MinPct) && c >= MinPct
  {
    f := Max(MinMacroPercentage, Min(value, 100 - p - MinMacroPercentage));
    c := 100 - p - f;
    if c < MinMacroPercentage {
      c := MinMacroPercentage;
      f := 100 - p - c;
    }
  }

  /** The tail of `handleDietSettingsChange`: store the rounded shares, then
      the floor repair (fat, then carb, then protein) and the largest-field
      correction of the sum. Stated for the shapes the edit branches produce. */
  method FinishSplit(s: DietSettings, p: int, c: int, f: int) returns (r: DietSettings, ghost nudged: bool)
    requires p + c + f == 100
    ensures !nudged && r.targetCalories == s.targetCalories
    ensures p >= MinPct && f >= MinPct ==> r == s.(protein := p, carb := c, fat := f)
    ensures p > 100 - 2 * MinPct && f < MinPct ==> r == s.(protein := 100 - 2 * MinPct, carb := MinPct, fat := MinPct)
    ensures p < MinPct && f >= MinPct && c + f > 0 ==> r == ProteinRepaired(s, c, f)
  {
    nudged := false;
    RoundOfInt(p);
    RoundOfInt(c);
    r := s.(protein := Round(p as real), carb := Round(c as real));
    r := r.(fat := 100 - r.protein - r.carb);

    if r.fat < MinMacroPercentage {
      r := r.(fat := MinMacroPercentage);
      r := r.(carb := 100 - r.protein - r.fat);
      if r.carb < MinMacroPercentage {
        r := r.(carb := MinMacroPercentage);
        r := r.(protein := 100 - r.carb - r.fat);
      }
    }
    if r.protein < MinMacroPercentage {
      r := r.(protein := MinMacroPercentage);
      var remainingForCF := 100 - r.protein;
      if r.carb + r.fat != remainingForCF {
        var sum := r.carb + r.fat;
        var cRatio: real := 0.5;
        if sum != 0 {
          cRatio := r.carb as real / sum as real;
        }
        if sum > 0 {
          ScaledQuotient(remainingForCF, r.carb, sum, cRatio, 0);
        }
        r := r.(carb := Round(remainingForCF as real * cRatio));
        r := r.(fat := remainingForCF - r.carb);
      }
    }

    var currentSum := r.protein + r.carb + r.fat;
    if currentSum != 100 {
      nudged := true;
      var diff := 100 - currentSum;
      if r.carb >= r.protein && r.carb >= r.fat {
        r := r.(carb := r.carb + diff);
      } else if r.protein >= r.carb && r.protein >= r.fat {
        r := r.(protein := r.protein + diff);
      } else {
        r := r.(fat := r.fat + diff);
      }
    }
  }

  /** `handleDietSettingsChange`, the updater it passes to `setDietSettings`:
      from the previous settings and a one-key update, the settings it
      returns and whether that is the previous object itself. The ghost
      `nudged` records whether the final largest-field correction changed anything. */
  method HandleDietSettingsChange(prev: DietSettings, u: Update) returns (next: DietSettings, reused: bool, ghost nudged: bool)
    ensures Outcome(next, reused) == Rebalance(prev, u)
    ensures !nudged
  {
    nudged := false;
    var newSettings := prev;
    if u.TargetCalories? {
      var newTarget := Max(0, u.value);
      if newTarget != newSettings.targetCalories {
        newSettings := newSettings.(targetCalories := newTarget);
      }
      return newSettings, false, false;
    }

    var p, c, f := newSettings.protein, newSettings.carb, newSettings.fat;
    var value := u.value;
    if u.ProteinPercentage? {
      p, c, f := ProteinShares(prev, value);
      ProteinEditCarbInRange(prev, value);
    } else if u.CarbPercentage? {
      c, f := CarbShares(p, value);
    } else {
      c, f := FatShares(p, value);
    }
    newSettings, nudged := FinishSplit(newSettings, p, c, f);
    if newSettings.protein == prev.protein && newSettings.carb == prev.carb &&
       newSettings.fat == prev.fat && newSettings.targetCalories == prev.targetCalories {
      return prev, true, nudged;
    }
    return newSettings, false, nudged;
  }
}
