/** The macro-percentage rebalancer of the nutrition planner: what a single
    slider edit does to the diet settings.

    `Rebalance` is the reference definition: one case per edited key, with
    the fix-up passes of the source already resolved. Both copies of
    `handleDietSettingsChange` (modules `ImtApp` and `BmiCalculatorApp`)
    are proved to compute exactly this function, and the properties of the
    rebalancer are proved here, once, about it. */
module MacroSplit {
  import opened Constants

  datatype DietSettings = DietSettings(targetCalories: int, protein: int, carb: int, fat: int)

  /** The partial object the planner sends: exactly one key is present. */
  datatype Update =
    | TargetCalories(value: int)
    | ProteinPercentage(value: int)
    | CarbPercentage(value: int)
    | FatPercentage(value: int)

  /** The new settings, and whether the handler hands back the previous object
      itself (`return prevSettings`) rather than a fresh copy. */
  datatype Outcome = Outcome(settings: DietSettings, reused: bool)

  function Max(a: int, b: int): (r: int)
    ensures r >= a && r >= b && (r == a || r == b)
  {
    if a >= b then a else b
  }

  function Min(a: int, b: int): (r: int)
    ensures r <= a && r <= b && (r == a || r == b)
  {
    if a <= b then a else b
  }

  /** `Math.max(lo, Math.min(v, hi))` -- note that it yields `lo` when `hi < lo`. */
  function Clamp(v: int, lo: int, hi: int): (r: int)
    ensures lo <= r
    ensures lo <= hi ==> r <= hi
    ensures lo <= v <= hi ==> r == v
    ensures hi < lo ==> r == lo
  {
    Max(lo, Min(v, hi))
  }

  /** `Math.round(x)`: the nearest integer, halves rounded up. */
  function Round(x: real): (r: int)
    ensures x - 0.5 < r as real <= x + 0.5
  {
    (x + 0.5).Floor
  }

  /** `Math.round(n / d)` for a positive `d`, in integers. */
  function RoundDiv(n: int, d: int): (r: int)
    requires d > 0
    ensures 2 * d * r <= 2 * n + d < 2 * d * (r + 1)
  {
    (2 * n + d) / (2 * d)
  }

  /** A product with a positive factor is positive only when the other factor is. */
  lemma PositiveFactor(m: int, y: int)
    requires m > 0 && m * y > 0
    ensures y > 0
  {
  }

  lemma RoundDivAtLeast(n: int, d: int, k: int)
    requires d > 0 && k * d <= n
    ensures k <= RoundDiv(n, d)
  {
    var r := RoundDiv(n, d);
    assert 2 * d * (r + 1 - k) == 2 * d * (r + 1) - 2 * d * k;
    assert 2 * d * (r + 1) > 2 * n + d >= 2 * (k * d) + d;
    PositiveFactor(2 * d, r + 1 - k);
  }

  lemma RoundDivAtMost(n: int, d: int, k: int)
    requires d > 0 && n <= k * d
    ensures RoundDiv(n, d) <= k
  {
    var r := RoundDiv(n, d);
    assert 2 * d * (k + 1 - r) == 2 * (k * d) + 2 * d - 2 * d * r;
    assert 2 * d * r <= 2 * n + d <= 2 * (k * d) + d;
    PositiveFactor(2 * d, k + 1 - r);
  }

  lemma RoundDivExact(k: int, d: int)
    requires d > 0
    ensures RoundDiv(k * d, d) == k
  {
    RoundDivAtLeast(k * d, d, k);
    RoundDivAtMost(k * d, d, k);
  }

  /** `RoundDiv(n, d)` is within half of `d` of `n / d`, in units of `1 / d`. */
  lemma RoundDivError(n: int, d: int)
    requires d > 0
    ensures -d < 2 * (RoundDiv(n, d) * d - n) <= d
  {
    var r := RoundDiv(n, d);
    assert 2 * d * r == 2 * (r * d);
    assert 2 * d * (r + 1) == 2 * (r * d) + 2 * d;
  }

  lemma MulAsReal(a: int, b: int)
    ensures (a * b) as real == a as real * b as real
  {
  }

  lemma RealQuotient(y: real, m: real, dd: real)
    requires dd != 0.0 && y * dd == m
    ensures y == m / dd
  {
  }

  /** `(r * D + t) / D` with `0 <= t < D` has floor `r`. */
  lemma FloorOfQuotient(r: int, t: int, dd: int)
    requires dd > 0 && 0 <= t < dd
    ensures ((r * dd + t) as real / dd as real).Floor == r
  {
    MulAsReal(r, dd);
    var d, q := dd as real, t as real / dd as real;
    FractionBelowOne(t as real, d);
    RealQuotient(r as real + q, (r * dd + t) as real, d);
  }

  /** `t / d` with `0 <= t < d` lies in `[0, 1)`. */
  lemma FractionBelowOne(t: real, d: real)
    requires 0.0 <= t < d
    ensures 0.0 <= t / d < 1.0
  {
  }

  /** The real-valued `Math.round(n / d)` of the source is the integer `RoundDiv`. */
  lemma RoundOfQuotient(n: int, d: int)
    requires d > 0
    ensures Round(n as real / d as real) == RoundDiv(n, d)
  {
    var m, dd := 2 * n + d, 2 * d;
    var r, t := m / dd, m % dd;
    assert m == r * dd + t;
    var x := n as real / d as real;
    assert x * d as real == n as real;
    assert (x + 0.5) * dd as real == m as real;
    RealQuotient(x + 0.5, m as real, dd as real);
    FloorOfQuotient(r, t, dd);
  }

  /** `Math.round` leaves an integer unchanged. */
  lemma RoundOfInt(k: int)
    ensures Round(k as real) == k
  {
  }

  /** Comparing a quotient with an integer is comparing the numerator with a multiple of the divisor. */
  lemma QuotientLess(m: int, d: int, k: int)
    requires d > 0
    ensures m as real / d as real < k as real <==> m < k * d
  {
    var x := m as real / d as real;
    var dr := d as real;
    assert x * dr == m as real;
    MulAsReal(k, d);
    assert (k as real - x) * dr == (k * d - m) as real;
    SignOfFactor(k as real - x, dr);
  }

  lemma ScaledAsQuotient(a: int, n: int, d: int, q: real)
    requires d > 0 && q == n as real / d as real
    ensures a as real * q == (a * n) as real / d as real
  {
    var dr := d as real;
    assert q * dr == n as real;
    MulAsReal(a, n);
    assert (a as real * q) * dr == (a * n) as real;
    RealQuotient(a as real * q, (a * n) as real, dr);
  }

  lemma ComplementAsQuotient(a: int, m: int, d: int)
    requires d > 0
    ensures a as real - m as real / d as real == (a * d - m) as real / d as real
  {
    var x := m as real / d as real;
    var dr := d as real;
    assert x * dr == m as real;
    MulAsReal(a, d);
    assert (a as real - x) * dr == (a * d - m) as real;
    RealQuotient(a as real - x, (a * d - m) as real, dr);
  }

  /** The source's real-valued `a * (n / d)`: its comparisons with an integer
      `k` are the integer comparisons on `a * n` against `k * d`, and its rounding is `RoundDiv(a * n, d)`. */
  lemma ScaledQuotient(a: int, n: int, d: int, q: real, k: int)
    requires d > 0 && q == n as real / d as real
    ensures var t := a as real * q;
            && (t < k as real <==> a * n < k * d)
            && (a as real - t < k as real <==> a * d - a * n < k * d)
            && Round(t) == RoundDiv(a * n, d)
  {
    ScaledAsQuotient(a, n, d, q);
    ComplementAsQuotient(a, a * n, d);
    QuotientLess(a * n, d, k);
    QuotientLess(a * d - a * n, d, k);
    RoundOfQuotient(a * n, d);
  }

  /** The sign of a product with a positive factor is the sign of the other factor. */
  lemma SignOfFactor(x: real, y: real)
    requires y > 0.0
    ensures x * y > 0.0 <==> x > 0.0
  {
    if x > 0.0 {
      assert x * y > 0.0;
    }
  }

  /** The floor every macro must keep. */
  const MinPct := MinMacroPercentage

  function PercentSum(s: DietSettings): int {
    s.protein + s.carb + s.fat
  }

  /** The invariant the planner is meant to keep: the three shares sum to 100 and none is below the floor. */
  predicate ValidSplit(s: DietSettings) {
    PercentSum(s) == 100 && s.protein >= MinPct && s.carb >= MinPct && s.fat >= MinPct
  }

  /** Numerator and denominator of `c_target`, the carb part of the remainder
      `rem` in the previous carb:fat ratio, or half of it when that pair sums to 0 or less. */
  function CarbTarget(prev: DietSettings, rem: int): (q: (int, int))
    ensures q.1 > 0
  {
    var s := prev.carb + prev.fat;
    if s > 0 then (rem * prev.carb, s) else (rem, 2)
  }

  /** A protein edit: protein is clamped, carb and fat share the rest in their old ratio, pinned to the floor. */
  function RebalanceProtein(prev: DietSettings, v: int): DietSettings {
    var p := Clamp(v, MinPct, 100 - 2 * MinPct);
    var rem := 100 - p;
    var (num, den) := CarbTarget(prev, rem);
    var c :=
      if num < MinPct * den then MinPct
      else if rem * den - num < MinPct * den then rem - MinPct
      else RoundDiv(num, den);
    prev.(protein := p, carb := c, fat := rem - c)
  }

  /** The protein repair pass, reached only when the previous protein is
      below the floor: protein goes up to the floor and carb and fat share
      the rest in their current ratio. */
  function ProteinRepaired(prev: DietSettings, c: int, f: int): DietSettings
    requires c + f > 0
  {
    var rem := 100 - MinPct;
    var carb := RoundDiv(rem * c, c + f);
    prev.(protein := MinPct, carb := carb, fat := rem - carb)
  }

  /** A carb edit: protein stays, carb is clamped to `[floor, 100 - p - floor]`, fat takes the rest. */
  function RebalanceCarb(prev: DietSettings, v: int): DietSettings {
    var p := prev.protein;
    if p > 100 - 2 * MinPct then
      prev.(carb := 100 - p - MinPct, fat := MinPct)
    else
      var c := Clamp(v, MinPct, 100 - p - MinPct);
      if p >= MinPct then prev.(carb := c, fat := 100 - p - c)
      else ProteinRepaired(prev, c, 100 - p - c)
  }

  /** A fat edit: protein stays, fat is clamped to `[floor, 100 - p - floor]`, carb takes the rest. */
  function RebalanceFat(prev: DietSettings, v: int): DietSettings {
    var p := prev.protein;
    if p > 100 - 2 * MinPct then
      prev.(protein := 100 - 2 * MinPct, carb := MinPct, fat := MinPct)
    else
      var f := Clamp(v, MinPct, 100 - p - MinPct);
      if p >= MinPct then prev.(carb := 100 - p - f, fat := f)
      else ProteinRepaired(prev, 100 - p - f, f)
  }

  /** What `handleDietSettingsChange` turns the previous settings into. */
  function Rebalance(prev: DietSettings, u: Update): Outcome {
    match u
    case TargetCalories(v) => Outcome(prev.(targetCalories := Max(0, v)), false)
    case _ =>
      var next :=
        match u
        case ProteinPercentage(v) => RebalanceProtein(prev, v)
        case CarbPercentage(v) => RebalanceCarb(prev, v)
        case FatPercentage(v) => RebalanceFat(prev, v);
      Outcome(next, next == prev)
  }

  /** `c_share`: the previous carb share of carb + fat, or one half when that sum is not positive. */
  predicate ShareOf(prev: DietSettings, share: real) {
    share == if prev.carb + prev.fat > 0 then prev.carb as real / (prev.carb + prev.fat) as real else 0.5
  }

  /** The source's real carb target `rem * share` compares with the floor,
      and rounds, like the integer quotient `CarbTarget`. */
  lemma ShareMatches(prev: DietSettings, rem: int, share: real)
    requires ShareOf(prev, share)
    ensures var q := CarbTarget(prev, rem);
            var t := rem as real * share;
            && (t < MinPct as real <==> q.0 < MinPct * q.1)
            && (rem as real - t < MinPct as real <==> rem * q.1 - q.0 < MinPct * q.1)
            && Round(t) == RoundDiv(q.0, q.1)
  {
    var s := prev.carb + prev.fat;
    if s > 0 {
      RatioMatches(rem, prev.carb, s, share);
    } else {
      HalfMatches(rem, share);
    }
  }

  /** The source's real carb target `rem * share`, with `share = prevC / (prevC + prevF)`, compares and rounds like the integer quotient. */
  lemma RatioMatches(rem: int, carb: int, s: int, share: real)
    requires s > 0 && share == carb as real / s as real
    ensures var t := rem as real * share;
            && (t < MinPct as real <==> rem * carb < MinPct * s)
            && (rem as real - t < MinPct as real <==> rem * s - rem * carb < MinPct * s)
            && Round(t) == RoundDiv(rem * carb, s)
  {
    ScaledQuotient(rem, carb, s, share, MinPct);
  }

  lemma HalfMatches(rem: int, share: real)
    requires share == 0.5
    ensures var t := rem as real * share;
            && (t < MinPct as real <==> rem < MinPct * 2)
            && (rem as real - t < MinPct as real <==> rem * 2 - rem < MinPct * 2)
            && Round(t) == RoundDiv(rem, 2)
  {
    assert 0.5 == 1 as real / 2 as real;
    ScaledQuotient(rem, 1, 2, share, MinPct);
    assert rem * 1 == rem;
  }

  // ---------------------------------------------------------------------
  // Properties of the rebalancer

  /** Every percentage edit, from any previous settings, leaves percentages summing to exactly 100. */
  lemma SumIs100(prev: DietSettings, u: Update)
    requires !u.TargetCalories?
    ensures PercentSum(Rebalance(prev, u).settings) == 100
  {
  }

  /** The carb share chosen on a protein edit is at least the floor and leaves the floor for fat. */
  lemma ProteinEditCarbInRange(prev: DietSettings, v: int)
    ensures var r := RebalanceProtein(prev, v);
            MinPct <= r.carb && MinPct <= r.fat
  {
    var p := Clamp(v, MinPct, 100 - 2 * MinPct);
    var rem := 100 - p;
    var (num, den) := CarbTarget(prev, rem);
    if !(num < MinPct * den) && !(rem * den - num < MinPct * den) {
      RoundDivAtLeast(num, den, MinPct);
      RoundDivAtMost(num, den, rem - MinPct);
    }
  }

  /** A protein edit yields a valid split from ANY previous settings. */
  lemma ProteinEditAlwaysValid(prev: DietSettings, v: int)
    ensures ValidSplit(Rebalance(prev, ProteinPercentage(v)).settings)
  {
    ProteinEditCarbInRange(prev, v);
  }

  /** From a valid split, every edit yields a valid split. */
  lemma FloorKept(prev: DietSettings, u: Update)
    requires ValidSplit(prev)
    ensures ValidSplit(Rebalance(prev, u).settings)
  {
    if u.ProteinPercentage? {
      ProteinEditAlwaysValid(prev, u.value);
    }
  }

  /** A protein edit sets protein to the edit clamped into `[5, 90]`; nothing but the three shares changes. */
  lemma ProteinEditClamp(prev: DietSettings, v: int)
    ensures var r := Rebalance(prev, ProteinPercentage(v)).settings;
            && r.protein == Clamp(v, MinPct, 100 - 2 * MinPct)
            && MinPct <= r.protein <= 100 - 2 * MinPct
            && r.targetCalories == prev.targetCalories
  {
  }

  /** On a protein edit carb is the nearest integer (halves up) to the old
      carb:fat ratio's part of the remainder, unless that part or its
      complement falls below the floor, in which case that side is pinned to the floor. */
  lemma ProteinEditRatio(prev: DietSettings, v: int)
    requires prev.carb + prev.fat > 0
    ensures var r := Rebalance(prev, ProteinPercentage(v)).settings;
            var rem := 100 - r.protein;
            var s := prev.carb + prev.fat;
            && (rem * prev.carb < MinPct * s ==> r.carb == MinPct && r.fat == rem - MinPct)
            && (rem * prev.carb >= MinPct * s && rem * prev.fat < MinPct * s ==>
                  r.fat == MinPct && r.carb == rem - MinPct)
            && (rem * prev.carb >= MinPct * s && rem * prev.fat >= MinPct * s ==>
                  -s < 2 * (r.carb * s - rem * prev.carb) <= s && r.fat == rem - r.carb)
  {
    var p := Clamp(v, MinPct, 100 - 2 * MinPct);
    var rem := 100 - p;
    var s := prev.carb + prev.fat;
    assert CarbTarget(prev, rem) == (rem * prev.carb, s);
    assert rem * s - rem * prev.carb == rem * prev.fat;
    RoundDivError(rem * prev.carb, s);
  }

  /** With a non-positive old carb + fat, a protein edit splits the remainder in half, rounding carb up. */
  lemma ProteinEditEvenSplit(prev: DietSettings, v: int)
    requires prev.carb + prev.fat <= 0
    ensures var r := Rebalance(prev, ProteinPercentage(v)).settings;
            var rem := 100 - r.protein;
            r.carb == (rem + 1) / 2 && r.fat == rem / 2
  {
  }

  /** From a split whose protein is within `[5, 90]`, a carb edit keeps protein,
      clamps carb into `[5, 95 - p]` and gives fat the rest. */
  lemma CarbEditShape(prev: DietSettings, v: int)
    requires MinPct <= prev.protein <= 100 - 2 * MinPct
    ensures var r := Rebalance(prev, CarbPercentage(v)).settings;
            var p := prev.protein;
            && r.protein == p
            && r.carb == Clamp(v, MinPct, 100 - p - MinPct)
            && MinPct <= r.carb <= 100 - p - MinPct
            && r.fat == 100 - p - r.carb
  {
  }

  /** The same for a fat edit, with carb taking the rest. */
  lemma FatEditShape(prev: DietSettings, v: int)
    requires MinPct <= prev.protein <= 100 - 2 * MinPct
    ensures var r := Rebalance(prev, FatPercentage(v)).settings;
            var p := prev.protein;
            && r.protein == p
            && r.fat == Clamp(v, MinPct, 100 - p - MinPct)
            && MinPct <= r.fat <= 100 - p - MinPct
            && r.carb == 100 - p - r.fat
  {
  }

  /** The previous object is handed back exactly when a percentage edit changes nothing. */
  lemma ReusedIffUnchanged(prev: DietSettings, u: Update)
    ensures Rebalance(prev, u).reused <==> (!u.TargetCalories? && Rebalance(prev, u).settings == prev)
  {
  }

  lemma ProteinNoOp(prev: DietSettings)
    requires ValidSplit(prev)
    ensures RebalanceProtein(prev, prev.protein) == prev
  {
    var s := prev.carb + prev.fat;
    assert 100 - prev.protein == s;
    assert CarbTarget(prev, s) == (s * prev.carb, s);
    KeptRatio(prev.carb, prev.fat);
  }

  /** Splitting `c + f` in the ratio `c : f` gives `c` back, and neither side falls below the floor. */
  lemma KeptRatio(c: int, f: int)
    requires c >= MinPct && f >= MinPct
    ensures var s := c + f;
            && !(s * c < MinPct * s)
            && !(s * s - s * c < MinPct * s)
            && RoundDiv(s * c, s) == c
  {
    var s := c + f;
    assert s * c == c * s;
    assert s * s - s * c == f * s;
    MulMonotone(c, MinPct, s);
    MulMonotone(f, MinPct, s);
    RoundDivExact(c, s);
  }

  lemma MulMonotone(a: int, b: int, s: int)
    requires a >= b && s > 0
    ensures a * s >= b * s
  {
    assert a * s - b * s == (a - b) * s;
  }

  /** Moving a slider of a valid split to its current value is a no-op that returns the previous object. */
  lemma NoOpEdit(prev: DietSettings, m: Macro)
    requires ValidSplit(prev)
    ensures var u := match m
                     case Protein => ProteinPercentage(prev.protein)
                     case Carbohydrate => CarbPercentage(prev.carb)
                     case Fat => FatPercentage(prev.fat);
            Rebalance(prev, u) == Outcome(prev, true)
  {
    if m == Protein {
      ProteinNoOp(prev);
    }
  }

  /** A target-only update stores `max(0, v)`, keeps every percentage, and always yields a fresh object. */
  lemma TargetOnlyUpdate(prev: DietSettings, v: int)
    ensures var o := Rebalance(prev, TargetCalories(v));
            && o.settings.targetCalories >= 0
            && (v >= 0 ==> o.settings.targetCalories == v)
            && o.settings.protein == prev.protein
            && o.settings.carb == prev.carb
            && o.settings.fat == prev.fat
            && !o.reused
  {
  }

  /** A percentage edit never changes the calorie target. */
  lemma PercentageEditKeepsTarget(prev: DietSettings, u: Update)
    requires !u.TargetCalories?
    ensures Rebalance(prev, u).settings.targetCalories == prev.targetCalories
  {
  }

  /** Stored settings are only type-checked when loaded, so the previous split
      may be invalid; then a carb edit can leave carb below the floor, while a
      fat edit repairs the split to 90/5/5. */
  lemma InvalidPreviousSplit()
    ensures Rebalance(DietSettings(2000, 95, 0, 5), CarbPercentage(40)).settings == DietSettings(2000, 95, 0, 5)
    ensures Rebalance(DietSettings(2000, 95, 0, 5), FatPercentage(40)).settings == DietSettings(2000, 90, 5, 5)
  {
  }

  /** The protein edit from 30/40/30 to 50 gives 50/29/21; from 10/85/5 to 90 gives 90/5/5. */
  lemma ProteinEditExamples()
    ensures Rebalance(DietSettings(0, 30, 40, 30), ProteinPercentage(50)).settings == DietSettings(0, 50, 29, 21)
    ensures Rebalance(DietSettings(0, 10, 85, 5), ProteinPercentage(90)).settings == DietSettings(0, 90, 5, 5)
    ensures Rebalance(DietSettings(0, 30, 40, 30), ProteinPercentage(1000)).settings.protein == 90
    ensures Rebalance(DietSettings(0, 30, 40, 30), ProteinPercentage(-50)).settings.protein == 5
  {
  }
}
