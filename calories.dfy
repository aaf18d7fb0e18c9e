/** Nutrition targets: unit conversion, basal metabolic rate (Mifflin-St Jeor),
    maintenance calories, the goal offset table and the protein/fat/carb split. */
module Calories {
  import opened JsMath

  datatype Gender = Male | Female | Other
  datatype WeightUnit = Kg | Lbs
  datatype HeightUnit = Cm | Ft

  datatype CalorieGoal =
    | Maintenance | LowCut | MidCut | HighCut | LeanBulk | MidBulk | AggressiveBulk | Custom

  /** The string identifier the application uses for each goal. */
  function GoalId(g: CalorieGoal): string {
    match g
    case Maintenance => "maintenance"
    case LowCut => "low_cut"
    case MidCut => "mid_cut"
    case HighCut => "high_cut"
    case LeanBulk => "lean_bulk"
    case MidBulk => "mid_bulk"
    case AggressiveBulk => "aggressive_bulk"
    case Custom => "custom"
  }

  datatype CalorieOption = CalorieOption(goal: CalorieGoal, title: string, description: string, offset: int)

  /** The fixed table of goals offered to the user; `custom` has no entry. */
  const CalorieOptions: seq<CalorieOption> := [
    CalorieOption(Maintenance, "Maintenance", "Maintain current weight", 0),
    CalorieOption(LowCut, "Low Cut", "−250 kcal/day", -250),
    CalorieOption(MidCut, "Mid Cut", "−500 kcal/day", -500),
    CalorieOption(HighCut, "High Cut", "−750 kcal/day", -750),
    CalorieOption(LeanBulk, "Lean Bulk", "+250 kcal/day", 250),
    CalorieOption(MidBulk, "Mid Bulk", "+500 kcal/day", 500),
    CalorieOption(AggressiveBulk, "Aggressive Bulk", "+750 kcal/day", 750)
  ]

  datatype MacroBreakdown = MacroBreakdown(calories: int, protein: int, carbs: int, fats: int)

  // ---------------------------------------------------------------- BMR and maintenance

  /** The Mifflin-St Jeor equation: 10 kcal per kg, 6.25 per cm, -5 per year, then +5 for
      `male` and -161 for `female` and `other`. */
  function CalculateBMR(weightKg: real, heightCm: real, age: real, gender: Gender): (r: real)
    ensures r == 10.0 * weightKg + 6.25 * heightCm - 5.0 * age + (if gender == Male then 5.0 else -161.0)
  {
    if gender == Male then 10.0 * weightKg + 6.25 * heightCm - 5.0 * age + 5.0
    else 10.0 * weightKg + 6.25 * heightCm - 5.0 * age - 161.0
  }

  /** For the same body, the male value is exactly 166 kcal above the other two,
      and `other` is treated as `female`. */
  lemma MaleBMRGap(w: real, h: real, a: real, g: Gender)
    requires g != Male
    ensures CalculateBMR(w, h, a, Male) - CalculateBMR(w, h, a, g) == 166.0
    ensures CalculateBMR(w, h, a, Other) == CalculateBMR(w, h, a, Female)
  {
  }

  /** BMR grows with weight and height and falls with age, at the formula's rates. */
  lemma BMRRates(w: real, h: real, a: real, g: Gender, dw: real, dh: real, da: real)
    ensures CalculateBMR(w + dw, h + dh, a + da, g) - CalculateBMR(w, h, a, g) == 10.0 * dw + 6.25 * dh - 5.0 * da
  {
  }

  /** Maintenance at the fixed moderate-activity multiplier 1.55, rounded. */
  function CalculateMaintenance(bmr: real): (r: int)
    ensures r as real - 0.5 <= bmr * 1.55 < r as real + 0.5
  {
    Round(bmr * 1.55)
  }

  lemma MaintenanceMonotone(b1: real, b2: real)
    requires b1 <= b2
    ensures CalculateMaintenance(b1) <= CalculateMaintenance(b2)
  {
    RoundMonotone(b1 * 1.55, b2 * 1.55);
  }

  /** The worked example: 80 kg, 180 cm, 30 years, male. */
  lemma BMRExample()
    ensures CalculateBMR(80.0, 180.0, 30.0, Male) == 1780.0
    ensures CalculateMaintenance(1780.0) == 2759
  {
  }

  // ---------------------------------------------------------------- unit conversion

  const LbsToKg: real := 0.453592
  const KgToLbs: real := 2.20462
  const CmPerFt: real := 30.48

  function ConvertWeight(weight: real, from: WeightUnit, to: WeightUnit): (r: real)
    ensures from == to ==> r == weight
    ensures from == Lbs && to == Kg ==> r == weight * LbsToKg
    ensures from == Kg && to == Lbs ==> r == weight * KgToLbs
  {
    if from == to then weight
    else if from == Lbs then weight * LbsToKg
    else weight * KgToLbs
  }

  /** Heights in feet are decimal feet. */
  function ConvertHeight(height: real, from: HeightUnit, to: HeightUnit): (r: real)
    ensures from == to ==> r == height
    ensures from == Ft && to == Cm ==> r == height * CmPerFt
    ensures from == Cm && to == Ft ==> r * CmPerFt == height
  {
    if from == to then height
    else if from == Ft then height * CmPerFt
    else height / CmPerFt
  }

  /** Height conversion round-trips exactly in either direction. */
  lemma HeightRoundTrip(x: real)
    ensures ConvertHeight(ConvertHeight(x, Cm, Ft), Ft, Cm) == x
    ensures ConvertHeight(ConvertHeight(x, Ft, Cm), Cm, Ft) == x
  {
  }

  /** The two weight factors are not exact inverses: a round trip in either direction
      scales by 0.99999799504, so it is off by less than 3 parts in a million,
      and it is never exact for a non-zero weight. */
  lemma WeightRoundTrip(x: real)
    ensures ConvertWeight(ConvertWeight(x, Kg, Lbs), Lbs, Kg) == x * 0.99999799504
    ensures ConvertWeight(ConvertWeight(x, Lbs, Kg), Kg, Lbs) == x * 0.99999799504
    ensures Abs(ConvertWeight(ConvertWeight(x, Kg, Lbs), Lbs, Kg) - x) <= 0.000003 * Abs(x)
    ensures x != 0.0 ==> ConvertWeight(ConvertWeight(x, Kg, Lbs), Lbs, Kg) != x
  {
    assert KgToLbs * LbsToKg == 0.99999799504;
  }

  // ---------------------------------------------------------------- goal table

  /** `Array.prototype.find` over a table of options: the first entry for goal `g`. */
  function FindOption(table: seq<CalorieOption>, g: CalorieGoal): (r: Option<CalorieOption>)
    ensures r.Some? ==> r.value.goal == g && r.value in table
    ensures r.None? <==> forall i :: 0 <= i < |table| ==> table[i].goal != g
  {
    if |table| == 0 then None
    else if table[0].goal == g then Some(table[0])
    else
      var rest := FindOption(table[1..], g);
      assert forall i :: 1 <= i < |table| ==> table[i] == table[1..][i - 1];
      rest
  }

  /** `calorieOptions.find(o => o.type === g)?.offset || 0` */
  function GoalOffset(g: CalorieGoal): int {
    var o := FindOption(CalorieOptions, g);
    if o.Some? then o.value.offset else 0
  }

  /** `find` returns the first entry with the goal: every earlier entry has another goal. */
  lemma {:induction false} FindFirst(table: seq<CalorieOption>, g: CalorieGoal)
    ensures FindOption(table, g).Some? ==>
      exists i :: 0 <= i < |table| && table[i] == FindOption(table, g).value
                  && forall j :: 0 <= j < i ==> table[j].goal != g
  {
    if |table| > 0 && table[0].goal != g {
      FindFirst(table[1..], g);
      var r := FindOption(table[1..], g);
      if r.Some? {
        var k :| 0 <= k < |table[1..]| && table[1..][k] == r.value
                 && forall j :: 0 <= j < k ==> table[1..][j].goal != g;
        assert table[k + 1] == r.value;
        assert forall j :: 0 <= j < k + 1 ==> table[j].goal != g by {
          forall j | 0 <= j < k + 1 ensures table[j].goal != g {
            if j > 0 { assert table[j] == table[1..][j - 1]; }
          }
        }
      }
    }
  }

  /** The offset is that of the first table entry for the goal, or 0 when there is none. */
  lemma GoalOffsetFirstEntry(g: CalorieGoal, i: int)
    requires 0 <= i < |CalorieOptions| && CalorieOptions[i].goal == g
    requires forall j :: 0 <= j < i ==> CalorieOptions[j].goal != g
    ensures GoalOffset(g) == CalorieOptions[i].offset
  {
    FindFirst(CalorieOptions, g);
    var o := FindOption(CalorieOptions, g);
    var k :| 0 <= k < |CalorieOptions| && CalorieOptions[k] == o.value
             && forall j :: 0 <= j < k ==> CalorieOptions[j].goal != g;
    assert k == i;
  }

  lemma GoalOffsetMissing(g: CalorieGoal)
    requires forall i :: 0 <= i < |CalorieOptions| ==> CalorieOptions[i].goal != g
    ensures GoalOffset(g) == 0
  {
  }

  /** The offset table, goal by goal: the three cuts are negative, the three bulks positive,
      and `custom` has none. */
  lemma GoalOffsets()
    ensures GoalOffset(Maintenance) == 0
    ensures GoalOffset(LowCut) == -250 && GoalOffset(MidCut) == -500 && GoalOffset(HighCut) == -750
    ensures GoalOffset(LeanBulk) == 250 && GoalOffset(MidBulk) == 500 && GoalOffset(AggressiveBulk) == 750
    ensures GoalOffset(Custom) == 0
  {
    OffsetOf(0);
    OffsetOf(1);
    OffsetOf(2);
    OffsetOf(3);
    OffsetOf(4);
    OffsetOf(5);
    OffsetOf(6);
    NoCustomOption();
  }

  /** Each entry of the table is the one found for its goal. */
  lemma OffsetOf(i: int)
    requires 0 <= i < |CalorieOptions|
    ensures GoalOffset(CalorieOptions[i].goal) == CalorieOptions[i].offset
  {
    OptionsDistinct();
    FindDistinct(CalorieOptions, i);
  }

  lemma NoCustomOption()
    ensures FindOption(CalorieOptions, Custom) == None
  {
    assert forall i :: 0 <= i < |CalorieOptions| ==> CalorieOptions[i].goal != Custom;
  }

  lemma OptionsDistinct()
    ensures DistinctGoals(CalorieOptions)
  {
  }

  predicate DistinctGoals(table: seq<CalorieOption>) {
    forall a, b :: 0 <= a < b < |table| ==> table[a].goal != table[b].goal
  }

  /** In a table without repeated goals, looking up an entry's goal finds that entry. */
  lemma {:induction false} FindDistinct(table: seq<CalorieOption>, i: int)
    requires DistinctGoals(table) && 0 <= i < |table|
    ensures FindOption(table, table[i].goal) == Some(table[i])
    decreases i
  {
    if i > 0 {
      assert table[0].goal != table[i].goal;
      assert table[1..][i - 1] == table[i];
      FindDistinct(table[1..], i - 1);
    }
  }

  /** Cut offsets are negative, bulk offsets positive, maintenance and custom have none. */
  lemma CutsBelowBulksAbove(g: CalorieGoal)
    ensures IsCutting(g) ==> GoalOffset(g) < 0
    ensures g == LeanBulk || g == MidBulk || g == AggressiveBulk ==> GoalOffset(g) > 0
    ensures g == Maintenance || g == Custom ==> GoalOffset(g) == 0
  {
    CutOffsetNegative(g);
    BulkOffsetPositive(g);
    NeutralOffsetZero(g);
  }

  lemma CutOffsetNegative(g: CalorieGoal)
    ensures IsCutting(g) ==> GoalOffset(g) < 0
  {
    GoalOffsets();
  }

  lemma BulkOffsetPositive(g: CalorieGoal)
    ensures g == LeanBulk || g == MidBulk || g == AggressiveBulk ==> GoalOffset(g) > 0
  {
    GoalOffsets();
  }

  lemma NeutralOffsetZero(g: CalorieGoal)
    ensures g == Maintenance || g == Custom ==> GoalOffset(g) == 0
  {
    GoalOffsets();
  }

  /** `getCalorieTarget`: a supplied non-zero custom value wins for `custom`;
      otherwise maintenance plus the goal's offset. */
  function GetCalorieTarget(maintenance: int, g: CalorieGoal, customCalories: Option<int>): (r: int)
    ensures g == Custom && customCalories.Some? && customCalories.value != 0 ==> r == customCalories.value
    ensures g == Custom && (customCalories.None? || customCalories.value == 0) ==> r == maintenance
    ensures g != Custom ==> r - maintenance == GoalOffset(g)
  {
    if g == Custom && customCalories.Some? && customCalories.value != 0 then customCalories.value
    else
      GoalOffsets();
      maintenance + GoalOffset(g)
  }

  // ---------------------------------------------------------------- macro split

  /** `s.includes(t)` */
  predicate Contains(s: string, t: string)
    decreases |s|
  {
    |t| <= |s| && (s[..|t|] == t || Contains(s[1..], t))
  }

  /** The allocator's test for a cutting goal: its identifier contains "cut". */
  predicate IncludesCut(g: CalorieGoal) {
    Contains(GoalId(g), "cut")
  }

  /** The cutting goals listed; `CuttingGoals` proves this is what `IncludesCut` selects. */
  predicate IsCutting(g: CalorieGoal) {
    g == LowCut || g == MidCut || g == HighCut
  }

  /** The substring test selects exactly the three cut goals; in particular `custom`, whose
      identifier starts with "cu", is not one. */
  lemma CuttingGoals(g: CalorieGoal)
    ensures IncludesCut(g) <==> IsCutting(g)
  {
    if IsCutting(g) {
      CutIdentifiers();
    } else {
      NoCutOutsideCuts(g);
    }
  }

  lemma NoCutOutsideCuts(g: CalorieGoal)
    requires !IsCutting(g)
    ensures !IncludesCut(g)
  {
    NoCutInCustom();
    NoCutInMaintenance();
    NoCutInBulks();
  }

  lemma CutIdentifiers()
    ensures IncludesCut(LowCut) && IncludesCut(MidCut) && IncludesCut(HighCut)
  {
    assert "low_cut"[4..][..3] == "cut";
    assert "mid_cut"[4..][..3] == "cut";
    assert "high_cut"[5..][..3] == "cut";
  }

  lemma NoCutInCustom()
    ensures !IncludesCut(Custom)
  {
    assert "custom"[..3][2] != "cut"[2];
    NoLetter("custom"[1..], "cut");
  }

  lemma NoCutInMaintenance()
    ensures !IncludesCut(Maintenance)
  {
    NoLetter("maintenance", "cut");
  }

  lemma NoCutInBulks()
    ensures !IncludesCut(LeanBulk) && !IncludesCut(MidBulk) && !IncludesCut(AggressiveBulk)
  {
    NoLetter("lean_bulk", "cut");
    NoLetter("mid_bulk", "cut");
    NoCutInAggressiveBulk();
  }

  lemma NoCutInAggressiveBulk()
    ensures !IncludesCut(AggressiveBulk)
  {
    NoLetter("aggressive_bulk", "cut");
  }

  /** A string cannot contain `t` if the first letter of `t` occurs at no position where a
      match could start. */
  lemma {:induction false} NoLetter(s: string, t: string)
    requires |t| > 0 && forall i :: 0 <= i <= |s| - |t| ==> s[i] != t[0]
    ensures !Contains(s, t)
    decreases |s|
  {
    if |t| <= |s| {
      assert s[..|t|][0] == s[0];
      NoLetter(s[1..], t);
    }
  }

  function ProteinPerKg(g: CalorieGoal): real {
    if IsCutting(g) then 2.2 else 1.8
  }

  function FatPercent(g: CalorieGoal): real {
    if IsCutting(g) then 0.25 else 0.3
  }

  /** Protein from body weight, fat as a share of the calories, carbohydrate from the rest.
      The carbohydrate remainder subtracts the unrounded fat calories and is floored at 0. */
  function CalculateMacros(calories: int, weightKg: real, g: CalorieGoal): (r: MacroBreakdown)
    ensures r.calories == calories
    ensures r.carbs >= 0
    ensures r.protein as real - 0.5 <= weightKg * ProteinPerKg(g) < r.protein as real + 0.5
    ensures 9.0 * r.fats as real - 4.5 <= calories as real * FatPercent(g) < 9.0 * r.fats as real + 4.5
    ensures var rest := calories as real - 4.0 * r.protein as real - calories as real * FatPercent(g);
            (rest >= 0.0 ==> 4.0 * r.carbs as real - 2.0 <= rest < 4.0 * r.carbs as real + 2.0)
            && (rest <= 0.0 ==> r.carbs == 0)
  {
    var protein := Round(weightKg * ProteinPerKg(g));
    var proteinCalories := protein * 4;
    var fatCalories := calories as real * FatPercent(g);
    var fats := Round(fatCalories / 9.0);
    var carbCalories := calories as real - proteinCalories as real - fatCalories;
    var carbs := Round(Max(0.0, carbCalories / 4.0));
    MacroBreakdown(calories, protein, carbs, fats)
  }

  /** Protein is 2.2 g/kg for the cut goals and 1.8 g/kg otherwise;
      fat is 25% of calories for cuts and 30% otherwise. */
  lemma MacroRatesByGoal(calories: int, weightKg: real, g: CalorieGoal)
    ensures IncludesCut(g) ==>
      CalculateMacros(calories, weightKg, g).protein == Round(weightKg * 2.2)
      && CalculateMacros(calories, weightKg, g).fats == Round(calories as real * 0.25 / 9.0)
    ensures !IncludesCut(g) ==>
      CalculateMacros(calories, weightKg, g).protein == Round(weightKg * 1.8)
      && CalculateMacros(calories, weightKg, g).fats == Round(calories as real * 0.3 / 9.0)
  {
    CuttingGoals(g);
    if IsCutting(g) {
      CutRates(calories, weightKg, g);
    } else {
      OtherRates(calories, weightKg, g);
    }
  }

  lemma CutRates(calories: int, weightKg: real, g: CalorieGoal)
    requires IsCutting(g)
    ensures CalculateMacros(calories, weightKg, g).protein == Round(weightKg * 2.2)
    ensures CalculateMacros(calories, weightKg, g).fats == Round(calories as real * 0.25 / 9.0)
  {
  }

  lemma OtherRates(calories: int, weightKg: real, g: CalorieGoal)
    requires !IsCutting(g)
    ensures CalculateMacros(calories, weightKg, g).protein == Round(weightKg * 1.8)
    ensures CalculateMacros(calories, weightKg, g).fats == Round(calories as real * 0.3 / 9.0)
  {
  }

  /** When protein and fat leave a non-negative remainder, the energy of the split is within
      6.5 kcal of the target: 2 from rounding the carbohydrates and 4.5 from rounding the fat. */
  lemma MacroEnergyBalance(calories: int, weightKg: real, g: CalorieGoal)
    requires calories as real - 4.0 * Round(weightKg * ProteinPerKg(g)) as real - calories as real * FatPercent(g) >= 0.0
    ensures var m := CalculateMacros(calories, weightKg, g);
            Abs((4 * m.protein + 9 * m.fats + 4 * m.carbs - calories) as real) <= 6.5
  {
  }

  /** The tolerance is wider than 3 kcal: 1000 kcal, 40 kg on a cut gives 1004 kcal. */
  lemma MacroEnergyExample()
    ensures CalculateMacros(1000, 40.0, MidCut) == MacroBreakdown(1000, 88, 100, 28)
    ensures 4 * 88 + 9 * 28 + 4 * 100 == 1004
  {
  }

  /** 2500 kcal, 80 kg, mid cut. The carbohydrate remainder uses the unrounded 625 fat kcal,
      so carbs are 293 (not the 294 obtained from the rounded 69 g of fat). */
  lemma MacroExample()
    ensures CalculateMacros(2500, 80.0, MidCut) == MacroBreakdown(2500, 176, 293, 69)
  {
  }

  /** When protein alone uses up the budget the carbohydrates stay at 0. */
  lemma MacroCarbFloor(calories: int, weightKg: real, g: CalorieGoal)
    requires calories >= 0 && 4 * Round(weightKg * ProteinPerKg(g)) >= calories
    ensures CalculateMacros(calories, weightKg, g).carbs == 0
  {
  }
}
