/** The onboarding wizard: editing the weekly split day by day, the per-step gate on
    "Continue", the three-step navigation and the derived calorie numbers. */
module Onboarding {
  import opened JsMath
  import opened Splits
  import opened Calories

  // ---------------------------------------------------------------- body-part toggling

  /** `parts.filter(p => p !== x)` */
  function RemoveAll(parts: seq<string>, x: string): (r: seq<string>)
    ensures x !in r
    ensures |r| <= |parts|
    ensures forall y :: y in r <==> y in parts && y != x
    ensures forall y :: y != x ==> multiset(r)[y] == multiset(parts)[y]
  {
    if |parts| == 0 then []
    else
      assert parts == [parts[0]] + parts[1..];
      if parts[0] == x then RemoveAll(parts[1..], x)
      else [parts[0]] + RemoveAll(parts[1..], x)
  }

  /** Filtering an absent value changes nothing. */
  lemma {:induction false} RemoveAbsent(parts: seq<string>, x: string)
    requires x !in parts
    ensures RemoveAll(parts, x) == parts
  {
    if |parts| > 0 {
      RemoveAbsent(parts[1..], x);
    }
  }

  /** Filtering distributes over concatenation, so it keeps the order of what remains. */
  lemma {:induction false} RemoveAppend(a: seq<string>, b: seq<string>, x: string)
    ensures RemoveAll(a + b, x) == RemoveAll(a, x) + RemoveAll(b, x)
  {
    if |a| == 0 {
      assert a + b == b;
    } else {
      assert (a + b)[1..] == a[1..] + b;
      RemoveAppend(a[1..], b, x);
    }
  }

  /** `toggleBodyPart`: "Rest Day" replaces the day; any other part first clears "Rest Day",
      then is removed if present or appended if not. */
  function ToggleBodyPart(split: WorkoutSplit, day: Day, bodyPart: string): (r: WorkoutSplit)
    ensures forall d :: d != day ==> r.Get(d) == split.Get(d)
    ensures bodyPart == RestDay ==> r.Get(day) == [RestDay]
    ensures bodyPart != RestDay ==> RestDay !in r.Get(day)
    ensures bodyPart != RestDay && bodyPart in split.Get(day) ==>
      r.Get(day) == RemoveAll(RemoveAll(split.Get(day), RestDay), bodyPart)
    ensures bodyPart != RestDay && bodyPart in split.Get(day) ==>
      bodyPart !in r.Get(day)
      && forall y :: y != bodyPart && y != RestDay ==> multiset(r.Get(day))[y] == multiset(split.Get(day))[y]
    ensures bodyPart != RestDay && bodyPart !in split.Get(day) ==>
      r.Get(day) == RemoveAll(split.Get(day), RestDay) + [bodyPart]
  {
    var current := split.Get(day);
    if bodyPart == RestDay then split.With(day, [RestDay])
    else
      var filtered := RemoveAll(current, RestDay);
      if bodyPart in filtered then split.With(day, RemoveAll(filtered, bodyPart))
      else split.With(day, filtered + [bodyPart])
  }

  /** On a training day, adding a part and toggling it again restores the day exactly. */
  lemma ToggleTwiceAbsent(split: WorkoutSplit, day: Day, part: string)
    requires part != RestDay && RestDay !in split.Get(day) && part !in split.Get(day)
    ensures ToggleBodyPart(ToggleBodyPart(split, day, part), day, part) == split
  {
    var cur := split.Get(day);
    RemoveAbsent(cur, RestDay);
    var once := ToggleBodyPart(split, day, part);
    assert once.Get(day) == cur + [part];
    RemoveAbsent(cur + [part], RestDay);
    RemoveAppend(cur, [part], part);
    RemoveAbsent(cur, part);
    assert RemoveAll([part], part) == [];
    var twice := ToggleBodyPart(once, day, part);
    assert twice.Get(day) == cur;
    forall d ensures twice.Get(d) == split.Get(d) { }
    SplitExtensional(twice, split);
  }

  /** Removing a part that is already there and adding it back restores the same parts,
      but the part moves to the end of the day. */
  lemma ToggleTwicePresent(split: WorkoutSplit, day: Day, part: string)
    requires part != RestDay && RestDay !in split.Get(day) && part in split.Get(day)
    requires multiset(split.Get(day))[part] == 1
    ensures var twice := ToggleBodyPart(ToggleBodyPart(split, day, part), day, part);
            twice.Get(day) == RemoveAll(split.Get(day), part) + [part]
            && multiset(twice.Get(day)) == multiset(split.Get(day))
  {
    var cur := split.Get(day);
    RemoveAbsent(cur, RestDay);
    var once := ToggleBodyPart(split, day, part);
    var gone := RemoveAll(cur, part);
    assert once.Get(day) == gone;
    RemoveAbsent(gone, RestDay);
    var twice := ToggleBodyPart(once, day, part);
    assert twice.Get(day) == gone + [part];
    assert multiset(gone + [part]) == multiset(cur) by {
      forall y ensures multiset(gone + [part])[y] == multiset(cur)[y] {
        if y != part {
          assert multiset(gone)[y] == multiset(cur)[y];
        }
      }
    }
  }

  /** Choosing "Rest Day" twice is the same as choosing it once. */
  lemma ToggleRestIdempotent(split: WorkoutSplit, day: Day)
    ensures ToggleBodyPart(ToggleBodyPart(split, day, RestDay), day, RestDay) == ToggleBodyPart(split, day, RestDay)
  {
    var once := ToggleBodyPart(split, day, RestDay);
    var twice := ToggleBodyPart(once, day, RestDay);
    forall d ensures twice.Get(d) == once.Get(d) { }
    SplitExtensional(twice, once);
  }

  /** Two splits that agree on every day are equal. */
  lemma SplitExtensional(a: WorkoutSplit, b: WorkoutSplit)
    requires forall d :: a.Get(d) == b.Get(d)
    ensures a == b
  {
    assert a.Get(Monday) == b.Get(Monday) && a.Get(Tuesday) == b.Get(Tuesday);
    assert a.Get(Wednesday) == b.Get(Wednesday) && a.Get(Thursday) == b.Get(Thursday);
    assert a.Get(Friday) == b.Get(Friday) && a.Get(Saturday) == b.Get(Saturday);
    assert a.Get(Sunday) == b.Get(Sunday);
  }

  // ---------------------------------------------------------------- the Continue gate

  /** The characters `String.prototype.trim` removes: the ECMAScript white space
      (tab, vertical tab, form feed, space, no-break space, byte order mark and the
      Unicode space separators) and line terminators. */
  predicate IsJsWhitespace(c: char) {
    c == '\t' || c == '\n' || c == '\r' || c == ' '
    || c == '\U{000B}' || c == '\U{000C}' || c == '\U{00A0}' || c == '\U{1680}'
    || ('\U{2000}' <= c <= '\U{200A}')
    || c == '\U{2028}' || c == '\U{2029}' || c == '\U{202F}' || c == '\U{205F}'
    || c == '\U{3000}' || c == '\U{FEFF}'
  }

  function TrimStart(s: string): (r: string)
    ensures |r| <= |s| && r == s[|s| - |r|..]
    ensures |r| > 0 ==> !IsJsWhitespace(r[0])
    ensures forall i :: 0 <= i < |s| - |r| ==> IsJsWhitespace(s[i])
  {
    if |s| > 0 && IsJsWhitespace(s[0]) then TrimStart(s[1..]) else s
  }

  function TrimEnd(s: string): (r: string)
    ensures |r| <= |s| && r == s[..|r|]
    ensures |r| > 0 ==> !IsJsWhitespace(r[|r| - 1])
    ensures forall i :: |r| <= i < |s| ==> IsJsWhitespace(s[i])
  {
    if |s| > 0 && IsJsWhitespace(s[|s| - 1]) then TrimEnd(s[..|s| - 1]) else s
  }

  /** `String.prototype.trim`: leading and trailing white space removed, nothing else. */
  function Trim(s: string): (r: string)
    ensures |r| <= |s|
    ensures |r| > 0 ==> !IsJsWhitespace(r[0]) && !IsJsWhitespace(r[|r| - 1])
    ensures (forall i :: 0 <= i < |s| ==> !IsJsWhitespace(s[i])) ==> r == s
  {
    TrimEnd(TrimStart(s))
  }

  /** `trim` removes exactly a leading and a trailing run of white space: the result is the
      slice `s[a..b]`, and everything before `a` and from `b` on is white space. */
  lemma TrimSlice(s: string)
    ensures var a := |s| - |TrimStart(s)|; var b := a + |Trim(s)|;
            0 <= a <= b <= |s| && Trim(s) == s[a..b]
            && (forall i :: 0 <= i < a ==> IsJsWhitespace(s[i]))
            && (forall i :: b <= i < |s| ==> IsJsWhitespace(s[i]))
  {
    TrimSliceBounds(s);
    TrimTrailingRun(s);
  }

  lemma TrimSliceBounds(s: string)
    ensures var a := |s| - |TrimStart(s)|;
            0 <= a <= a + |Trim(s)| <= |s| && Trim(s) == s[a..a + |Trim(s)|]
  {
    var t := TrimStart(s);
    var r := Trim(s);
    var a := |s| - |t|;
    assert t == s[a..];
    assert r == t[..|r|];
  }

  lemma TrimTrailingRun(s: string)
    ensures forall i :: |s| - |TrimStart(s)| + |Trim(s)| <= i < |s| ==> IsJsWhitespace(s[i])
  {
    var t := TrimStart(s);
    var a := |s| - |t|;
    var b := a + |Trim(s)|;
    forall i | b <= i < |s| ensures IsJsWhitespace(s[i]) {
      assert s[i] == t[i - a];
    }
  }

  /** A trimmed string is empty exactly when every character was white space. */
  lemma TrimEmpty(s: string)
    ensures |Trim(s)| == 0 <==> forall i :: 0 <= i < |s| ==> IsJsWhitespace(s[i])
  {
    var t := TrimStart(s);
    if |Trim(s)| > 0 {
      assert Trim(s) == t[..|Trim(s)|];
      assert !IsJsWhitespace(t[0]);
      assert s[|s| - |t|] == t[0];
    }
  }

  /** The text fields of the first step, as typed. */
  datatype PersonalInfo = PersonalInfo(
    username: string, age: string, height: string,
    startWeight: string, currentWeight: string, goalWeight: string)

  predicate AnyDayPlanned(split: WorkoutSplit) {
    |split.monday| > 0 || |split.tuesday| > 0 || |split.wednesday| > 0 || |split.thursday| > 0
    || |split.friday| > 0 || |split.saturday| > 0 || |split.sunday| > 0
  }

  lemma AnyDayPlannedIff(split: WorkoutSplit)
    ensures AnyDayPlanned(split) <==> exists d :: |split.Get(d)| > 0
  {
    if AnyDayPlanned(split) {
      if |split.monday| > 0 { assert |split.Get(Monday)| > 0; }
      else if |split.tuesday| > 0 { assert |split.Get(Tuesday)| > 0; }
      else if |split.wednesday| > 0 { assert |split.Get(Wednesday)| > 0; }
      else if |split.thursday| > 0 { assert |split.Get(Thursday)| > 0; }
      else if |split.friday| > 0 { assert |split.Get(Friday)| > 0; }
      else if |split.saturday| > 0 { assert |split.Get(Saturday)| > 0; }
      else { assert |split.Get(Sunday)| > 0; }
    }
  }

  /** `canProceed`: step 0 needs a username with a non-blank character and every other field
      filled in; step 1 needs at least one planned day; the last step always passes. */
  function CanProceed(step: int, info: PersonalInfo, split: WorkoutSplit): (r: bool)
    ensures step == 0 ==> (r <==> (exists i :: 0 <= i < |info.username| && !IsJsWhitespace(info.username[i]))
                                  && info.age != "" && info.height != "" && info.startWeight != ""
                                  && info.currentWeight != "" && info.goalWeight != "")
    ensures step == 1 ==> (r <==> exists d :: |split.Get(d)| > 0)
    ensures step != 0 && step != 1 ==> r
  {
    TrimEmpty(info.username);
    AnyDayPlannedIff(split);
    if step == 0 then
      |Trim(info.username)| > 0 && info.age != "" && info.height != "" && info.startWeight != ""
      && info.currentWeight != "" && info.goalWeight != ""
    else if step == 1 then AnyDayPlanned(split)
    else true
  }

  /** A blank username blocks the first step. */
  lemma BlankUsernameBlocks(info: PersonalInfo, split: WorkoutSplit)
    requires forall i :: 0 <= i < |info.username| ==> IsJsWhitespace(info.username[i])
    ensures !CanProceed(0, info, split)
  {
  }

  /** Any preset can be taken straight through the split step. */
  lemma PresetsCanProceed(i: int, info: PersonalInfo)
    requires 0 <= i < |SplitPresets|
    ensures CanProceed(1, info, SplitPresets[i].layout)
  {
    PresetsWellFormed();
    assert |SplitPresets[i].layout.Get(Monday)| > 0;
  }

  // ---------------------------------------------------------------- step navigation

  /** The wizard's position: 0 personal info, 1 workout split, 2 nutrition goals. */
  class Wizard {
    var step: int
    var direction: int

    ghost predicate Valid()
      reads this
    {
      0 <= step <= 2
    }

    constructor ()
      ensures Valid() && step == 0 && direction == 0
    {
      step, direction := 0, 0;
    }

    /** `goNext`: advance below the last step; on the last step submit instead. */
    method GoNext() returns (submit: bool)
      requires Valid()
      modifies this
      ensures Valid()
      ensures submit <==> old(step) == 2
      ensures old(step) < 2 ==> step == old(step) + 1 && direction == 1
      ensures old(step) == 2 ==> step == old(step) && direction == old(direction)
    {
      if step < 2 {
        direction := 1;
        step := step + 1;
        submit := false;
      } else {
        submit := true;
      }
    }

    /** `goBack`: step back unless already on the first step. */
    method GoBack()
      requires Valid()
      modifies this
      ensures Valid()
      ensures old(step) > 0 ==> step == old(step) - 1 && direction == -1
      ensures old(step) == 0 ==> step == 0 && direction == old(direction)
    {
      if step > 0 {
        direction := -1;
        step := step - 1;
      }
    }
  }

  // ---------------------------------------------------------------- derived calories

  /** The current weight in kilograms; an unparseable entry stays unparseable (NaN). */
  function WeightKg(parsed: Option<real>, unit: WeightUnit): (r: Option<real>)
    ensures r.Some? <==> parsed.Some?
    ensures parsed.Some? ==> r.value == ConvertWeight(parsed.value, unit, Kg)
  {
    if parsed.None? then None
    else if unit == Kg then parsed else Some(ConvertWeight(parsed.value, Lbs, Kg))
  }

  function HeightCm(parsed: Option<real>, unit: HeightUnit): (r: Option<real>)
    ensures r.Some? <==> parsed.Some?
    ensures parsed.Some? ==> r.value == ConvertHeight(parsed.value, unit, Cm)
  {
    if parsed.None? then None
    else if unit == Cm then parsed else Some(ConvertHeight(parsed.value, Ft, Cm))
  }

  /** `getMaintenanceCalories`: 2000 whenever weight, height or age does not parse. */
  function GetMaintenanceCalories(weight: Option<real>, weightUnit: WeightUnit,
                                  height: Option<real>, heightUnit: HeightUnit,
                                  age: Option<int>, gender: Gender): (r: int)
    ensures weight.None? || height.None? || age.None? ==> r == 2000
    ensures weight.Some? && height.Some? && age.Some? ==>
      r == CalculateMaintenance(CalculateBMR(ConvertWeight(weight.value, weightUnit, Kg),
                                             ConvertHeight(height.value, heightUnit, Cm),
                                             age.value as real, gender))
  {
    var weightKg := WeightKg(weight, weightUnit);
    var heightCm := HeightCm(height, heightUnit);
    if weightKg.None? || heightCm.None? || age.None? then 2000
    else CalculateMaintenance(CalculateBMR(weightKg.value, heightCm.value, age.value as real, gender))
  }

  /** Entering the body in pounds and decimal feet gives the same maintenance as entering it in
      kilograms and centimetres after conversion; a male body is never below a female one. */
  lemma MaintenanceUnitsAgree(w: real, h: real, age: int, g: Gender)
    ensures GetMaintenanceCalories(Some(w), Lbs, Some(h), Ft, Some(age), g)
         == GetMaintenanceCalories(Some(w * 0.453592), Kg, Some(h * 30.48), Cm, Some(age), g)
    ensures GetMaintenanceCalories(Some(w), Kg, Some(h), Cm, Some(age), Female)
         <= GetMaintenanceCalories(Some(w), Kg, Some(h), Cm, Some(age), Male)
  {
    var b := CalculateBMR(w, h, age as real, Female);
    MaleBMRGap(w, h, age as real, Female);
    MaintenanceMonotone(b, b + 166.0);
  }

  /** The target saved on completion: the typed custom value (NaN when it does not parse)
      for `custom`, otherwise maintenance plus the goal's offset. */
  function SubmitTargetCalories(maintenance: int, g: CalorieGoal, customParsed: Option<int>): (r: Option<int>)
    ensures g == Custom ==> r == customParsed
    ensures g != Custom ==> r.Some? && r.value - maintenance == GoalOffset(g)
  {
    if g == Custom then customParsed else Some(maintenance + GoalOffset(g))
  }

  /** The submitted target agrees with `getCalorieTarget` except for a custom goal whose value
      is empty, unparseable or 0: there the library falls back to maintenance and the wizard
      submits the typed value (NaN or 0). */
  lemma SubmitTargetVersusLibrary(maintenance: int, g: CalorieGoal, customParsed: Option<int>)
    ensures g != Custom ==> SubmitTargetCalories(maintenance, g, customParsed)
                            == Some(GetCalorieTarget(maintenance, g, customParsed))
    ensures g == Custom && customParsed.Some? && customParsed.value != 0 ==>
      SubmitTargetCalories(maintenance, g, customParsed) == Some(GetCalorieTarget(maintenance, g, customParsed))
    ensures g == Custom && customParsed.None? ==>
      SubmitTargetCalories(maintenance, g, customParsed).None?
      && GetCalorieTarget(maintenance, g, customParsed) == maintenance
    ensures g == Custom && customParsed == Some(0) ==>
      SubmitTargetCalories(maintenance, g, customParsed) == Some(0)
      && GetCalorieTarget(maintenance, g, customParsed) == maintenance
  {
  }

  /** The nutrition part of the profile written on completion: the macros of the submitted
      target at the current weight, a 3000 ml water target and a starting score of 50.
      `None` stands for a profile whose calorie or weight entry did not parse (NaN). */
  datatype NutritionTargets = NutritionTargets(macros: MacroBreakdown, waterTarget: int, progressScore: real)

  function SubmitNutrition(maintenance: int, g: CalorieGoal, customParsed: Option<int>,
                           weightKg: Option<real>): (r: Option<NutritionTargets>)
    ensures r.Some? <==> weightKg.Some? && SubmitTargetCalories(maintenance, g, customParsed).Some?
    ensures r.Some? ==> r.value.waterTarget == 3000 && r.value.progressScore == 50.0
    ensures r.Some? && g != Custom ==> r.value.macros.calories == maintenance + GoalOffset(g)
    ensures r.Some? && g == Custom ==> r.value.macros.calories == customParsed.value
    ensures r.Some? ==> r.value.macros.carbs >= 0
    ensures r.Some? ==>
      r.value.macros == CalculateMacros(SubmitTargetCalories(maintenance, g, customParsed).value, weightKg.value, g)
  {
    var target := SubmitTargetCalories(maintenance, g, customParsed);
    if target.None? || weightKg.None? then None
    else Some(NutritionTargets(CalculateMacros(target.value, weightKg.value, g), 3000, 50.0))
  }
}
