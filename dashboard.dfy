/** The dashboard's derived values: today's split and whether it is a rest day, the score
    trend arrow and the capped progress bars. The food totals are `FoodTotals.SumLogs`. */
module Dashboard {
  import opened JsMath
  import opened Splits
  import opened AppTypes
  import opened FoodTotals

  /** `profile?.workout_split ? getTodaySplit(profile.workout_split) : []`, with today's
      `getDay()` as a parameter. */
  function TodaySplit(profile: Option<UserProfile>, jsWeekday: int): (r: seq<string>)
    requires 0 <= jsWeekday <= 6
    ensures profile.None? || profile.value.workoutSplit.None? ==> r == []
    ensures profile.Some? && profile.value.workoutSplit.Some? ==>
      r == GetTodaySplit(profile.value.workoutSplit.value, jsWeekday)
  {
    if profile.None? || profile.value.workoutSplit.None? then []
    else GetTodaySplit(profile.value.workoutSplit.value, jsWeekday)
  }

  function IsRestDay(todaySplit: seq<string>): (r: bool)
    ensures r <==> RestDay in todaySplit || |todaySplit| == 0
  {
    RestDay in todaySplit || |todaySplit| == 0
  }

  /** The dashboard calls a day a rest day exactly when the split display reads "Rest Day". */
  lemma RestDayMatchesDisplay(todaySplit: seq<string>)
    ensures IsRestDay(todaySplit) <==> FormatSplitDay(todaySplit) == RestDay
  {
    FormatShowsRest(todaySplit);
  }

  /** Without a profile or a split every day is a rest day; a preset's rest days are too. */
  lemma RestDayCases(profile: Option<UserProfile>, jsWeekday: int)
    requires 0 <= jsWeekday <= 6
    ensures profile.None? || profile.value.workoutSplit.None? ==> IsRestDay(TodaySplit(profile, jsWeekday))
    ensures IsRestDay(Rest) && !IsRestDay(Push)
  {
    assert Rest[0] == RestDay;
    assert Push == ["Chest", "Shoulders", "Triceps"];
    assert Push[0] != RestDay && Push[1] != RestDay && Push[2] != RestDay;
  }

  datatype Trend = Up | Down | Stable

  /** `(profile?.progress_score || 50)` compared with 50. */
  function ScoreTrend(profile: Option<UserProfile>): (t: Trend)
    ensures var s := if profile.None? then None else profile.value.progressScore;
            (t == Up <==> OrDefault(s, 50.0) > 50.0)
            && (t == Down <==> OrDefault(s, 50.0) < 50.0)
            && (t == Stable <==> OrDefault(s, 50.0) == 50.0)
  {
    var score := OrDefault(if profile.None? then None else profile.value.progressScore, 50.0);
    if score > 50.0 then Up else if score < 50.0 then Down else Stable
  }

  /** A missing or zero score shows as stable; otherwise the arrow follows the score. */
  lemma ScoreTrendCases(profile: Option<UserProfile>)
    ensures profile.None? || profile.value.progressScore.None? || profile.value.progressScore.value == 0.0
            ==> ScoreTrend(profile) == Stable
    ensures profile.Some? && profile.value.progressScore.Some? && profile.value.progressScore.value != 0.0 ==>
      var v := profile.value.progressScore.value;
      (ScoreTrend(profile) == Up <==> v > 50.0) && (ScoreTrend(profile) == Down <==> v < 50.0)
  {
  }

  /** `Math.min((value / (target || fallback)) * 100, 100)`: the divisor is never 0, the bar
      never passes 100, and below the cap it is the plain percentage. */
  function BarPercent(value: real, target: Option<real>, fallback: real): (r: real)
    requires fallback > 0.0
    ensures r <= 100.0
    ensures var t := OrDefault(target, fallback);
            t != 0.0 && (value / t * 100.0 < 100.0 ==> r == value / t * 100.0)
            && (value / t * 100.0 >= 100.0 ==> r == 100.0)
  {
    Min(value / OrDefault(target, fallback) * 100.0, 100.0)
  }

  /** A non-negative amount against a positive (or defaulted) target fills 0..100%. */
  lemma BarPercentRange(value: real, target: Option<real>, fallback: real)
    requires fallback > 0.0 && value >= 0.0
    requires target.None? || target.value >= 0.0
    ensures 0.0 <= BarPercent(value, target, fallback) <= 100.0
  {
    var t := OrDefault(target, fallback);
    assert t > 0.0;
    assert value / t >= 0.0;
  }

  /** The four bars, with targets defaulting to 150 g, 200 g, 60 g and 3000 ml. */
  datatype Target = ProteinTarget | CarbTarget | FatTarget | WaterTarget

  /** `profile?.x_target`: missing along with the profile. */
  function TargetOf(profile: Option<UserProfile>, which: Target): Option<real> {
    if profile.None? then None
    else match which
      case ProteinTarget => profile.value.proteinTarget
      case CarbTarget => profile.value.carbTarget
      case FatTarget => profile.value.fatTarget
      case WaterTarget => profile.value.waterTarget
  }

  /** Protein eaten against `protein_target || 150`. */
  function ProteinBar(totals: Totals, profile: Option<UserProfile>): (r: real)
    ensures r <= 100.0
    ensures profile.None? || profile.value.proteinTarget.None? || profile.value.proteinTarget.value == 0.0 ==>
      r == Min(totals.protein / 150.0 * 100.0, 100.0)
    ensures profile.Some? && profile.value.proteinTarget.Some? && profile.value.proteinTarget.value != 0.0 ==>
      r == Min(totals.protein / profile.value.proteinTarget.value * 100.0, 100.0)
  {
    BarPercent(totals.protein, TargetOf(profile, ProteinTarget), 150.0)
  }

  /** Carbohydrates eaten against `carb_target || 200`. */
  function CarbBar(totals: Totals, profile: Option<UserProfile>): (r: real)
    ensures r <= 100.0
    ensures profile.None? || profile.value.carbTarget.None? || profile.value.carbTarget.value == 0.0 ==>
      r == Min(totals.carbs / 200.0 * 100.0, 100.0)
    ensures profile.Some? && profile.value.carbTarget.Some? && profile.value.carbTarget.value != 0.0 ==>
      r == Min(totals.carbs / profile.value.carbTarget.value * 100.0, 100.0)
  {
    BarPercent(totals.carbs, TargetOf(profile, CarbTarget), 200.0)
  }

  /** Fat eaten against `fat_target || 60`. */
  function FatBar(totals: Totals, profile: Option<UserProfile>): (r: real)
    ensures r <= 100.0
    ensures profile.None? || profile.value.fatTarget.None? || profile.value.fatTarget.value == 0.0 ==>
      r == Min(totals.fats / 60.0 * 100.0, 100.0)
    ensures profile.Some? && profile.value.fatTarget.Some? && profile.value.fatTarget.value != 0.0 ==>
      r == Min(totals.fats / profile.value.fatTarget.value * 100.0, 100.0)
  {
    BarPercent(totals.fats, TargetOf(profile, FatTarget), 60.0)
  }

  /** Water drunk against `water_target || 3000`. */
  function WaterBar(waterMl: real, profile: Option<UserProfile>): (r: real)
    ensures r <= 100.0
    ensures profile.None? || profile.value.waterTarget.None? || profile.value.waterTarget.value == 0.0 ==>
      r == Min(waterMl / 3000.0 * 100.0, 100.0)
    ensures profile.Some? && profile.value.waterTarget.Some? && profile.value.waterTarget.value != 0.0 ==>
      r == Min(waterMl / profile.value.waterTarget.value * 100.0, 100.0)
  {
    BarPercent(waterMl, TargetOf(profile, WaterTarget), 3000.0)
  }

  /** No bar passes 100%; without a profile each bar is measured against its default, so a
      fresh day with no logs shows every bar empty. */
  lemma BarsCapped(totals: Totals, waterMl: real, profile: Option<UserProfile>)
    ensures ProteinBar(totals, profile) <= 100.0 && CarbBar(totals, profile) <= 100.0
    ensures FatBar(totals, profile) <= 100.0 && WaterBar(waterMl, profile) <= 100.0
    ensures profile.None? ==> ProteinBar(totals, profile) == Min(totals.protein / 150.0 * 100.0, 100.0)
    ensures profile.None? ==> WaterBar(waterMl, profile) == Min(waterMl / 3000.0 * 100.0, 100.0)
    ensures ProteinBar(SumLogs([]), profile) == 0.0 && WaterBar(0.0, profile) == 0.0
  {
  }
}
