/** The daily progress score: the rule-based local computation and the clamp-or-default
    step applied to the number read back from the AI service. */
module ProgressScore {
  import opened JsMath

  /** One user-day of adherence data. */
  datatype DailyAdherence = DailyAdherence(
    calorieTarget: real,
    caloriesConsumed: real,
    proteinTarget: real,
    proteinConsumed: real,
    waterTarget: real,
    waterConsumed: real,
    workedOut: bool,
    isRestDay: bool,
    currentWeight: real,
    goalWeight: real,
    previousWeight: real,
    streakDays: int)

  const BaseScore: real := 50.0

  /** `target || 1`: a zero target divides as 1. */
  function SafeTarget(target: real): (r: real)
    ensures r != 0.0
    ensures target != 0.0 ==> r == target
  {
    if target == 0.0 then 1.0 else target
  }

  // ---------------------------------------------------------------- the six rules

  function CalorieAdjustment(consumed: real, target: real): (r: real)
    ensures r == 15.0 <==> Abs(consumed - target) <= 100.0
    ensures r == 5.0 <==> 100.0 < Abs(consumed - target) <= 300.0
    ensures r == -10.0 <==> Abs(consumed - target) > 300.0
  {
    var calDiff := Abs(consumed - target);
    if calDiff <= 100.0 then 15.0
    else if calDiff <= 300.0 then 5.0
    else -10.0
  }

  function ProteinAdjustment(consumed: real, target: real): (r: real)
    ensures var ratio := consumed / SafeTarget(target);
            (r == 15.0 <==> 0.9 <= ratio <= 1.1)
            && (r == 5.0 <==> ratio > 1.1 || 0.7 <= ratio < 0.9)
            && (r == -10.0 <==> ratio < 0.7)
  {
    var proteinRatio := consumed / SafeTarget(target);
    if proteinRatio >= 0.9 && proteinRatio <= 1.1 then 15.0
    else if proteinRatio >= 0.7 then 5.0
    else -10.0
  }

  function WaterAdjustment(consumed: real, target: real): (r: real)
    ensures var ratio := consumed / SafeTarget(target);
            (r == 10.0 <==> ratio >= 1.0)
            && (r == 5.0 <==> 0.7 <= ratio < 1.0)
            && (r == 0.0 <==> 0.3 <= ratio < 0.7)
            && (r == -10.0 <==> ratio < 0.3)
  {
    var waterRatio := consumed / SafeTarget(target);
    if waterRatio >= 1.0 then 10.0
    else if waterRatio >= 0.7 then 5.0
    else if waterRatio < 0.3 then -10.0
    else 0.0
  }

  function WorkoutAdjustment(isRestDay: bool, workedOut: bool): (r: real)
    ensures isRestDay ==> r == 5.0
    ensures !isRestDay ==> (r == 25.0 <==> workedOut) && (r == -15.0 <==> !workedOut)
  {
    if isRestDay then 5.0
    else if workedOut then 25.0
    else -15.0
  }

  function WeightAdjustment(currentWeight: real, goalWeight: real, previousWeight: real): (r: real)
    ensures r == 5.0 <==> Abs(currentWeight - goalWeight) < Abs(previousWeight - goalWeight)
    ensures r == 0.0 <==> Abs(currentWeight - goalWeight) >= Abs(previousWeight - goalWeight)
  {
    var goalDiff := Abs(currentWeight - goalWeight);
    var prevDiff := Abs(previousWeight - goalWeight);
    if goalDiff < prevDiff then 5.0 else 0.0
  }

  function StreakBonus(streakDays: int): (r: real)
    ensures r <= 10.0
    ensures r <= streakDays as real * 0.5
    ensures streakDays >= 0 ==> r >= 0.0
    ensures r == streakDays as real * 0.5 || r == 10.0
  {
    Min(streakDays as real * 0.5, 10.0)
  }

  /** The score before rounding and clamping: the base plus the six contributions. */
  function RawScore(d: DailyAdherence): real {
    BaseScore
    + CalorieAdjustment(d.caloriesConsumed, d.calorieTarget)
    + ProteinAdjustment(d.proteinConsumed, d.proteinTarget)
    + WaterAdjustment(d.waterConsumed, d.waterTarget)
    + WorkoutAdjustment(d.isRestDay, d.workedOut)
    + WeightAdjustment(d.currentWeight, d.goalWeight, d.previousWeight)
    + StreakBonus(d.streakDays)
  }

  // ---------------------------------------------------------------- two-decimal rounding

  /** `parseFloat(x.toFixed(2))` on the values the score can take: rounding the hundredths
      half up, which agrees with `toFixed(2)` on every multiple of 0.5 (`Round2HalfStep`). */
  function Round2(x: real): real {
    Round(x * 100.0) as real / 100.0
  }

  /** `x` is a whole multiple of one half. */
  predicate IsHalfStep(x: real) {
    (2.0 * x).Floor as real == 2.0 * x
  }

  lemma HalfStepSum(x: real, y: real)
    requires IsHalfStep(x) && IsHalfStep(y)
    ensures IsHalfStep(x + y)
  {
    var a, b := (2.0 * x).Floor, (2.0 * y).Floor;
    assert 2.0 * (x + y) == (a + b) as real;
  }

  /** Rounding to hundredths leaves a multiple of one half unchanged. */
  lemma Round2HalfStep(x: real)
    requires IsHalfStep(x)
    ensures Round2(x) == x
  {
    var k := (2.0 * x).Floor;
    assert x * 100.0 == (50 * k) as real;
    assert (x * 100.0 + 0.5).Floor == 50 * k;
  }

  /** With a whole number of streak days every contribution is a multiple of one half,
      so the two-decimal rounding of the source never changes the local score. */
  lemma RawScoreHalfStep(d: DailyAdherence)
    ensures IsHalfStep(RawScore(d))
  {
    var s := d.streakDays;
    assert IsHalfStep(s as real * 0.5) by {
      assert 2.0 * (s as real * 0.5) == s as real;
    }
    var parts := [BaseScore,
                  CalorieAdjustment(d.caloriesConsumed, d.calorieTarget),
                  ProteinAdjustment(d.proteinConsumed, d.proteinTarget),
                  WaterAdjustment(d.waterConsumed, d.waterTarget),
                  WorkoutAdjustment(d.isRestDay, d.workedOut),
                  WeightAdjustment(d.currentWeight, d.goalWeight, d.previousWeight),
                  StreakBonus(s)];
    assert forall i :: 0 <= i < |parts| ==> IsHalfStep(parts[i]);
    HalfStepSum(parts[0], parts[1]);
    HalfStepSum(parts[0] + parts[1], parts[2]);
    HalfStepSum(parts[0] + parts[1] + parts[2], parts[3]);
    HalfStepSum(parts[0] + parts[1] + parts[2] + parts[3], parts[4]);
    HalfStepSum(parts[0] + parts[1] + parts[2] + parts[3] + parts[4], parts[5]);
    HalfStepSum(parts[0] + parts[1] + parts[2] + parts[3] + parts[4] + parts[5], parts[6]);
  }

  // ---------------------------------------------------------------- the local score

  /** `calculateProgressScoreLocal`: start at 50, apply the rules in order,
      round to two decimals and clamp to [0, 100]. */
  method CalculateProgressScoreLocal(d: DailyAdherence) returns (score: real)
    ensures 0.0 <= score <= 100.0
    ensures score == Clamp100(RawScore(d))
  {
    score := 50.0;

    var calDiff := Abs(d.caloriesConsumed - d.calorieTarget);
    if calDiff <= 100.0 {
      score := score + 15.0;
    } else if calDiff <= 300.0 {
      score := score + 5.0;
    } else {
      score := score - 10.0;
    }
    assert score == BaseScore + CalorieAdjustment(d.caloriesConsumed, d.calorieTarget);

    var proteinRatio := d.proteinConsumed / SafeTarget(d.proteinTarget);
    if proteinRatio >= 0.9 && proteinRatio <= 1.1 {
      score := score + 15.0;
    } else if proteinRatio >= 0.7 {
      score := score + 5.0;
    } else {
      score := score - 10.0;
    }
    assert score == BaseScore + CalorieAdjustment(d.caloriesConsumed, d.calorieTarget)
                    + ProteinAdjustment(d.proteinConsumed, d.proteinTarget);

    var waterRatio := d.waterConsumed / SafeTarget(d.waterTarget);
    if waterRatio >= 1.0 {
      score := score + 10.0;
    } else if waterRatio >= 0.7 {
      score := score + 5.0;
    } else if waterRatio < 0.3 {
      score := score - 10.0;
    }
    assert score == BaseScore + CalorieAdjustment(d.caloriesConsumed, d.calorieTarget)
                    + ProteinAdjustment(d.proteinConsumed, d.proteinTarget)
                    + WaterAdjustment(d.waterConsumed, d.waterTarget);

    if d.isRestDay {
      score := score + 5.0;
    } else if d.workedOut {
      score := score + 25.0;
    } else {
      score := score - 15.0;
    }

    var goalDiff := Abs(d.currentWeight - d.goalWeight);
    var prevDiff := Abs(d.previousWeight - d.goalWeight);
    if goalDiff < prevDiff {
      score := score + 5.0;
    }

    score := score + Min(d.streakDays as real * 0.5, 10.0);

    assert score == RawScore(d);
    RawScoreHalfStep(d);
    Round2HalfStep(score);
    score := Clamp100(Round2(score));
  }

  /** For a non-negative streak the unclamped score lies in [5, 130]: the lower clamp never
      applies and only the upper one can. */
  lemma RawScoreBounds(d: DailyAdherence)
    requires d.streakDays >= 0
    ensures 5.0 <= RawScore(d) <= 130.0
    ensures Clamp100(RawScore(d)) == Min(100.0, RawScore(d))
  {
  }

  /** Both extremes are reached. */
  lemma RawScoreExtremes()
    ensures RawScore(DailyAdherence(2000.0, 3000.0, 100.0, 0.0, 1000.0, 0.0,
                                    false, false, 80.0, 75.0, 80.0, 0)) == 5.0
    ensures RawScore(DailyAdherence(2000.0, 2000.0, 100.0, 100.0, 1000.0, 1000.0,
                                    true, false, 79.0, 75.0, 80.0, 20)) == 130.0
  {
  }

  /** A rest day earns +5 whether or not a workout was logged. */
  lemma RestDayPrecedence(d: DailyAdherence)
    requires d.isRestDay
    ensures RawScore(d) == RawScore(d.(workedOut := !d.workedOut))
  {
  }

  /** Logging a workout on a training day is worth 40 points over skipping it. */
  lemma WorkoutSwing(d: DailyAdherence)
    requires !d.isRestDay
    ensures RawScore(d.(workedOut := true)) - RawScore(d.(workedOut := false)) == 40.0
  {
  }

  /** Moving away from the goal weight carries no penalty. */
  lemma WeightNoPenalty(cur: real, goal: real, prev: real)
    ensures WeightAdjustment(cur, goal, prev) >= 0.0
    ensures WeightAdjustment(prev, goal, prev) == 0.0
  {
  }

  /** The streak bonus never decreases as the streak grows and stops growing at 20 days. */
  lemma StreakBonusMonotone(s1: int, s2: int)
    requires s1 <= s2
    ensures StreakBonus(s1) <= StreakBonus(s2)
    ensures s1 >= 20 ==> StreakBonus(s1) == StreakBonus(s2) == 10.0
  {
  }

  /** With a zero target the ratio is the consumed amount itself. */
  lemma ZeroTargets(consumed: real)
    ensures ProteinAdjustment(consumed, 0.0) == ProteinAdjustment(consumed, 1.0)
    ensures WaterAdjustment(consumed, 0.0) == WaterAdjustment(consumed, 1.0)
    ensures consumed >= 1.0 ==> WaterAdjustment(consumed, 0.0) == 10.0
  {
  }

  /** The worked example: every rule at its best except the streak (10 days, +5),
      giving 125 before the clamp and 100 after. */
  lemma ScoreExample()
    ensures var d := DailyAdherence(2000.0, 2050.0, 150.0, 140.0, 3000.0, 3200.0,
                                    true, false, 79.0, 75.0, 80.0, 10);
            RawScore(d) == 125.0 && Clamp100(RawScore(d)) == 100.0
  {
  }

  // ---------------------------------------------------------------- the AI path

  /** The number parsed from the AI reply (`None` when `parseFloat` gives NaN) becomes
      exactly 50 when unparseable and is clamped to [0, 100] otherwise. */
  function AiScoreFromReply(parsed: Option<real>): (r: real)
    ensures 0.0 <= r <= 100.0
    ensures parsed.None? ==> r == 50.0
    ensures parsed.Some? && 0.0 <= parsed.value <= 100.0 ==> r == parsed.value
    ensures parsed.Some? && parsed.value > 100.0 ==> r == 100.0
    ensures parsed.Some? && parsed.value < 0.0 ==> r == 0.0
  {
    if parsed.None? then 50.0 else Min(100.0, Max(0.0, parsed.value))
  }
}
