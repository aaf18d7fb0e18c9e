/** The day's nutrition totals, a left fold over the food logs in which a missing value
    counts as 0. The dashboard and the history page compute it with the same code. */
module FoodTotals {
  import opened JsMath
  import opened AppTypes

  datatype Totals = Totals(calories: real, protein: real, carbs: real, fats: real)

  const Zero: Totals := Totals(0.0, 0.0, 0.0, 0.0)

  function Add(a: Totals, b: Totals): Totals {
    Totals(a.calories + b.calories, a.protein + b.protein, a.carbs + b.carbs, a.fats + b.fats)
  }

  /** One log's contribution: `log.x || 0` for each component. */
  function Contribution(log: FoodLog): (r: Totals)
    ensures r.calories == log.calories.GetOr(0.0)
    ensures r.protein == log.protein.GetOr(0.0)
    ensures r.carbs == log.carbs.GetOr(0.0)
    ensures r.fats == log.fats.GetOr(0.0)
  {
    Totals(OrDefault(log.calories, 0.0), OrDefault(log.protein, 0.0),
           OrDefault(log.carbs, 0.0), OrDefault(log.fats, 0.0))
  }

  /** `logs.reduce((acc, log) => acc + log, zero)`, folding from the left: no logs give all
      zeros, and one log gives its own values with missing ones as 0. */
  function SumLogs(logs: seq<FoodLog>): (t: Totals)
    ensures |logs| == 0 ==> t == Zero
    ensures |logs| == 1 ==> t == Totals(logs[0].calories.GetOr(0.0), logs[0].protein.GetOr(0.0),
                                        logs[0].carbs.GetOr(0.0), logs[0].fats.GetOr(0.0))
  {
    if |logs| == 0 then Zero
    else Add(SumLogs(logs[..|logs| - 1]), Contribution(logs[|logs| - 1]))
  }

  /** The fold is a homomorphism from concatenation to component-wise addition. */
  lemma {:induction false} SumLogsAppend(a: seq<FoodLog>, b: seq<FoodLog>)
    ensures SumLogs(a + b) == Add(SumLogs(a), SumLogs(b))
    decreases |b|
  {
    if |b| == 0 {
      assert a + b == a;
    } else {
      var c := a + b;
      var init, last := b[..|b| - 1], b[|b| - 1];
      assert c[..|c| - 1] == a + init;
      assert c[|c| - 1] == last;
      SumLogsAppend(a, init);
      calc {
        SumLogs(c);
        Add(SumLogs(a + init), Contribution(last));
        Add(Add(SumLogs(a), SumLogs(init)), Contribution(last));
        Add(SumLogs(a), Add(SumLogs(init), Contribution(last)));
        Add(SumLogs(a), SumLogs(b));
      }
    }
  }

  /** Logging a meal adds exactly that meal's values to the totals. */
  lemma SumLogsAddMeal(logs: seq<FoodLog>, log: FoodLog)
    ensures SumLogs(logs + [log]) == Add(SumLogs(logs), Contribution(log))
  {
    assert (logs + [log])[..|logs|] == logs;
  }

  /** A log whose recorded values are all non-negative. */
  predicate NonNegative(log: FoodLog) {
    log.calories.GetOr(0.0) >= 0.0 && log.protein.GetOr(0.0) >= 0.0
    && log.carbs.GetOr(0.0) >= 0.0 && log.fats.GetOr(0.0) >= 0.0
  }

  /** Totals of non-negative logs are non-negative. */
  lemma {:induction false} SumLogsNonNegative(logs: seq<FoodLog>)
    requires forall i :: 0 <= i < |logs| ==> NonNegative(logs[i])
    ensures var t := SumLogs(logs);
            t.calories >= 0.0 && t.protein >= 0.0 && t.carbs >= 0.0 && t.fats >= 0.0
  {
    if |logs| > 0 {
      SumLogsNonNegative(logs[..|logs| - 1]);
    }
  }
}
