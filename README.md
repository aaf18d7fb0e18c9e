# IronLog fitness tracker: a Dafny model of its core rules

IronLog is a web app for tracking training and nutrition. A user onboards with body data, a
weekly training split and a calorie goal. Each day they log meals, water and workouts. The
dashboard shows totals, progress bars and a daily progress score.

This project models the deterministic rules behind those screens and proves properties of them:

- `js_math.dfy` (module `JsMath`): the JavaScript number operations the code relies on, over exact reals.
  - `Math.round` is `Floor(x + 0.5)`.
  - `x || d` on a number gives `d` for a missing value and for 0.
  - `NaN`, `null` and `undefined` are `Option.None`.
- `calories.dfy` (module `Calories`): nutrition targets.
  - Mifflin–St Jeor BMR and maintenance at ×1.55.
  - kg/lbs and cm/ft conversion.
  - The goal table and `getCalorieTarget`.
  - The protein/fat/carbohydrate allocator.
- `progress_score.dfy` (module `ProgressScore`): the rule-based daily score, plus the clamp-or-default step applied to the AI's numeric reply.
- `splits.dfy` (module `Splits`): the weekly split presets, weekday naming, `getTodaySplit` and `formatSplitDay`.
- `app_types.dfy` (module `AppTypes`): the records the store holds, reduced to the fields the rules read.
- `store.dfy` (module `Store`): the global store as a class.
  - One field per state entry.
  - One method per action.
  - `partialize`, the part of the state that persists across sessions.
- `food_totals.dfy` (module `FoodTotals`): the day's macro totals. The dashboard and the history page compute them with the same fold.
- `onboarding.dfy` (module `Onboarding`): the onboarding wizard.
  - Body-part toggling.
  - The `canProceed` gate.
  - The three-step `goNext`/`goBack` machine.
  - The maintenance fallback and the target submitted on completion.
- `workout_log.dfy` (module `WorkoutLog`): the workout editor.
  - A draft list of exercises and their sets.
  - Add/remove/update actions.
  - Set and volume totals.
  - The numbered rows saved per exercise.
- `history.dfy` (module `History`): the 42-cell month grid.
- `dashboard.dfy` (module `Dashboard`): today's split, rest-day detection, the score-trend arrow and the capped progress bars.

Modelling choices:
- Numbers are `real`.
- String parsing (`parseInt`, `parseFloat`) is not modelled. Its results enter as `Option` values or as function parameters.
- The clock enters as parameters: today's weekday, the weekday of the 1st and the length of the month.
- Random ids (`crypto.randomUUID`) are parameters.
- State that the source keeps in a store or in React state is a class whose methods state the whole new state. Pure updates (`filter`, `map`, spread) are functions.

## Model

| member | source | states |
|---|---|---|
| `Calories.CalculateBMR` | src/lib/calories.ts:7-19 | the Mifflin–St Jeor equation: 10 per kg + 6.25 per cm − 5 per year, then +5 for `male` and −161 for `female` and `other` |
| `Calories.MaleBMRGap` | src/lib/calories.ts:13-18 | male BMR is exactly 166 above the other two genders, and `other` uses the female formula |
| `Calories.BMRRates` | src/lib/calories.ts:14-17 | BMR changes by 10 per kg, 6.25 per cm and −5 per year of age |
| `Calories.BMRExample` | src/lib/calories.ts:7-24 | 80 kg, 180 cm, 30 y, male gives BMR 1780 and maintenance 2759 |
| `Calories.CalculateMaintenance` | src/lib/calories.ts:21-24 | the result is the integer nearest to bmr × 1.55 (halves up) |
| `Calories.MaintenanceMonotone` | src/lib/calories.ts:21-24 | maintenance never decreases as BMR grows |
| `Calories.ConvertWeight` | src/lib/calories.ts:26-30 | identity when the units agree; ×0.453592 from lbs, ×2.20462 from kg |
| `Calories.ConvertHeight` | src/lib/calories.ts:32-36 | identity when the units agree; ×30.48 from ft; cm→ft is the inverse of ×30.48 |
| `Calories.HeightRoundTrip` | src/lib/calories.ts:32-36 | cm→ft→cm and ft→cm→ft give back exactly the input |
| `Calories.WeightRoundTrip` | src/lib/calories.ts:26-30 | both weight round trips scale by 0.99999799504: within 3e-6 relative, never exact for a non-zero weight |
| `Calories.FindOption` | src/lib/calories.ts:90 | `find`: a result has the goal and comes from the table; none iff no entry has the goal |
| `Calories.FindFirst` | src/lib/calories.ts:90 | `find` returns the first entry with the goal: every earlier entry has another goal |
| `Calories.FindDistinct` | src/lib/calories.ts:90 | in a table without repeated goals, looking up an entry's goal returns that entry |
| `Calories.GoalOffsetFirstEntry` | src/lib/calories.ts:90-91 | the offset used for a goal is that of the first table entry with the goal |
| `Calories.GoalOffsetMissing` | src/lib/calories.ts:90-91 | a goal without a table entry gets offset 0 (`?.offset \|\| 0`) |
| `Calories.GoalOffsets` | src/lib/calories.ts:55-63 | the offsets found per goal: 0, −250, −500, −750, +250, +500, +750, and 0 for `custom` (no entry) |
| `Calories.CutsBelowBulksAbove` | src/lib/calories.ts:55-63 | cut offsets are negative, bulk offsets positive, maintenance and custom 0 |
| `Calories.GetCalorieTarget` | src/lib/calories.ts:88-92 | `custom` with a non-zero value returns it; `custom` without one returns maintenance; any other goal returns maintenance + its offset |
| `Calories.CuttingGoals` | src/lib/calories.ts:71 | the identifier test `includes('cut')` holds exactly for the three cut goals (not for `custom`) |
| `Calories.CalculateMacros` | src/lib/calories.ts:65-86 | calories unchanged; carbs ≥ 0; protein and fat are the rounded quotas; carbs are the rounded remainder after unrounded fat calories, or 0 when the remainder is ≤ 0 |
| `Calories.MacroRatesByGoal` | src/lib/calories.ts:71-79 | goals whose identifier contains "cut" get 2.2 g/kg protein and 25 % fat; all others 1.8 g/kg and 30 % |
| `Calories.MacroEnergyBalance` | src/lib/calories.ts:74-85 | with a non-negative carbohydrate remainder, 4p + 9f + 4c is within 6.5 kcal of the target |
| `Calories.MacroEnergyExample` | src/lib/calories.ts:65-86 | 1000 kcal, 40 kg, mid cut gives (1000, 88, 100, 28), i.e. 1004 kcal, 4 above the target |
| `Calories.MacroExample` | src/lib/calories.ts:65-86 | 2500 kcal, 80 kg, mid cut gives protein 176, carbs 293, fat 69 |
| `Calories.MacroCarbFloor` | src/lib/calories.ts:73-83 | for any non-negative budget that protein alone uses up (4 × protein g ≥ calories), carbs are 0 |
| `JsMath.Round` | src/lib/calories.ts:23 | `Math.round` returns the integer within half a unit, halves up |
| `JsMath.Clamp100` | src/lib/gemini.ts:236 | the clamp lands in [0, 100] and only moves values outside it |
| `ProgressScore.SafeTarget` | src/lib/gemini.ts:208 | a zero target divides as 1, so the ratio's divisor is never 0 |
| `ProgressScore.CalorieAdjustment` | src/lib/gemini.ts:201-205 | +15 iff \|consumed − target\| ≤ 100, +5 iff it is in (100, 300], −10 iff above 300 |
| `ProgressScore.ProteinAdjustment` | src/lib/gemini.ts:207-211 | +15 iff the ratio is in [0.9, 1.1], +5 iff in [0.7, 0.9) or above 1.1, −10 iff below 0.7 |
| `ProgressScore.WaterAdjustment` | src/lib/gemini.ts:213-217 | +10 iff the ratio is ≥ 1, +5 iff in [0.7, 1), 0 iff in [0.3, 0.7), −10 iff below 0.3 |
| `ProgressScore.WorkoutAdjustment` | src/lib/gemini.ts:219-226 | a rest day gives +5; otherwise +25 iff a workout was logged and −15 iff not |
| `ProgressScore.WeightAdjustment` | src/lib/gemini.ts:228-231 | +5 iff the current weight is strictly closer to the goal than the previous one, else 0 |
| `ProgressScore.StreakBonus` | src/lib/gemini.ts:233-234 | the bonus is min(streak × 0.5, 10): at most both, and equal to one of them |
| `ProgressScore.Round2HalfStep` | src/lib/gemini.ts:236 | rounding to two decimals leaves a multiple of 0.5 unchanged |
| `ProgressScore.RawScoreHalfStep` | src/lib/gemini.ts:199-234 | with an integer streak every unclamped score is a multiple of 0.5, so `toFixed(2)` never changes it |
| `ProgressScore.CalculateProgressScoreLocal` | src/lib/gemini.ts:185-237 | the step-by-step score equals the clamped sum of base and six rules, and lies in [0, 100] |
| `ProgressScore.RawScoreBounds` | src/lib/gemini.ts:199-234 | for a non-negative streak the unclamped score is in [5, 130], so the lower clamp never applies |
| `ProgressScore.RawScoreExtremes` | src/lib/gemini.ts:199-234 | both 5 and 130 are reached |
| `ProgressScore.RestDayPrecedence` | src/lib/gemini.ts:220-222 | on a rest day the workout flag does not affect the score |
| `ProgressScore.WorkoutSwing` | src/lib/gemini.ts:220-226 | on a training day, logging a workout is worth exactly 40 points over not logging one |
| `ProgressScore.WeightNoPenalty` | src/lib/gemini.ts:228-231 | the weight rule never subtracts; standing still earns nothing |
| `ProgressScore.StreakBonusMonotone` | src/lib/gemini.ts:234 | the bonus is monotone in the streak and stays at 10 from 20 days on |
| `ProgressScore.ZeroTargets` | src/lib/gemini.ts:208-214 | a zero protein or water target scores as a target of 1 |
| `ProgressScore.ScoreExample` | src/lib/gemini.ts:185-237 | a near-perfect day with a 10-day streak sums to 125 and is clamped to 100 |
| `ProgressScore.AiScoreFromReply` | src/lib/gemini.ts:180-181 | an unparseable reply gives exactly 50; a parsed value is clamped to [0, 100] and kept when already inside |
| `Splits.WorkoutSplit.With` | src/app/onboarding/page.tsx:69-75 | `{ ...split, [day]: parts }` sets that day and leaves the other six unchanged |
| `Splits.PresetsWellFormed` | src/lib/splits.ts:6-127 | ten presets; every day of every preset is non-empty, and a day holding "Rest Day" holds nothing else |
| `Splits.GetDayName` | src/lib/splits.ts:129-132 | defined exactly on 0..6, and maps index i to the i-th day from Monday |
| `Splits.DayNameRoundTrip` | src/lib/splits.ts:129-132 | naming a day's index gives the day back, so the seven names are distinct |
| `Splits.AdjustWeekday` | src/lib/splits.ts:137 | Sunday (0) maps to 6 and d to d − 1 for d in 1..6 |
| `Splits.AdjustWeekdayBijective` | src/lib/splits.ts:135-138 | the adjustment is injective on 0..6 and undone by (i + 1) mod 7 in both directions |
| `Splits.GetTodaySplit` | src/lib/splits.ts:134-140 | Sunday reads the `sunday` list, Monday `monday`, Saturday `saturday`; in general the day whose index is the adjusted weekday |
| `Splits.JoinHasSeparator` | src/lib/splits.ts:145 | a join of two or more parts has the separator right after the first part |
| `Splits.FormatSplitDay` | src/lib/splits.ts:142-146 | "Rest Day" for an empty day or one containing "Rest Day"; otherwise the parts joined by " + " |
| `Splits.FormatSingle` | src/lib/splits.ts:145 | a single part other than "Rest Day" is shown as itself |
| `Splits.FormatShowsRest` | src/lib/splits.ts:142-146 | the display is "Rest Day" iff the day is empty or contains "Rest Day" (a real join contains " + ") |
| `Store.Partialize` | src/lib/store.ts:99-102 | the persisted record carries the tab and the onboarding flag |
| `Store.PartializeKeepsOnlyTwoFields` | src/lib/store.ts:99-102 | two states persist identically iff they agree on `activeTab` and `isOnboarded` |
| `Store.InitialStateFacts` | src/lib/store.ts:53-68 | the initial state has empty lists, no user or log, water 0, loading on, all modals closed, tab "home" |
| `Store.AppStore.constructor` | src/lib/store.ts:70-73 | a new store holds the initial state |
| `Store.AppStore.SetUser` | src/lib/store.ts:75 | replaces `user` and nothing else |
| `Store.AppStore.SetLoading` | src/lib/store.ts:76 | replaces `isLoading` and nothing else |
| `Store.AppStore.SetOnboarded` | src/lib/store.ts:77 | replaces `isOnboarded` and nothing else |
| `Store.AppStore.SetTodayLog` | src/lib/store.ts:78 | replaces `todayLog` and nothing else |
| `Store.AppStore.SetFoodLogs` | src/lib/store.ts:79 | replaces `foodLogs` and nothing else |
| `Store.AppStore.AddFoodLog` | src/lib/store.ts:80 | appends: one more log at the end, the old prefix unchanged, no other field changed |
| `Store.AppStore.SetWorkoutLogs` | src/lib/store.ts:81 | replaces `workoutLogs` and nothing else |
| `Store.AppStore.AddWorkoutLog` | src/lib/store.ts:82 | appends, like `AddFoodLog` |
| `Store.AppStore.SetWorkoutExercises` | src/lib/store.ts:83 | replaces `workoutExercises` and nothing else |
| `Store.AppStore.SetWaterMl` | src/lib/store.ts:84 | replaces `waterMl` and nothing else |
| `Store.AppStore.AddWater` | src/lib/store.ts:85 | `waterMl` becomes old + ml, nothing else changes |
| `Store.AppStore.SetActivityFeed` | src/lib/store.ts:86 | replaces `activityFeed` and nothing else |
| `Store.AppStore.AddActivity` | src/lib/store.ts:87-89 | prepends: the item at index 0, the old feed after it, nothing else changed |
| `Store.AppStore.SetActiveTab` | src/lib/store.ts:90 | replaces `activeTab` and nothing else |
| `Store.AppStore.SetShowFoodModal` | src/lib/store.ts:91 | replaces `showFoodModal` and nothing else |
| `Store.AppStore.SetShowWaterModal` | src/lib/store.ts:92 | replaces `showWaterModal` and nothing else |
| `Store.AppStore.SetShowWorkoutModal` | src/lib/store.ts:93 | replaces `showWorkoutModal` and nothing else |
| `Store.AppStore.SetShowPhotoModal` | src/lib/store.ts:94 | replaces `showPhotoModal` and nothing else |
| `Store.AppStore.Reset` | src/lib/store.ts:95 | every field is back at the initial state |
| `Store.AppStore.Persisted` | src/lib/store.ts:97-103 | what is written to storage is the projection of the current state |
| `FoodTotals.Contribution` | src/app/dashboard/page.tsx:113-116 | each component of one log counts as its value, or 0 when missing |
| `FoodTotals.SumLogs` | src/app/dashboard/page.tsx:111-119 | the left fold: no logs give all zeros; one log gives its own values with missing ones as 0 |
| `FoodTotals.SumLogsAppend` | src/app/dashboard/page.tsx:111-119 | the fold maps concatenation of log lists to component-wise addition |
| `FoodTotals.SumLogsAddMeal` | src/app/dashboard/history/page.tsx:128-136 | logging one more meal adds exactly its values to the totals |
| `FoodTotals.SumLogsNonNegative` | src/app/dashboard/history/page.tsx:128-136 | totals of logs with non-negative values are non-negative |
| `Onboarding.RemoveAll` | src/app/onboarding/page.tsx:71-73 | `filter(p => p !== x)`: x is gone, every other value keeps its count |
| `Onboarding.RemoveAppend` | src/app/onboarding/page.tsx:71-73 | filtering distributes over concatenation, so survivors keep their order |
| `Onboarding.ToggleBodyPart` | src/app/onboarding/page.tsx:65-77 | "Rest Day" makes the day exactly `["Rest Day"]`; another part clears "Rest Day", then is filtered out (order kept) if present or appended at the end; the other six days are unchanged |
| `Onboarding.ToggleTwiceAbsent` | src/app/onboarding/page.tsx:71-75 | on a day without "Rest Day", toggling an absent part twice restores the split exactly |
| `Onboarding.ToggleTwicePresent` | src/app/onboarding/page.tsx:71-75 | toggling a present part twice restores the same parts, with that part moved to the end |
| `Onboarding.ToggleRestIdempotent` | src/app/onboarding/page.tsx:68-70 | choosing "Rest Day" twice equals choosing it once |
| `Onboarding.Trim` | src/app/onboarding/page.tsx:140 | `trim()` never lengthens, leaves no white space at either end, and keeps a string without white space as it is |
| `Onboarding.TrimSlice` | src/app/onboarding/page.tsx:140 | `trim()` yields the slice s[a..b] where everything before a and from b on is white space: only a leading and a trailing run are removed |
| `Onboarding.TrimEmpty` | src/app/onboarding/page.tsx:140 | `trim()` gives the empty string iff every character is white space |
| `Onboarding.CanProceed` | src/app/onboarding/page.tsx:138-146 | step 0 iff the username has a non-blank character and the other five fields are non-empty; step 1 iff some day is non-empty; otherwise always |
| `Onboarding.BlankUsernameBlocks` | src/app/onboarding/page.tsx:140 | an all-blank username blocks the first step |
| `Onboarding.PresetsCanProceed` | src/app/onboarding/page.tsx:60-63 | a chosen preset always passes the split step |
| `Onboarding.Wizard.constructor` | src/app/onboarding/page.tsx:25 | the wizard starts on step 0 |
| `Onboarding.Wizard.GoNext` | src/app/onboarding/page.tsx:162-169 | below step 2 it advances by one with direction +1; on step 2 it submits and stays; the step stays in 0..2 |
| `Onboarding.Wizard.GoBack` | src/app/onboarding/page.tsx:171-176 | above step 0 it goes back one with direction −1; on step 0 nothing changes; the step stays in 0..2 |
| `Onboarding.WeightKg` | src/app/onboarding/page.tsx:51 | the weight in kg is defined iff the entry parses, and is then its conversion to kg |
| `Onboarding.HeightCm` | src/app/onboarding/page.tsx:52 | the height in cm is defined iff the entry parses, and is then its conversion to cm |
| `Onboarding.GetMaintenanceCalories` | src/app/onboarding/page.tsx:50-56 | 2000 whenever weight, height or age does not parse; otherwise the rounded maintenance of the BMR from the entries converted to kg and cm |
| `Onboarding.MaintenanceUnitsAgree` | src/app/onboarding/page.tsx:50-56 | entering lbs/ft equals entering the converted kg/cm; a male body never gets less than a female one |
| `Onboarding.SubmitTargetCalories` | src/app/onboarding/page.tsx:94 | `custom` submits the typed value, which may not parse; other goals submit maintenance + offset |
| `Onboarding.SubmitTargetVersusLibrary` | src/app/onboarding/page.tsx:94 | agrees with `getCalorieTarget` for every goal except `custom` with an unparseable or 0 value: the wizard submits NaN or 0, the library returns maintenance |
| `Onboarding.SubmitNutrition` | src/app/onboarding/page.tsx:93-116 | the saved macros are the allocator's split of the submitted target at the current weight; water target 3000, starting score 50; undefined iff weight or target does not parse |
| `WorkoutLog.NewExercise` | src/components/modals/WorkoutLogModal.tsx:62-72 | a new exercise has its catalogue name and body part, empty notes and exactly one blank `working` set |
| `WorkoutLog.WithoutExercise` | src/components/modals/WorkoutLogModal.tsx:77-79 | `filter`: exactly the exercises with another id remain |
| `WorkoutLog.WithoutExerciseAppend` | src/components/modals/WorkoutLogModal.tsx:77-79 | filtering distributes over concatenation, so the others keep their order |
| `WorkoutLog.AddThenRemoveExercise` | src/components/modals/WorkoutLogModal.tsx:62-79 | adding an exercise with a fresh id and removing that id restores the list |
| `WorkoutLog.WithoutSet` | src/components/modals/WorkoutLogModal.tsx:101 | exactly the sets with another id remain |
| `WorkoutLog.ApplySetEdit` | src/components/modals/WorkoutLogModal.tsx:114 | an edit writes one field of the set and keeps the rest, id included |
| `WorkoutLog.UpdateSets` | src/components/modals/WorkoutLogModal.tsx:113-115 | sets with the id are edited, all others unchanged, same length |
| `WorkoutLog.ApplyExerciseEdit` | src/components/modals/WorkoutLogModal.tsx:81-120 | add appends one blank `working` set, remove filters the set, update maps it; name, body part, notes and id stay |
| `WorkoutLog.EditMatching` | src/components/modals/WorkoutLogModal.tsx:82-94 | only exercises with the id are edited; all others and the length are unchanged |
| `WorkoutLog.AddThenRemoveSet` | src/components/modals/WorkoutLogModal.tsx:81-105 | adding a set with a fresh id and removing that id restores the draft |
| `WorkoutLog.Draft.constructor` | src/components/modals/WorkoutLogModal.tsx:48 | the editor opens with no exercises |
| `WorkoutLog.Draft.AddExercise` | src/components/modals/WorkoutLogModal.tsx:62-75 | the draft grows by the new exercise at the end, the old prefix unchanged |
| `WorkoutLog.Draft.RemoveExercise` | src/components/modals/WorkoutLogModal.tsx:77-79 | the draft becomes the filtered list |
| `WorkoutLog.Draft.AddSet` | src/components/modals/WorkoutLogModal.tsx:81-95 | the draft becomes the list with a blank set appended to the matching exercise |
| `WorkoutLog.Draft.RemoveSet` | src/components/modals/WorkoutLogModal.tsx:97-105 | the draft becomes the list with the set filtered out of the matching exercise |
| `WorkoutLog.Draft.UpdateSet` | src/components/modals/WorkoutLogModal.tsx:107-120 | the draft becomes the list with one field of the matching set rewritten |
| `WorkoutLog.Draft.LoadParsed` | src/components/modals/WorkoutLogModal.tsx:148 | a parsed AI reply replaces the draft |
| `WorkoutLog.TotalSets` | src/components/modals/WorkoutLogModal.tsx:250 | every exercise's set count is included, and the total is 0 iff no exercise has a set |
| `WorkoutLog.TotalSetsOne` | src/components/modals/WorkoutLogModal.tsx:250 | one exercise contributes exactly its number of sets, so with `TotalSetsAppend` the total is the sum of the set counts |
| `WorkoutLog.TotalSetsAppend` | src/components/modals/WorkoutLogModal.tsx:250 | the set count of a concatenation is the sum of the counts |
| `WorkoutLog.TotalSetsAddExercise` | src/components/modals/WorkoutLogModal.tsx:250 | adding an exercise adds one set |
| `WorkoutLog.TotalSetsAddSet` | src/components/modals/WorkoutLogModal.tsx:250 | adding a set adds one per exercise carrying the id |
| `WorkoutLog.TotalSetsEditSet` | src/components/modals/WorkoutLogModal.tsx:250 | editing a set keeps the count |
| `WorkoutLog.IntOrZero` | src/components/modals/WorkoutLogModal.tsx:231 | `parseInt(x) \|\| 0` is 0 when the parse fails and the parsed value otherwise |
| `WorkoutLog.TotalVolume` | src/components/modals/WorkoutLogModal.tsx:251-255 | no exercises give 0; non-negative sets give a non-negative total |
| `WorkoutLog.TotalVolumeOne` | src/components/modals/WorkoutLogModal.tsx:251-255 | one exercise contributes exactly its sets' volume, so with `TotalVolumeAppend` the total is the sum over exercises |
| `WorkoutLog.TotalVolumeAppend` | src/components/modals/WorkoutLogModal.tsx:251-255 | the volume of a concatenation is the sum of the volumes |
| `WorkoutLog.VolumeAddExercise` | src/components/modals/WorkoutLogModal.tsx:251-255 | a blank set has volume 0, so a new exercise leaves the total volume unchanged |
| `WorkoutLog.SetsVolume` | src/components/modals/WorkoutLogModal.tsx:252-254 | an exercise without sets has volume 0; sets with non-negative parsed weight and reps have non-negative volume |
| `WorkoutLog.SetsVolumeOne` | src/components/modals/WorkoutLogModal.tsx:252-254 | one set contributes its parsed weight times its parsed reps, 0 for either when it does not parse |
| `WorkoutLog.SetsVolumeAppend` | src/components/modals/WorkoutLogModal.tsx:252-254 | the per-exercise volume of concatenated set lists is the sum of their volumes |
| `WorkoutLog.SavedWeightUnit` | src/components/modals/WorkoutLogModal.tsx:233 | the saved unit is the user's, or "lbs" when missing or empty |
| `WorkoutLog.SetsData` | src/components/modals/WorkoutLogModal.tsx:228-235 | one row per set, in order: number j + 1, reps and weight as parsed or 0, the set's type |
| `WorkoutLog.SetsDataNumbering` | src/components/modals/WorkoutLogModal.tsx:228-235 | set numbers run from 1 to n, strictly increasing; an unparseable entry is saved as 0 |
| `WorkoutLog.FromAiSet` | src/components/modals/WorkoutLogModal.tsx:139-144 | an AI set keeps its reps and weight text and defaults its type to `working` |
| `History.CalendarDays` | src/app/dashboard/history/page.tsx:105-109 | 42 cells; cell i is empty iff i < firstDay or i − firstDay + 1 > daysInMonth, and otherwise holds that day number |
| `History.CalendarDaysEachOnce` | src/app/dashboard/history/page.tsx:105-109 | for firstDay ≤ 6 and at most 31 days: every day of the month has a cell, no day has two, and the filled cells run from firstDay |
| `History.CalendarLongestMonth` | src/app/dashboard/history/page.tsx:105-109 | a 31-day month starting on Saturday fills cells 6..36 |
| `Dashboard.TodaySplit` | src/app/dashboard/page.tsx:135 | no profile or no split gives an empty day; otherwise `getTodaySplit` for today's weekday |
| `Dashboard.IsRestDay` | src/app/dashboard/page.tsx:136 | a rest day iff today's parts contain "Rest Day" or are empty |
| `Dashboard.RestDayMatchesDisplay` | src/app/dashboard/page.tsx:136 | the dashboard calls a day a rest day iff `formatSplitDay` shows "Rest Day" |
| `Dashboard.RestDayCases` | src/app/dashboard/page.tsx:135-136 | without a profile or split every day is a rest day; the preset rest day is one, a push day is not |
| `Dashboard.ScoreTrend` | src/app/dashboard/page.tsx:143 | up iff the defaulted score is above 50, down iff below 50, stable iff 50 |
| `Dashboard.ScoreTrendCases` | src/app/dashboard/page.tsx:143 | a missing or zero score shows stable; otherwise the arrow follows the score |
| `Dashboard.BarPercent` | src/app/dashboard/page.tsx:258 | the divisor is never 0, the bar never exceeds 100, and below the cap it is the plain percentage |
| `Dashboard.BarPercentRange` | src/app/dashboard/page.tsx:258 | a non-negative amount against a non-negative target fills 0..100 |
| `Dashboard.ProteinBar` | src/app/dashboard/page.tsx:258 | protein eaten as a percentage of the profile's target, or of 150 g when it is missing or 0, capped at 100 |
| `Dashboard.CarbBar` | src/app/dashboard/page.tsx:278 | carbohydrates as a percentage of the target, or of 200 g when missing or 0, capped at 100 |
| `Dashboard.FatBar` | src/app/dashboard/page.tsx:298 | fat as a percentage of the target, or of 60 g when missing or 0, capped at 100 |
| `Dashboard.WaterBar` | src/app/dashboard/page.tsx:318 | water as a percentage of the target, or of 3000 ml when missing or 0, capped at 100 |
| `Dashboard.BarsCapped` | src/app/dashboard/page.tsx:258-318 | the protein, carb, fat and water bars never exceed 100; without a profile they use 150 g and 3000 ml defaults; an empty day shows 0 |

## Left out

- Rendering, animation, layout and landing pages: presentation only.
- Supabase reads and writes, authentication and the network part of `handleSubmit`/`handleSave`: they talk to a backend that is not part of this model.
- Gemini calls, prompts and `JSON.parse` of model output: a foreign service. Only the clamp-or-default applied to its parsed number is modelled (`AiScoreFromReply`).
- `new Date()`, `getDay()` and month navigation read the clock and timezone. Today's weekday, the weekday of the 1st and the month length are parameters instead.
- `parseInt`/`parseFloat`: JavaScript number parsing is not modelled. A parse result is an `Option` (`None` for NaN), or a function parameter in the workout totals.
- `Number.prototype.toString` for AI sets: the text is a parameter of `FromAiSet`.
- Floating point: numbers are exact reals. `toFixed(2)` is rounding to hundredths. `RawScoreHalfStep` proves it is the identity on the local score for an integer streak.
- `crypto.randomUUID`: ids are parameters. The fresh-id lemmas assume fresh ids.
- `searchExercises` and the exercise catalogue: `src/lib/exercises` is not part of this model.
- The persist middleware's storage I/O and rehydration. Only `partialize` is modelled.
- The macro preview shown on the goal step (src/app/onboarding/page.tsx:599-602): it repeats the submit computation with `|| '0'` defaults.
- `Onboarding.ToggleTwicePresent`: toggling a present part twice moves it to the end. The day gets back the same multiset of parts, not the same list.
- `Onboarding.SubmitNutrition`: when the weight or the custom target does not parse, the source stores `NaN` in some macro fields and numbers in others. The model collapses that record into `None`.
- `Store.AppStore.Reset` is written as one setter per field rather than a single `set(initialState)`. The resulting state is the same.
- `Calories.IsCutting` lists the three cut goals. The source tests `goalType.includes('cut')`, modelled as `IncludesCut`. `CuttingGoals` proves the two agree on every goal.

## Arithmetic worth knowing

- kg→lbs→kg and lbs→kg→lbs both scale a weight by 0.99999799504, the product of the two factors at src/lib/calories.ts:26-30. That is a relative error of about 2e-6, and no non-zero weight comes back exactly (`Calories.WeightRoundTrip`).
- The energy of the protein/fat/carb split can miss the calorie target by up to 6.5 kcal. Rounding fat to whole grams alone moves up to 4.5 kcal. 1000 kcal at 40 kg on a mid cut gives 1004 kcal (`Calories.MacroEnergyBalance`, `Calories.MacroEnergyExample`).
- 2500 kcal at 80 kg on a mid cut gives 176 g protein, 69 g fat and 293 g carbohydrate. The carbohydrate remainder subtracts the unrounded 625 fat kcal, not 9 × 69 (src/lib/calories.ts:78-83, `Calories.MacroExample`).
- Maintenance is `Math.round(bmr * 1.55)`. The onboarding wizard uses 2000 when a typed entry does not parse (src/app/onboarding/page.tsx:50-56).
- The onboarding wizard does not call `getCalorieTarget`. For `custom` it submits `parseInt` of the typed text, which may be NaN or 0, where the library would return maintenance (`Onboarding.SubmitTargetVersusLibrary`).
