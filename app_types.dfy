/** The application records the store and the pages pass around, reduced to the fields
    the modelled logic reads. Numbers that may be missing in a stored row are `Option`. */
module AppTypes {
  import opened JsMath
  import opened Splits

  datatype UserProfile = UserProfile(
    id: string,
    username: string,
    workoutSplit: Option<WorkoutSplit>,
    progressScore: Option<real>,
    calorieTarget: Option<real>,
    proteinTarget: Option<real>,
    carbTarget: Option<real>,
    fatTarget: Option<real>,
    waterTarget: Option<real>)

  datatype DailyLog = DailyLog(id: string, date: string, waterMl: real, progressScore: real)

  datatype FoodLog = FoodLog(
    id: string,
    foodName: string,
    calories: Option<real>,
    protein: Option<real>,
    carbs: Option<real>,
    fats: Option<real>)

  datatype InputMode = Manual | Ai

  datatype WorkoutLog = WorkoutLog(id: string, dailyLogId: string, notes: Option<string>, inputMode: InputMode)

  datatype WorkoutExercise = WorkoutExercise(id: string, exerciseName: string, bodyPart: string, orderIndex: int)

  datatype ActivityKind = FoodActivity | WaterActivity | WorkoutActivity | PhotoActivity | WeightActivity | AchievementActivity

  datatype ActivityItem = ActivityItem(id: string, kind: ActivityKind, timestamp: string)
}
