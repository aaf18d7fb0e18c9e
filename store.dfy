/** The global application store: one record of fields, each action replacing or extending
    one field, and the projection that is persisted across sessions. */
module Store {
  import opened JsMath
  import opened AppTypes

  /** A snapshot of every field of the store. */
  datatype StoreState = StoreState(
    user: Option<UserProfile>,
    isLoading: bool,
    isOnboarded: bool,
    todayLog: Option<DailyLog>,
    foodLogs: seq<FoodLog>,
    workoutLogs: seq<WorkoutLog>,
    workoutExercises: seq<WorkoutExercise>,
    waterMl: real,
    activityFeed: seq<ActivityItem>,
    activeTab: string,
    showFoodModal: bool,
    showWaterModal: bool,
    showWorkoutModal: bool,
    showPhotoModal: bool)

  const InitialState: StoreState := StoreState(
    None, true, false, None, [], [], [], 0.0, [], "home", false, false, false, false)

  /** The fields written to local storage. */
  datatype PersistedState = PersistedState(activeTab: string, isOnboarded: bool)

  function Partialize(s: StoreState): (p: PersistedState)
    ensures p.activeTab == s.activeTab && p.isOnboarded == s.isOnboarded
  {
    PersistedState(s.activeTab, s.isOnboarded)
  }

  /** Two states persist identically exactly when they agree on the tab and the onboarding flag. */
  lemma PartializeKeepsOnlyTwoFields(s: StoreState, t: StoreState)
    ensures Partialize(s) == Partialize(t) <==> s.activeTab == t.activeTab && s.isOnboarded == t.isOnboarded
  {
  }

  /** The initial state: nothing loaded, loading in progress, no modal open, the home tab. */
  lemma InitialStateFacts()
    ensures InitialState.user.None? && InitialState.todayLog.None?
    ensures InitialState.foodLogs == [] && InitialState.workoutLogs == []
    ensures InitialState.workoutExercises == [] && InitialState.activityFeed == []
    ensures InitialState.waterMl == 0.0 && InitialState.isLoading && !InitialState.isOnboarded
    ensures !InitialState.showFoodModal && !InitialState.showWaterModal
    ensures !InitialState.showWorkoutModal && !InitialState.showPhotoModal
    ensures Partialize(InitialState) == PersistedState("home", false)
  {
  }

  class AppStore {
    var user: Option<UserProfile>
    var isLoading: bool
    var isOnboarded: bool
    var todayLog: Option<DailyLog>
    var foodLogs: seq<FoodLog>
    var workoutLogs: seq<WorkoutLog>
    var workoutExercises: seq<WorkoutExercise>
    var waterMl: real
    var activityFeed: seq<ActivityItem>
    var activeTab: string
    var showFoodModal: bool
    var showWaterModal: bool
    var showWorkoutModal: bool
    var showPhotoModal: bool

    function State(): StoreState
      reads this
    {
      StoreState(user, isLoading, isOnboarded, todayLog, foodLogs, workoutLogs, workoutExercises,
                 waterMl, activityFeed, activeTab, showFoodModal, showWaterModal, showWorkoutModal,
                 showPhotoModal)
    }

    /** The store is created from `initialState`. */
    constructor ()
      ensures State() == InitialState
    {
      user, isLoading, isOnboarded, todayLog := None, true, false, None;
      foodLogs, workoutLogs, workoutExercises := [], [], [];
      waterMl, activityFeed, activeTab := 0.0, [], "home";
      showFoodModal, showWaterModal, showWorkoutModal, showPhotoModal := false, false, false, false;
    }

    method SetUser(u: Option<UserProfile>)
      modifies this
      ensures State() == old(State()).(user := u)
    {
      user := u;
    }

    method SetLoading(loading: bool)
      modifies this
      ensures State() == old(State()).(isLoading := loading)
    {
      isLoading := loading;
    }

    method SetOnboarded(onboarded: bool)
      modifies this
      ensures State() == old(State()).(isOnboarded := onboarded)
    {
      isOnboarded := onboarded;
    }

    method SetTodayLog(log: Option<DailyLog>)
      modifies this
      ensures State() == old(State()).(todayLog := log)
    {
      todayLog := log;
    }

    method SetFoodLogs(logs: seq<FoodLog>)
      modifies this
      ensures State() == old(State()).(foodLogs := logs)
    {
      foodLogs := logs;
    }

    /** Appends: one more log, the old ones first and unchanged. */
    method AddFoodLog(log: FoodLog)
      modifies this
      ensures State() == old(State()).(foodLogs := old(foodLogs) + [log])
      ensures |foodLogs| == |old(foodLogs)| + 1 && foodLogs[..|old(foodLogs)|] == old(foodLogs)
      ensures foodLogs[|foodLogs| - 1] == log
    {
      foodLogs := foodLogs + [log];
    }

    method SetWorkoutLogs(logs: seq<WorkoutLog>)
      modifies this
      ensures State() == old(State()).(workoutLogs := logs)
    {
      workoutLogs := logs;
    }

    /** Appends, like `AddFoodLog`. */
    method AddWorkoutLog(log: WorkoutLog)
      modifies this
      ensures State() == old(State()).(workoutLogs := old(workoutLogs) + [log])
      ensures |workoutLogs| == |old(workoutLogs)| + 1 && workoutLogs[..|old(workoutLogs)|] == old(workoutLogs)
      ensures workoutLogs[|workoutLogs| - 1] == log
    {
      workoutLogs := workoutLogs + [log];
    }

    method SetWorkoutExercises(exercises: seq<WorkoutExercise>)
      modifies this
      ensures State() == old(State()).(workoutExercises := exercises)
    {
      workoutExercises := exercises;
    }

    method SetWaterMl(ml: real)
      modifies this
      ensures State() == old(State()).(waterMl := ml)
    {
      waterMl := ml;
    }

    method AddWater(ml: real)
      modifies this
      ensures State() == old(State()).(waterMl := old(waterMl) + ml)
    {
      waterMl := waterMl + ml;
    }

    method SetActivityFeed(feed: seq<ActivityItem>)
      modifies this
      ensures State() == old(State()).(activityFeed := feed)
    {
      activityFeed := feed;
    }

    /** Prepends: the newest item first, the old feed after it unchanged. */
    method AddActivity(item: ActivityItem)
      modifies this
      ensures State() == old(State()).(activityFeed := [item] + old(activityFeed))
      ensures activityFeed[0] == item && activityFeed[1..] == old(activityFeed)
    {
      activityFeed := [item] + activityFeed;
    }

    method SetActiveTab(tab: string)
      modifies this
      ensures State() == old(State()).(activeTab := tab)
    {
      activeTab := tab;
    }

    method SetShowFoodModal(show: bool)
      modifies this
      ensures State() == old(State()).(showFoodModal := show)
    {
      showFoodModal := show;
    }

    method SetShowWaterModal(show: bool)
      modifies this
      ensures State() == old(State()).(showWaterModal := show)
    {
      showWaterModal := show;
    }

    method SetShowWorkoutModal(show: bool)
      modifies this
      ensures State() == old(State()).(showWorkoutModal := show)
    {
      showWorkoutModal := show;
    }

    method SetShowPhotoModal(show: bool)
      modifies this
      ensures State() == old(State()).(showPhotoModal := show)
    {
      showPhotoModal := show;
    }

    /** Every field back to `initialState`, written here as one setter per field. */
    method Reset()
      modifies this
      ensures State() == InitialState
    {
      SetUser(None); SetLoading(true); SetOnboarded(false); SetTodayLog(None);
      SetFoodLogs([]); SetWorkoutLogs([]); SetWorkoutExercises([]); SetWaterMl(0.0);
      SetActivityFeed([]); SetActiveTab("home"); SetShowFoodModal(false);
      SetShowWaterModal(false); SetShowWorkoutModal(false); SetShowPhotoModal(false);
    }

    /** What would be written to local storage now. */
    function Persisted(): (p: PersistedState)
      reads this
      ensures p == Partialize(State())
    {
      PersistedState(activeTab, isOnboarded)
    }
  }
}
