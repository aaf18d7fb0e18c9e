/** Weekly workout splits: the preset table, weekday naming and the display of one day. */
module Splits {
  import opened JsMath

  const RestDay: string := "Rest Day"

  datatype Day = Monday | Tuesday | Wednesday | Thursday | Friday | Saturday | Sunday

  /** The body parts trained on each day of the week. */
  datatype WorkoutSplit = WorkoutSplit(
    monday: seq<string>, tuesday: seq<string>, wednesday: seq<string>, thursday: seq<string>,
    friday: seq<string>, saturday: seq<string>, sunday: seq<string>)
  {
    /** `split[day]` */
    function Get(day: Day): seq<string> {
      match day
      case Monday => monday
      case Tuesday => tuesday
      case Wednesday => wednesday
      case Thursday => thursday
      case Friday => friday
      case Saturday => saturday
      case Sunday => sunday
    }

    /** `{ ...split, [day]: parts }` */
    function With(day: Day, parts: seq<string>): (r: WorkoutSplit)
      ensures r.Get(day) == parts
      ensures forall d :: d != day ==> r.Get(d) == Get(d)
    {
      match day
      case Monday => this.(monday := parts)
      case Tuesday => this.(tuesday := parts)
      case Wednesday => this.(wednesday := parts)
      case Thursday => this.(thursday := parts)
      case Friday => this.(friday := parts)
      case Saturday => this.(saturday := parts)
      case Sunday => this.(sunday := parts)
    }
  }

  datatype SplitPreset = SplitPreset(name: string, layout: WorkoutSplit)

  const Push: seq<string> := ["Chest", "Shoulders", "Triceps"]
  const Pull: seq<string> := ["Back", "Biceps", "Forearms"]
  const Legs: seq<string> := ["Quads", "Hamstrings", "Glutes", "Calves"]
  const Upper: seq<string> := ["Chest", "Back", "Shoulders", "Biceps", "Triceps"]
  const Rest: seq<string> := [RestDay]

  const SplitPresets: seq<SplitPreset> := [
    SplitPreset("Push/Pull/Legs (2x)", WorkoutSplit(Push, Pull, Legs, Push, Pull, Legs, Rest)),
    SplitPreset("Push/Pull/Legs (1x)", WorkoutSplit(Push, Pull, Legs, Rest, Rest, Rest, Rest)),
    SplitPreset("Bro Split", WorkoutSplit(["Chest"], ["Back"], ["Shoulders"], ["Biceps", "Triceps"], Legs, Rest, Rest)),
    SplitPreset("Upper/Lower (2x)", WorkoutSplit(Upper, Legs, Rest, Upper, Legs, Rest, Rest)),
    SplitPreset("Arnold Split", WorkoutSplit(["Chest", "Back"], ["Shoulders", "Biceps", "Triceps"], Legs,
                                             ["Chest", "Back"], ["Shoulders", "Biceps", "Triceps"], Legs, Rest)),
    SplitPreset("Full Body (3x)", WorkoutSplit(["Full Body"], Rest, ["Full Body"], Rest, ["Full Body"], Rest, Rest)),
    SplitPreset("PHUL", WorkoutSplit(Upper, Legs, Rest, Upper, Legs, Rest, Rest)),
    SplitPreset("5-Day Split", WorkoutSplit(["Chest"], ["Back"], ["Shoulders"], ["Biceps", "Triceps"], Legs, Rest, Rest)),
    SplitPreset("Chest/Back Focus", WorkoutSplit(["Chest", "Triceps"], ["Back", "Biceps"], Legs,
                                                 ["Chest", "Shoulders"], ["Back", "Biceps", "Triceps"], Rest, Rest)),
    SplitPreset("Hybrid Athlete", WorkoutSplit(Upper, Legs, ["Cardio"], Upper, Legs, ["Cardio"], Rest))
  ]

  /** A day is well formed when it is non-empty and, if it is a rest day, nothing but that. */
  predicate WellFormedDay(parts: seq<string>) {
    |parts| > 0 && (RestDay in parts ==> parts == [RestDay])
  }

  predicate WellFormedSplit(s: WorkoutSplit) {
    forall d: Day :: WellFormedDay(s.Get(d))
  }

  lemma WellFormedByDays(s: WorkoutSplit)
    requires WellFormedDay(s.monday) && WellFormedDay(s.tuesday) && WellFormedDay(s.wednesday)
    requires WellFormedDay(s.thursday) && WellFormedDay(s.friday) && WellFormedDay(s.saturday)
    requires WellFormedDay(s.sunday)
    ensures WellFormedSplit(s)
  {
    forall d: Day ensures WellFormedDay(s.Get(d)) {
      match d
      case Monday =>
      case Tuesday =>
      case Wednesday =>
      case Thursday =>
      case Friday =>
      case Saturday =>
      case Sunday =>
    }
  }

  /** Every preset fills all seven days, and every rest day is exactly `["Rest Day"]`. */
  lemma PresetsWellFormed()
    ensures |SplitPresets| == 10
    ensures forall i :: 0 <= i < |SplitPresets| ==> WellFormedSplit(SplitPresets[i].layout)
  {
    assert WellFormedDay(Push) && WellFormedDay(Pull) && WellFormedDay(Legs);
    assert WellFormedDay(Upper) && WellFormedDay(Rest);
    forall i | 0 <= i < |SplitPresets| ensures WellFormedSplit(SplitPresets[i].layout) {
      WellFormedByDays(SplitPresets[i].layout);
    }
  }

  // ---------------------------------------------------------------- day indices

  /** The position of a day in the Monday-first week. */
  function DayIndex(d: Day): (r: int)
    ensures 0 <= r < 7
  {
    match d
    case Monday => 0
    case Tuesday => 1
    case Wednesday => 2
    case Thursday => 3
    case Friday => 4
    case Saturday => 5
    case Sunday => 6
  }

  /** `getDayName`: indexing the Monday-first list of day names; out of range gives `undefined`. */
  function GetDayName(dayIndex: int): (r: Option<Day>)
    ensures r.Some? <==> 0 <= dayIndex < 7
    ensures r.Some? ==> DayIndex(r.value) == dayIndex
  {
    var days := [Monday, Tuesday, Wednesday, Thursday, Friday, Saturday, Sunday];
    if 0 <= dayIndex < |days| then Some(days[dayIndex]) else None
  }

  /** Naming a day's index gives the day back, so the seven names are distinct. */
  lemma DayNameRoundTrip(d: Day)
    ensures GetDayName(DayIndex(d)) == Some(d)
  {
  }

  /** `Date.getDay()` counts from Sunday = 0; the split counts from Monday = 0. */
  function AdjustWeekday(jsDay: int): (r: int)
    requires 0 <= jsDay <= 6
    ensures 0 <= r <= 6
    ensures jsDay == 0 ==> r == 6
    ensures jsDay > 0 ==> r == jsDay - 1
  {
    if jsDay == 0 then 6 else jsDay - 1
  }

  /** The `getDay()` value of the day at Monday-first index `i`. */
  function JsWeekdayOf(i: int): int {
    (i + 1) % 7
  }

  /** The adjustment is a bijection on 0..6, undone by `JsWeekdayOf`. */
  lemma AdjustWeekdayBijective()
    ensures forall a, b :: 0 <= a <= 6 && 0 <= b <= 6 && AdjustWeekday(a) == AdjustWeekday(b) ==> a == b
    ensures forall i :: 0 <= i <= 6 ==> 0 <= JsWeekdayOf(i) <= 6 && AdjustWeekday(JsWeekdayOf(i)) == i
    ensures forall j :: 0 <= j <= 6 ==> JsWeekdayOf(AdjustWeekday(j)) == j
  {
  }

  /** `getTodaySplit`, with today's `getDay()` as a parameter. */
  function GetTodaySplit(split: WorkoutSplit, jsWeekday: int): (r: seq<string>)
    requires 0 <= jsWeekday <= 6
    ensures jsWeekday == 0 ==> r == split.sunday
    ensures jsWeekday == 1 ==> r == split.monday
    ensures jsWeekday == 6 ==> r == split.saturday
    ensures exists d :: DayIndex(d) == AdjustWeekday(jsWeekday) && r == split.Get(d)
  {
    var dayName := GetDayName(AdjustWeekday(jsWeekday));
    split.Get(dayName.value)
  }

  // ---------------------------------------------------------------- display

  /** `parts.join(sep)` */
  function Join(parts: seq<string>, sep: string): string {
    if |parts| == 0 then ""
    else if |parts| == 1 then parts[0]
    else parts[0] + sep + Join(parts[1..], sep)
  }

  /** Joining two or more parts puts a copy of the separator right after the first part. */
  lemma {:induction false} JoinHasSeparator(parts: seq<string>, sep: string)
    requires |parts| >= 2
    ensures |Join(parts, sep)| >= |parts[0]| + |sep|
    ensures Join(parts, sep)[|parts[0]|..|parts[0]| + |sep|] == sep
  {
    var rest := Join(parts[1..], sep);
    assert Join(parts, sep) == parts[0] + sep + rest;
    assert (parts[0] + sep + rest)[|parts[0]|..|parts[0]| + |sep|] == sep;
  }

  function FormatSplitDay(parts: seq<string>): (r: string)
    ensures |parts| == 0 || RestDay in parts ==> r == RestDay
    ensures |parts| > 0 && RestDay !in parts ==> r == Join(parts, " + ")
  {
    if |parts| == 0 then RestDay
    else if RestDay in parts then RestDay
    else Join(parts, " + ")
  }

  lemma FormatSingle(x: string)
    requires x != RestDay
    ensures FormatSplitDay([x]) == x
  {
  }

  /** The display reads "Rest Day" exactly when the day is empty or holds a rest entry:
      a join of two or more parts contains " + ", which "Rest Day" does not. */
  lemma FormatShowsRest(parts: seq<string>)
    ensures FormatSplitDay(parts) == RestDay <==> |parts| == 0 || RestDay in parts
  {
    if |parts| >= 2 && RestDay !in parts {
      JoinHasSeparator(parts, " + ");
      var j := Join(parts, " + ");
      var k := |parts[0]|;
      assert j[k + 1] == " + "[1] == '+';
      assert '+' in j;
      assert '+' !in RestDay;
    } else if |parts| == 1 && RestDay !in parts {
      assert parts[0] != RestDay;
    }
  }
}
