/** The workout log editor: a draft list of exercises, each with its sets, edited by
    appending, filtering and mapping; the summary totals; and the rows saved per exercise. */
module WorkoutLog {
  import opened JsMath

  datatype SetType = Warmup | Working | Dropset | Failure

  /** A set as typed: reps and weight are the raw text of their inputs. */
  datatype LocalSet = LocalSet(id: string, reps: string, weight: string, setType: SetType)

  datatype LocalExercise = LocalExercise(id: string, name: string, bodyPart: string,
                                         sets: seq<LocalSet>, notes: string)

  /** An entry of the exercise catalogue. */
  datatype ExerciseInfo = ExerciseInfo(name: string, bodyPart: string)

  /** The blank set every new exercise and every "add set" starts with. */
  function BlankSet(id: string): (s: LocalSet)
    ensures s.id == id && s.reps == "" && s.weight == "" && s.setType == Working
  {
    LocalSet(id, "", "", Working)
  }

  function NewExercise(info: ExerciseInfo, id: string, setId: string): (e: LocalExercise)
    ensures e.id == id && e.name == info.name && e.bodyPart == info.bodyPart && e.notes == ""
    ensures e.sets == [BlankSet(setId)]
  {
    LocalExercise(id, info.name, info.bodyPart, [BlankSet(setId)], "")
  }

  // ---------------------------------------------------------------- filters

  /** `exercises.filter(e => e.id !== id)` */
  function WithoutExercise(es: seq<LocalExercise>, id: string): (r: seq<LocalExercise>)
    ensures |r| <= |es|
    ensures forall e :: e in r <==> e in es && e.id != id
  {
    if |es| == 0 then []
    else if es[0].id == id then WithoutExercise(es[1..], id)
    else [es[0]] + WithoutExercise(es[1..], id)
  }

  /** Filtering keeps the survivors in their order: it distributes over concatenation. */
  lemma {:induction false} WithoutExerciseAppend(a: seq<LocalExercise>, b: seq<LocalExercise>, id: string)
    ensures WithoutExercise(a + b, id) == WithoutExercise(a, id) + WithoutExercise(b, id)
  {
    if |a| == 0 {
      assert a + b == b;
    } else {
      assert (a + b)[1..] == a[1..] + b;
      WithoutExerciseAppend(a[1..], b, id);
    }
  }

  /** Removing an id nobody carries changes nothing. */
  lemma {:induction false} WithoutAbsentExercise(es: seq<LocalExercise>, id: string)
    requires forall i :: 0 <= i < |es| ==> es[i].id != id
    ensures WithoutExercise(es, id) == es
  {
    if |es| > 0 {
      WithoutAbsentExercise(es[1..], id);
      assert es == [es[0]] + es[1..];
    }
  }

  /** `sets.filter(s => s.id !== id)` */
  function WithoutSet(sets: seq<LocalSet>, id: string): (r: seq<LocalSet>)
    ensures |r| <= |sets|
    ensures forall s :: s in r <==> s in sets && s.id != id
  {
    if |sets| == 0 then []
    else if sets[0].id == id then WithoutSet(sets[1..], id)
    else [sets[0]] + WithoutSet(sets[1..], id)
  }

  lemma {:induction false} WithoutSetAppend(a: seq<LocalSet>, b: seq<LocalSet>, id: string)
    ensures WithoutSet(a + b, id) == WithoutSet(a, id) + WithoutSet(b, id)
  {
    if |a| == 0 {
      assert a + b == b;
    } else {
      assert (a + b)[1..] == a[1..] + b;
      WithoutSetAppend(a[1..], b, id);
    }
  }

  lemma {:induction false} WithoutAbsentSet(sets: seq<LocalSet>, id: string)
    requires forall i :: 0 <= i < |sets| ==> sets[i].id != id
    ensures WithoutSet(sets, id) == sets
  {
    if |sets| > 0 {
      WithoutAbsentSet(sets[1..], id);
      assert sets == [sets[0]] + sets[1..];
    }
  }

  // ---------------------------------------------------------------- edits of one exercise

  /** The field an input writes: `{ ...s, [field]: value }`. */
  datatype SetEdit = EditReps(text: string) | EditWeight(text: string) | EditType(setType: SetType)

  function ApplySetEdit(s: LocalSet, edit: SetEdit): (r: LocalSet)
    ensures r.id == s.id
    ensures edit.EditReps? ==> r == s.(reps := edit.text)
    ensures edit.EditWeight? ==> r == s.(weight := edit.text)
    ensures edit.EditType? ==> r == s.(setType := edit.setType)
  {
    match edit
    case EditReps(t) => LocalSet(s.id, t, s.weight, s.setType)
    case EditWeight(t) => LocalSet(s.id, s.reps, t, s.setType)
    case EditType(k) => LocalSet(s.id, s.reps, s.weight, k)
  }

  /** `sets.map(s => s.id === id ? edited : s)` */
  function UpdateSets(sets: seq<LocalSet>, id: string, edit: SetEdit): (r: seq<LocalSet>)
    ensures |r| == |sets|
    ensures forall i :: 0 <= i < |sets| && sets[i].id != id ==> r[i] == sets[i]
    ensures forall i :: 0 <= i < |sets| && sets[i].id == id ==> r[i] == ApplySetEdit(sets[i], edit)
  {
    if |sets| == 0 then []
    else [if sets[0].id == id then ApplySetEdit(sets[0], edit) else sets[0]]
         + UpdateSets(sets[1..], id, edit)
  }

  /** The three per-exercise edits of the editor. */
  datatype ExerciseEdit = AppendSet(newSetId: string) | DropSet(setId: string) | EditSet(setId: string, edit: SetEdit)

  function ApplyExerciseEdit(e: LocalExercise, edit: ExerciseEdit): (r: LocalExercise)
    ensures r.id == e.id && r.name == e.name && r.bodyPart == e.bodyPart && r.notes == e.notes
    ensures edit.AppendSet? ==> r.sets == e.sets + [BlankSet(edit.newSetId)]
    ensures edit.DropSet? ==> r.sets == WithoutSet(e.sets, edit.setId)
    ensures edit.EditSet? ==> r.sets == UpdateSets(e.sets, edit.setId, edit.edit)
  {
    match edit
    case AppendSet(sid) => e.(sets := e.sets + [BlankSet(sid)])
    case DropSet(sid) => e.(sets := WithoutSet(e.sets, sid))
    case EditSet(sid, se) => e.(sets := UpdateSets(e.sets, sid, se))
  }

  /** `exercises.map(e => e.id === exerciseId ? edited : e)` */
  function EditMatching(es: seq<LocalExercise>, exerciseId: string, edit: ExerciseEdit): (r: seq<LocalExercise>)
    ensures |r| == |es|
    ensures forall i :: 0 <= i < |es| && es[i].id != exerciseId ==> r[i] == es[i]
    ensures forall i :: 0 <= i < |es| && es[i].id == exerciseId ==> r[i] == ApplyExerciseEdit(es[i], edit)
  {
    if |es| == 0 then []
    else [if es[0].id == exerciseId then ApplyExerciseEdit(es[0], edit) else es[0]]
         + EditMatching(es[1..], exerciseId, edit)
  }

  /** Adding a set with a fresh id and then removing that id restores the draft. */
  lemma AddThenRemoveSet(es: seq<LocalExercise>, exerciseId: string, setId: string)
    requires forall i, j :: 0 <= i < |es| && es[i].id == exerciseId && 0 <= j < |es[i].sets| ==> es[i].sets[j].id != setId
    ensures EditMatching(EditMatching(es, exerciseId, AppendSet(setId)), exerciseId, DropSet(setId)) == es
  {
    var once := EditMatching(es, exerciseId, AppendSet(setId));
    var twice := EditMatching(once, exerciseId, DropSet(setId));
    forall i | 0 <= i < |es| ensures twice[i] == es[i] {
      if es[i].id == exerciseId {
        var sets := es[i].sets;
        WithoutSetAppend(sets, [BlankSet(setId)], setId);
        WithoutAbsentSet(sets, setId);
        assert WithoutSet([BlankSet(setId)], setId) == [];
        assert twice[i].sets == sets;
      }
    }
  }

  /** Adding an exercise with a fresh id and then removing it restores the draft. */
  lemma AddThenRemoveExercise(es: seq<LocalExercise>, info: ExerciseInfo, id: string, setId: string)
    requires forall i :: 0 <= i < |es| ==> es[i].id != id
    ensures WithoutExercise(es + [NewExercise(info, id, setId)], id) == es
  {
    WithoutExerciseAppend(es, [NewExercise(info, id, setId)], id);
    WithoutAbsentExercise(es, id);
    assert WithoutExercise([NewExercise(info, id, setId)], id) == [];
  }

  // ---------------------------------------------------------------- the draft

  /** The editor's `exercises` state. */
  class Draft {
    var exercises: seq<LocalExercise>

    constructor ()
      ensures exercises == []
    {
      exercises := [];
    }

    /** `addExercise`: one new exercise at the end, holding exactly one blank working set. */
    method AddExercise(info: ExerciseInfo, id: string, setId: string)
      modifies this
      ensures exercises == old(exercises) + [NewExercise(info, id, setId)]
      ensures |exercises| == |old(exercises)| + 1 && exercises[..|old(exercises)|] == old(exercises)
    {
      exercises := exercises + [NewExercise(info, id, setId)];
    }

    /** `removeExercise` */
    method RemoveExercise(id: string)
      modifies this
      ensures exercises == WithoutExercise(old(exercises), id)
    {
      exercises := WithoutExercise(exercises, id);
    }

    /** `addSet`: a blank working set at the end of the matching exercise only. */
    method AddSet(exerciseId: string, setId: string)
      modifies this
      ensures exercises == EditMatching(old(exercises), exerciseId, AppendSet(setId))
    {
      exercises := EditMatching(exercises, exerciseId, AppendSet(setId));
    }

    /** `removeSet` */
    method RemoveSet(exerciseId: string, setId: string)
      modifies this
      ensures exercises == EditMatching(old(exercises), exerciseId, DropSet(setId))
    {
      exercises := EditMatching(exercises, exerciseId, DropSet(setId));
    }

    /** `updateSet` */
    method UpdateSet(exerciseId: string, setId: string, edit: SetEdit)
      modifies this
      ensures exercises == EditMatching(old(exercises), exerciseId, EditSet(setId, edit))
    {
      exercises := EditMatching(exercises, exerciseId, EditSet(setId, edit));
    }

    /** A successful AI parse replaces the draft with the parsed exercises for review. */
    method LoadParsed(parsed: seq<LocalExercise>)
      modifies this
      ensures exercises == parsed
    {
      exercises := parsed;
    }
  }

  // ---------------------------------------------------------------- summary

  /** `exercises.reduce((acc, e) => acc + e.sets.length, 0)`: every exercise's sets are counted,
      and the count is 0 exactly when no exercise has a set. */
  function TotalSets(es: seq<LocalExercise>): (n: nat)
    ensures forall i :: 0 <= i < |es| ==> |es[i].sets| <= n
    ensures n == 0 <==> forall i :: 0 <= i < |es| ==> |es[i].sets| == 0
  {
    if |es| == 0 then 0
    else
      var init := es[..|es| - 1];
      assert forall i :: 0 <= i < |init| ==> init[i] == es[i];
      TotalSets(init) + |es[|es| - 1].sets|
  }

  lemma {:induction false} TotalSetsAppend(a: seq<LocalExercise>, b: seq<LocalExercise>)
    ensures TotalSets(a + b) == TotalSets(a) + TotalSets(b)
    decreases |b|
  {
    if |b| == 0 {
      assert a + b == a;
    } else {
      var c := a + b;
      var init, last := b[..|b| - 1], b[|b| - 1];
      assert c[..|c| - 1] == a + init;
      assert c[|c| - 1] == last;
      TotalSetsAppend(a, init);
      calc {
        TotalSets(c);
        TotalSets(a + init) + |last.sets|;
        TotalSets(a) + TotalSets(init) + |last.sets|;
        TotalSets(a) + TotalSets(b);
      }
    }
  }

  /** One exercise contributes exactly its number of sets. */
  lemma TotalSetsOne(e: LocalExercise)
    ensures TotalSets([e]) == |e.sets|
  {
    assert [e][..0] == [];
  }

  /** How many exercises carry the id. */
  function CountId(es: seq<LocalExercise>, id: string): nat {
    if |es| == 0 then 0 else CountId(es[..|es| - 1], id) + (if es[|es| - 1].id == id then 1 else 0)
  }

  /** A new exercise adds one set; adding a set adds one per exercise with that id;
      editing a field keeps the count. */
  lemma TotalSetsAddExercise(es: seq<LocalExercise>, info: ExerciseInfo, id: string, setId: string)
    ensures TotalSets(es + [NewExercise(info, id, setId)]) == TotalSets(es) + 1
  {
    assert (es + [NewExercise(info, id, setId)])[..|es|] == es;
  }

  lemma {:induction false} TotalSetsAddSet(es: seq<LocalExercise>, exerciseId: string, setId: string)
    ensures TotalSets(EditMatching(es, exerciseId, AppendSet(setId))) == TotalSets(es) + CountId(es, exerciseId)
  {
    if |es| > 0 {
      var n := |es| - 1;
      var r := EditMatching(es, exerciseId, AppendSet(setId));
      var rp := EditMatching(es[..n], exerciseId, AppendSet(setId));
      assert r[..n] == rp;
      TotalSetsAddSet(es[..n], exerciseId, setId);
    }
  }

  lemma {:induction false} TotalSetsEditSet(es: seq<LocalExercise>, exerciseId: string, setId: string, edit: SetEdit)
    ensures TotalSets(EditMatching(es, exerciseId, EditSet(setId, edit))) == TotalSets(es)
  {
    if |es| > 0 {
      var n := |es| - 1;
      var r := EditMatching(es, exerciseId, EditSet(setId, edit));
      assert r[..n] == EditMatching(es[..n], exerciseId, EditSet(setId, edit));
      TotalSetsEditSet(es[..n], exerciseId, setId, edit);
    }
  }

  /** `parseInt(x) || 0`: a NaN or zero parse counts as 0. */
  function IntOrZero(v: Option<int>): (r: int)
    ensures v.None? ==> r == 0
    ensures v.Some? ==> r == v.value
  {
    if v.None? || v.value == 0 then 0 else v.value
  }

  /** One set's volume: `(parseFloat(weight) || 0) * (parseInt(reps) || 0)`; the parsers are
      parameters. */
  function SetVolume(s: LocalSet, parseInt: string -> Option<int>, parseFloat: string -> Option<real>): real {
    OrDefault(parseFloat(s.weight), 0.0) * IntOrZero(parseInt(s.reps)) as real
  }

  /** The inner `reduce` over one exercise's sets; non-negative sets give a non-negative volume. */
  function SetsVolume(sets: seq<LocalSet>, parseInt: string -> Option<int>, parseFloat: string -> Option<real>): (v: real)
    ensures |sets| == 0 ==> v == 0.0
    ensures (forall j :: 0 <= j < |sets| ==> NonNegativeSet(sets[j], parseInt, parseFloat)) ==> v >= 0.0
  {
    if |sets| == 0 then 0.0
    else
      var init := sets[..|sets| - 1];
      var last := sets[|sets| - 1];
      assert forall j :: 0 <= j < |init| ==> init[j] == sets[j];
      var w := OrDefault(parseFloat(last.weight), 0.0);
      var n := IntOrZero(parseInt(last.reps)) as real;
      if w >= 0.0 && n >= 0.0 then
        MulNonNegative(w, n);
        SetsVolume(init, parseInt, parseFloat) + SetVolume(last, parseInt, parseFloat)
      else
        SetsVolume(init, parseInt, parseFloat) + SetVolume(last, parseInt, parseFloat)
  }

  /** `exercises.reduce(...)` of the set volumes: weight times reps, summed over every set of
      every exercise; non-negative sets give a non-negative total. */
  function TotalVolume(es: seq<LocalExercise>, parseInt: string -> Option<int>, parseFloat: string -> Option<real>): (v: real)
    ensures |es| == 0 ==> v == 0.0
    ensures AllSetsNonNegative(es, parseInt, parseFloat) ==> v >= 0.0
  {
    if |es| == 0 then 0.0
    else
      var init := es[..|es| - 1];
      assert AllSetsNonNegative(es, parseInt, parseFloat) ==> AllSetsNonNegative(init, parseInt, parseFloat) by {
        assert forall i :: 0 <= i < |init| ==> init[i] == es[i];
      }
      TotalVolume(init, parseInt, parseFloat) + SetsVolume(es[|es| - 1].sets, parseInt, parseFloat)
  }

  /** Every set of every exercise is non-negative. */
  predicate AllSetsNonNegative(es: seq<LocalExercise>, pi: string -> Option<int>, pf: string -> Option<real>) {
    forall i, j :: 0 <= i < |es| && 0 <= j < |es[i].sets| ==> NonNegativeSet(es[i].sets[j], pi, pf)
  }

  lemma {:induction false} TotalVolumeAppend(a: seq<LocalExercise>, b: seq<LocalExercise>,
                                             pi: string -> Option<int>, pf: string -> Option<real>)
    ensures TotalVolume(a + b, pi, pf) == TotalVolume(a, pi, pf) + TotalVolume(b, pi, pf)
    decreases |b|
  {
    if |b| == 0 {
      assert a + b == a;
    } else {
      var c := a + b;
      var init, last := b[..|b| - 1], b[|b| - 1];
      assert c[..|c| - 1] == a + init;
      assert c[|c| - 1] == last;
      TotalVolumeAppend(a, init, pi, pf);
      calc {
        TotalVolume(c, pi, pf);
        TotalVolume(a + init, pi, pf) + SetsVolume(last.sets, pi, pf);
        TotalVolume(a, pi, pf) + TotalVolume(init, pi, pf) + SetsVolume(last.sets, pi, pf);
        TotalVolume(a, pi, pf) + TotalVolume(b, pi, pf);
      }
    }
  }

  /** One exercise's volume is the volume of its sets. */
  lemma TotalVolumeOne(e: LocalExercise, pi: string -> Option<int>, pf: string -> Option<real>)
    ensures TotalVolume([e], pi, pf) == SetsVolume(e.sets, pi, pf)
  {
    assert [e][..0] == [];
  }

  /** One set's volume is its parsed weight times its parsed reps, 0 for what does not parse. */
  lemma SetsVolumeOne(s: LocalSet, pi: string -> Option<int>, pf: string -> Option<real>)
    ensures SetsVolume([s], pi, pf) == OrDefault(pf(s.weight), 0.0) * IntOrZero(pi(s.reps)) as real
  {
    assert [s][..0] == [];
  }

  /** The inner fold maps concatenation of set lists to addition. */
  lemma {:induction false} SetsVolumeAppend(a: seq<LocalSet>, b: seq<LocalSet>,
                                            pi: string -> Option<int>, pf: string -> Option<real>)
    ensures SetsVolume(a + b, pi, pf) == SetsVolume(a, pi, pf) + SetsVolume(b, pi, pf)
    decreases |b|
  {
    if |b| == 0 {
      assert a + b == a;
    } else {
      var c := a + b;
      var init, last := b[..|b| - 1], b[|b| - 1];
      assert c[..|c| - 1] == a + init;
      assert c[|c| - 1] == last;
      SetsVolumeAppend(a, init, pi, pf);
      calc {
        SetsVolume(c, pi, pf);
        SetsVolume(a + init, pi, pf) + SetVolume(last, pi, pf);
        SetsVolume(a, pi, pf) + SetsVolume(init, pi, pf) + SetVolume(last, pi, pf);
        SetsVolume(a, pi, pf) + SetsVolume(b, pi, pf);
      }
    }
  }

  /** A blank set weighs nothing, since empty text does not parse; so a new exercise leaves the
      volume where it was. */
  lemma VolumeAddExercise(es: seq<LocalExercise>, info: ExerciseInfo, id: string, setId: string,
                          pi: string -> Option<int>, pf: string -> Option<real>)
    requires pf("").None?
    ensures SetVolume(BlankSet(setId), pi, pf) == 0.0
    ensures TotalVolume(es + [NewExercise(info, id, setId)], pi, pf) == TotalVolume(es, pi, pf)
  {
    var e := NewExercise(info, id, setId);
    assert (es + [e])[..|es|] == es;
    assert e.sets[..0] == [];
    assert SetVolume(e.sets[0], pi, pf) == 0.0;
    assert SetsVolume(e.sets, pi, pf) == SetsVolume([], pi, pf) + SetVolume(e.sets[0], pi, pf);
  }

  /** A set whose parsed weight and reps are non-negative. */
  predicate NonNegativeSet(s: LocalSet, pi: string -> Option<int>, pf: string -> Option<real>) {
    OrDefault(pf(s.weight), 0.0) >= 0.0 && IntOrZero(pi(s.reps)) >= 0
  }

  lemma MulNonNegative(x: real, y: real)
    requires x >= 0.0 && y >= 0.0
    ensures x * y >= 0.0
  {
  }

  // ---------------------------------------------------------------- saving

  /** The row written per set. */
  datatype SetRow = SetRow(setNumber: int, reps: int, weight: real, weightUnit: string, setType: SetType)

  /** `user?.weight_unit || 'lbs'` */
  function SavedWeightUnit(userUnit: Option<string>): (r: string)
    ensures userUnit.None? || userUnit.value == "" ==> r == "lbs"
    ensures userUnit.Some? && userUnit.value != "" ==> r == userUnit.value
  {
    if userUnit.None? || userUnit.value == "" then "lbs" else userUnit.value
  }

  /** `ex.sets.map((s, j) => row)`: rows numbered from 1 in list order. */
  function SetsData(sets: seq<LocalSet>, userUnit: Option<string>,
                    pi: string -> Option<int>, pf: string -> Option<real>): (rows: seq<SetRow>)
    ensures |rows| == |sets|
    ensures forall j :: 0 <= j < |sets| ==>
      rows[j].setNumber == j + 1
      && rows[j].reps == IntOrZero(pi(sets[j].reps))
      && rows[j].weight == OrDefault(pf(sets[j].weight), 0.0)
      && rows[j].weightUnit == SavedWeightUnit(userUnit)
      && rows[j].setType == sets[j].setType
  {
    seq(|sets|, j requires 0 <= j < |sets| =>
      SetRow(j + 1, IntOrZero(pi(sets[j].reps)), OrDefault(pf(sets[j].weight), 0.0),
             SavedWeightUnit(userUnit), sets[j].setType))
  }

  /** Set numbers run from 1 to n, strictly increasing, so each of 1..n appears once;
      unparseable entries are saved as 0. */
  lemma SetsDataNumbering(sets: seq<LocalSet>, userUnit: Option<string>,
                          pi: string -> Option<int>, pf: string -> Option<real>)
    ensures var rows := SetsData(sets, userUnit, pi, pf);
            (|rows| > 0 ==> rows[0].setNumber == 1 && rows[|rows| - 1].setNumber == |sets|)
            && (forall j, k :: 0 <= j < k < |rows| ==> rows[j].setNumber < rows[k].setNumber)
            && (forall j :: 0 <= j < |rows| && pi(sets[j].reps).None? ==> rows[j].reps == 0)
            && (forall j :: 0 <= j < |rows| && pf(sets[j].weight).None? ==> rows[j].weight == 0.0)
  {
  }

  /** A set coming from the AI parse; `set_type || 'working'`. */
  function FromAiSet(id: string, repsText: string, weightText: string, setType: Option<SetType>): (s: LocalSet)
    ensures s.id == id && s.reps == repsText && s.weight == weightText
    ensures setType.None? ==> s.setType == Working
    ensures setType.Some? ==> s.setType == setType.value
  {
    LocalSet(id, repsText, weightText, setType.GetOr(Working))
  }
}
