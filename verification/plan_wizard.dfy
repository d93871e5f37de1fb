/**
 * The plan-creation wizard's draft: plan name and description, an ordered
 * list of days each holding an ordered list of exercises, and the active
 * step of the four-step wizard (0 info, 1 structure, 2 exercises, 3 review).
 * Every action replaces the fields through a pure list transform; the
 * temporary ids the browser draws with `crypto.randomUUID` are parameters.
 */
module PlanWizard {
  import opened JsSemantics

  /** The catalogue exercise a wizard exercise refers to; carried as an opaque value. */
  datatype Exercise = Exercise(id: string, name: string, description: string, muscleGroup: string)

  datatype WizardExercise = WizardExercise(
    id: string,
    exerciseId: string,
    name: string,
    exercise: Exercise,
    targetSets: int,
    targetReps: string,
    targetRir: Option<int>,
    restSeconds: Option<int>,
    customDescription: Option<string>,
    customVideoUrl: Option<string>,
    customImageUrl: Option<string>,
    coachNotes: Option<string>,
    order: int)

  datatype WizardDay = WizardDay(id: string, name: string, order: int, exercises: seq<WizardExercise>)

  datatype PlanInfo = PlanInfo(name: string, description: string)

  const EmptyPlanInfo: PlanInfo := PlanInfo("", "")

  // ---------------------------------------------------------------------
  // Object spread: `{ ...current, ...patch }`

  /** A patch field: absent, or present with the value it overrides with. */
  function Override<T>(current: T, patch: Option<T>): T
  {
    if patch.Some? then patch.value else current
  }

  /** The keys a `setPlanInfo` argument carries. */
  datatype PlanInfoPatch = PlanInfoPatch(name: Option<string>, description: Option<string>)

  /** `{ ...planInfo, ...info }`: a key the patch carries wins, a key it lacks keeps its value. */
  function MergePlanInfo(info: PlanInfo, patch: PlanInfoPatch): (r: PlanInfo)
    ensures r.name == if patch.name.Some? then patch.name.value else info.name
    ensures r.description == if patch.description.Some? then patch.description.value else info.description
  {
    PlanInfo(Override(info.name, patch.name), Override(info.description, patch.description))
  }

  /** A patch carrying both keys, as the wizard's info step passes, replaces the plan info. */
  lemma FullPlanInfoPatchReplaces(info: PlanInfo, name: string, description: string)
    ensures MergePlanInfo(info, PlanInfoPatch(Some(name), Some(description))) == PlanInfo(name, description)
  {
  }

  /**
   * A `Partial<WizardExercise>`: each key absent or present. The optional
   * fields of an exercise can be present with `undefined`, which clears them.
   */
  datatype ExercisePatch = ExercisePatch(
    id: Option<string>,
    exerciseId: Option<string>,
    name: Option<string>,
    exercise: Option<Exercise>,
    targetSets: Option<int>,
    targetReps: Option<string>,
    targetRir: Option<Option<int>>,
    restSeconds: Option<Option<int>>,
    customDescription: Option<Option<string>>,
    customVideoUrl: Option<Option<string>>,
    customImageUrl: Option<Option<string>>,
    coachNotes: Option<Option<string>>,
    order: Option<int>)

  const NoChange: ExercisePatch :=
    ExercisePatch(None, None, None, None, None, None, None, None, None, None, None, None, None)

  /**
   * `{ ...e, ...config }`: every key the config carries wins, every key it
   * lacks keeps the exercise's value; so an empty config changes nothing,
   * and a config without an `id` key keeps the exercise's temporary id.
   */
  function Merge(e: WizardExercise, p: ExercisePatch): (r: WizardExercise)
    ensures p == NoChange ==> r == e
    ensures r.id == if p.id.Some? then p.id.value else e.id
    ensures r.exerciseId == if p.exerciseId.Some? then p.exerciseId.value else e.exerciseId
    ensures r.name == if p.name.Some? then p.name.value else e.name
    ensures r.exercise == if p.exercise.Some? then p.exercise.value else e.exercise
    ensures r.targetSets == if p.targetSets.Some? then p.targetSets.value else e.targetSets
    ensures r.targetReps == if p.targetReps.Some? then p.targetReps.value else e.targetReps
    ensures r.targetRir == if p.targetRir.Some? then p.targetRir.value else e.targetRir
    ensures r.restSeconds == if p.restSeconds.Some? then p.restSeconds.value else e.restSeconds
    ensures r.customDescription == if p.customDescription.Some? then p.customDescription.value else e.customDescription
    ensures r.customVideoUrl == if p.customVideoUrl.Some? then p.customVideoUrl.value else e.customVideoUrl
    ensures r.customImageUrl == if p.customImageUrl.Some? then p.customImageUrl.value else e.customImageUrl
    ensures r.coachNotes == if p.coachNotes.Some? then p.coachNotes.value else e.coachNotes
    ensures r.order == if p.order.Some? then p.order.value else e.order
  {
    WizardExercise(
      Override(e.id, p.id),
      Override(e.exerciseId, p.exerciseId),
      Override(e.name, p.name),
      Override(e.exercise, p.exercise),
      Override(e.targetSets, p.targetSets),
      Override(e.targetReps, p.targetReps),
      Override(e.targetRir, p.targetRir),
      Override(e.restSeconds, p.restSeconds),
      Override(e.customDescription, p.customDescription),
      Override(e.customVideoUrl, p.customVideoUrl),
      Override(e.customImageUrl, p.customImageUrl),
      Override(e.coachNotes, p.coachNotes),
      Override(e.order, p.order))
  }

  /** The patch that spreading `p` and then `q` amounts to: `{ ...p, ...q }`. */
  function Then(p: ExercisePatch, q: ExercisePatch): ExercisePatch
  {
    ExercisePatch(
      if q.id.Some? then q.id else p.id,
      if q.exerciseId.Some? then q.exerciseId else p.exerciseId,
      if q.name.Some? then q.name else p.name,
      if q.exercise.Some? then q.exercise else p.exercise,
      if q.targetSets.Some? then q.targetSets else p.targetSets,
      if q.targetReps.Some? then q.targetReps else p.targetReps,
      if q.targetRir.Some? then q.targetRir else p.targetRir,
      if q.restSeconds.Some? then q.restSeconds else p.restSeconds,
      if q.customDescription.Some? then q.customDescription else p.customDescription,
      if q.customVideoUrl.Some? then q.customVideoUrl else p.customVideoUrl,
      if q.customImageUrl.Some? then q.customImageUrl else p.customImageUrl,
      if q.coachNotes.Some? then q.coachNotes else p.coachNotes,
      if q.order.Some? then q.order else p.order)
  }

  /** One patch applied twice is applied once. */
  lemma MergeIdempotent(e: WizardExercise, p: ExercisePatch)
    ensures Merge(Merge(e, p), p) == Merge(e, p)
  {
  }

  /** Two successive config updates equal one update with the combined patch. */
  lemma MergeThen(e: WizardExercise, p: ExercisePatch, q: ExercisePatch)
    ensures Merge(Merge(e, p), q) == Merge(e, Then(p, q))
  {
  }

  // ---------------------------------------------------------------------
  // Step navigation

  const LastStep: int := 3

  /** `Math.min(activeStep + 1, 3)`. */
  function Advance(step: int): (r: int)
    ensures r <= LastStep
    ensures step < LastStep ==> r == step + 1
    ensures step >= LastStep ==> r == LastStep
  {
    if step + 1 < LastStep then step + 1 else LastStep
  }

  /** `Math.max(activeStep - 1, 0)`. */
  function Retreat(step: int): (r: int)
    ensures r >= 0
    ensures step > 0 ==> r == step - 1
    ensures step <= 0 ==> r == 0
  {
    if step - 1 > 0 then step - 1 else 0
  }

  function Repeat(f: int -> int, n: nat, x: int): int
  {
    if n == 0 then x else f(Repeat(f, n - 1, x))
  }

  /** `n >= 1` presses of "next" from any step land on min(step + n, 3). */
  lemma {:induction false} AdvanceSaturates(step: int, n: nat)
    requires n >= 1
    ensures Repeat(Advance, n, step) == if step + n < LastStep then step + n else LastStep
  {
    if n > 1 {
      AdvanceSaturates(step, n - 1);
    }
  }

  /** `n >= 1` presses of "back" from any step land on max(step - n, 0). */
  lemma {:induction false} RetreatSaturates(step: int, n: nat)
    requires n >= 1
    ensures Repeat(Retreat, n, step) == if step - n > 0 then step - n else 0
  {
    if n > 1 {
      RetreatSaturates(step, n - 1);
    }
  }

  /** Next and back keep a step inside 0..3. */
  lemma NavigationStaysInRange(step: int)
    requires 0 <= step <= LastStep
    ensures 0 <= Advance(step) <= LastStep && 0 <= Retreat(step) <= LastStep
  {
  }

  // ---------------------------------------------------------------------
  // Sequences: `filter` and distinct ids

  /** `s.filter(keep)`. */
  function Filter<T(!new)>(keep: T -> bool, s: seq<T>): (r: seq<T>)
    ensures |r| <= |s|
  {
    if s == [] then []
    else (if keep(s[0]) then [s[0]] else []) + Filter(keep, s[1..])
  }

  /** When the callback accepts every element, the filter returns its input. */
  lemma {:induction false} FilterAllKept<T(!new)>(keep: T -> bool, s: seq<T>)
    ensures (forall i :: 0 <= i < |s| ==> keep(s[i])) ==> Filter(keep, s) == s
  {
    if s != [] && forall i :: 0 <= i < |s| ==> keep(s[i]) {
      FilterAllKept(keep, s[1..]);
      assert [s[0]] + s[1..] == s;
    }
  }

  /** The filter keeps exactly the elements the callback accepts. */
  lemma {:induction false} FilterMembers<T(!new)>(keep: T -> bool, s: seq<T>)
    ensures forall x :: x in Filter(keep, s) <==> x in s && keep(x)
  {
    if s != [] {
      FilterMembers(keep, s[1..]);
      assert s == [s[0]] + s[1..];
    }
  }

  /** Filtering works piecewise, so the kept elements stay in their original order. */
  lemma {:induction false} FilterConcat<T(!new)>(keep: T -> bool, a: seq<T>, b: seq<T>)
    ensures Filter(keep, a + b) == Filter(keep, a) + Filter(keep, b)
  {
    if a == [] {
      assert a + b == b;
    } else {
      var ab := a + b;
      var head := if keep(a[0]) then [a[0]] else [];
      assert ab[0] == a[0] && ab[1..] == a[1..] + b;
      FilterConcat(keep, a[1..], b);
      var fa, fb := Filter(keep, a[1..]), Filter(keep, b);
      assert Filter(keep, ab) == head + (fa + fb);
      assert Filter(keep, a) == head + fa;
      assert head + (fa + fb) == (head + fa) + fb;
    }
  }

  predicate DistinctBy<T(!new)>(key: T -> string, s: seq<T>)
  {
    forall i, j :: 0 <= i < j < |s| ==> key(s[i]) != key(s[j])
  }

  /** Filtering keeps distinct keys distinct. */
  lemma {:induction false} FilterKeepsDistinct<T(!new)>(keep: T -> bool, key: T -> string, s: seq<T>)
    requires DistinctBy(key, s)
    ensures DistinctBy(key, Filter(keep, s))
  {
    if s != [] {
      FilterKeepsDistinct(keep, key, s[1..]);
      FilterMembers(keep, s[1..]);
      var rest := Filter(keep, s[1..]);
      forall x | x in rest
        ensures key(x) != key(s[0])
      {
        var j :| 0 <= j < |s[1..]| && s[1..][j] == x;
        assert s[j + 1] == x;
      }
      if keep(s[0]) {
        var r := [s[0]] + rest;
        forall i, j | 0 <= i < j < |r|
          ensures key(r[i]) != key(r[j])
        {
          if i == 0 {
            assert r[j] in rest;
          } else {
            assert r[i] == rest[i - 1] && r[j] == rest[j - 1];
          }
        }
      } else {
        assert Filter(keep, s) == rest;
      }
    }
  }

  function DayId(d: WizardDay): string
  {
    d.id
  }

  function ExerciseId(e: WizardExercise): string
  {
    e.id
  }

  // ---------------------------------------------------------------------
  // Day transforms

  /** The default label of the n-th day: `Day ${n}`. */
  function DayName(n: nat): string
  {
    "Day " + NatToString(n)
  }

  /** `addDay`: one new empty day at the end, labelled and ordered by the new length. */
  function AppendDay(days: seq<WizardDay>, newId: string): (r: seq<WizardDay>)
    ensures |r| == |days| + 1 && r[..|days|] == days
    ensures r[|days|].id == newId && r[|days|].exercises == []
    ensures r[|days|].order == |r| && r[|days|].name == DayName(|r|)
  {
    days + [WizardDay(newId, DayName(|days| + 1), |days| + 1, [])]
  }

  /** A fresh id keeps day ids distinct. */
  lemma AppendDayKeepsIdsDistinct(days: seq<WizardDay>, newId: string)
    requires DistinctBy(DayId, days)
    requires forall i :: 0 <= i < |days| ==> days[i].id != newId
    ensures DistinctBy(DayId, AppendDay(days, newId))
  {
  }

  /** The filter callback `d => d.id !== dayId`. */
  function OtherDay(dayId: string): WizardDay -> bool
  {
    (d: WizardDay) => d.id != dayId
  }

  /** `removeDay`: `days.filter(d => d.id !== dayId)`. */
  function WithoutDay(days: seq<WizardDay>, dayId: string): (r: seq<WizardDay>)
    ensures forall d :: d in r <==> d in days && d.id != dayId
    ensures (forall i :: 0 <= i < |days| ==> days[i].id != dayId) ==> r == days
  {
    FilterMembers(OtherDay(dayId), days);
    FilterAllKept(OtherDay(dayId), days);
    Filter(OtherDay(dayId), days)
  }

  /** With distinct ids, every other day survives the filter for the id of day k. */
  lemma OtherDaysKept(days: seq<WizardDay>, k: nat)
    requires DistinctBy(DayId, days)
    requires k < |days|
    ensures Filter(OtherDay(days[k].id), days[..k]) == days[..k]
    ensures Filter(OtherDay(days[k].id), days[k + 1..]) == days[k + 1..]
  {
    var keep := OtherDay(days[k].id);
    var pre, post := days[..k], days[k + 1..];
    forall i | 0 <= i < |pre|
      ensures keep(pre[i])
    {
      assert pre[i] == days[i];
      assert DayId(days[i]) != DayId(days[k]);
    }
    forall i | 0 <= i < |post|
      ensures keep(post[i])
    {
      assert post[i] == days[k + 1 + i];
      assert DayId(days[k]) != DayId(days[k + 1 + i]);
    }
    FilterAllKept(keep, pre);
    FilterAllKept(keep, post);
  }

  /** Filtering out one rejected element between two fully kept stretches closes the gap. */
  lemma FilterDropsOne<T(!new)>(keep: T -> bool, pre: seq<T>, x: T, post: seq<T>)
    requires Filter(keep, pre) == pre && Filter(keep, post) == post && !keep(x)
    ensures Filter(keep, pre + [x] + post) == pre + post
  {
    var tail := [x] + post;
    assert [x][1..] == [];
    assert Filter(keep, [x]) == [];
    FilterConcat(keep, [x], post);
    assert Filter(keep, tail) == post;
    FilterConcat(keep, pre, tail);
    assert pre + [x] + post == pre + tail;
  }

  /** Filtering out the one rejected element at index k closes the gap at k. */
  lemma FilterDropsAt<T(!new)>(keep: T -> bool, s: seq<T>, k: nat)
    requires k < |s| && !keep(s[k])
    requires Filter(keep, s[..k]) == s[..k] && Filter(keep, s[k + 1..]) == s[k + 1..]
    ensures Filter(keep, s) == s[..k] + s[k + 1..]
  {
    var pre, x, post := s[..k], s[k], s[k + 1..];
    SplitAround(s, k);
    FilterDropsOne(keep, pre, x, post);
  }

  lemma SplitAround<T>(s: seq<T>, k: nat)
    requires k < |s|
    ensures s == s[..k] + [s[k]] + s[k + 1..]
  {
  }

  /** With distinct ids, removing a present day takes out that one day and keeps the rest in order. */
  lemma WithoutDayRemovesOne(days: seq<WizardDay>, k: nat)
    requires DistinctBy(DayId, days)
    requires k < |days|
    ensures WithoutDay(days, days[k].id) == days[..k] + days[k + 1..]
  {
    OtherDaysKept(days, k);
    FilterDropsAt(OtherDay(days[k].id), days, k);
  }

  /** `removeDay` keeps day ids distinct. */
  lemma WithoutDayKeepsIdsDistinct(days: seq<WizardDay>, dayId: string)
    requires DistinctBy(DayId, days)
    ensures DistinctBy(DayId, WithoutDay(days, dayId))
  {
    FilterKeepsDistinct(OtherDay(dayId), DayId, days);
  }

  /** Replace each day whose id matches by `f` of it, leaving the others. */
  function MapMatching(days: seq<WizardDay>, dayId: string, f: WizardDay -> WizardDay): (r: seq<WizardDay>)
    ensures |r| == |days|
    ensures forall i :: 0 <= i < |days| && days[i].id == dayId ==> r[i] == f(days[i])
    ensures forall i :: 0 <= i < |days| && days[i].id != dayId ==> r[i] == days[i]
  {
    seq(|days|, i requires 0 <= i < |days| => if days[i].id == dayId then f(days[i]) else days[i])
  }

  /** `updateDayName`: only the name of matching days changes. */
  function RenameDay(days: seq<WizardDay>, dayId: string, name: string): (r: seq<WizardDay>)
    ensures |r| == |days|
    ensures forall i :: 0 <= i < |days| ==>
      && r[i].id == days[i].id && r[i].order == days[i].order && r[i].exercises == days[i].exercises
      && r[i].name == (if days[i].id == dayId then name else days[i].name)
  {
    MapMatching(days, dayId, (d: WizardDay) => d.(name := name))
  }

  /** The exercise `addExerciseToDay` appends: default targets, next position. */
  function NewExercise(tempId: string, exercise: Exercise, order: int): (e: WizardExercise)
    ensures e.id == tempId && e.exerciseId == exercise.id && e.name == exercise.name && e.exercise == exercise
    ensures e.targetSets == 3 && e.targetReps == "8-12" && e.targetRir == Some(2) && e.restSeconds == Some(90)
    ensures e.customDescription == None && e.customVideoUrl == None
    ensures e.customImageUrl == None && e.coachNotes == None
    ensures e.order == order
  {
    WizardExercise(tempId, exercise.id, exercise.name, exercise, 3, "8-12", Some(2), Some(90),
                   None, None, None, None, order)
  }

  /**
   * `addExerciseToDay`: every day whose id matches gets one exercise at the
   * end. The callback draws a UUID per matching day; `tempIds[i]` is the one
   * drawn for day i.
   */
  function AppendExercise(days: seq<WizardDay>, dayId: string, exercise: Exercise, tempIds: seq<string>)
    : (r: seq<WizardDay>)
    requires |tempIds| == |days|
    ensures |r| == |days|
    ensures forall i :: 0 <= i < |days| && days[i].id != dayId ==> r[i] == days[i]
    ensures forall i :: 0 <= i < |days| && days[i].id == dayId ==>
      && r[i].id == days[i].id && r[i].name == days[i].name && r[i].order == days[i].order
      && |r[i].exercises| == |days[i].exercises| + 1
      && r[i].exercises[..|days[i].exercises|] == days[i].exercises
      && r[i].exercises[|days[i].exercises|] == NewExercise(tempIds[i], exercise, |days[i].exercises| + 1)
  {
    seq(|days|, i requires 0 <= i < |days| =>
      if days[i].id != dayId then days[i]
      else days[i].(exercises := days[i].exercises + [NewExercise(tempIds[i], exercise, |days[i].exercises| + 1)]))
  }

  /** Exercise ids within a day are distinct. */
  predicate ExerciseIdsDistinct(days: seq<WizardDay>)
  {
    forall i :: 0 <= i < |days| ==> DistinctBy(ExerciseId, days[i].exercises)
  }

  /** Fresh temporary ids keep the exercise ids of every day distinct, and day ids are untouched. */
  lemma AppendExerciseKeepsIdsDistinct(days: seq<WizardDay>, dayId: string, exercise: Exercise, tempIds: seq<string>)
    requires |tempIds| == |days|
    requires DistinctBy(DayId, days) && ExerciseIdsDistinct(days)
    requires forall i, e :: 0 <= i < |days| && e in days[i].exercises ==> e.id != tempIds[i]
    ensures var r := AppendExercise(days, dayId, exercise, tempIds);
      DistinctBy(DayId, r) && ExerciseIdsDistinct(r)
  {
    var r := AppendExercise(days, dayId, exercise, tempIds);
    forall i | 0 <= i < |days|
      ensures DistinctBy(ExerciseId, r[i].exercises)
    {
      if days[i].id == dayId {
        var before := days[i].exercises;
        var after := r[i].exercises;
        forall a, b | 0 <= a < b < |after|
          ensures after[a].id != after[b].id
        {
          if b == |before| {
            assert after[a] == before[a];
            assert before[a] in days[i].exercises;
          } else {
            assert after[a] == before[a] && after[b] == before[b];
          }
        }
      }
    }
  }

  /** The filter callback `e => e.id !== exerciseId`. */
  function OtherExercise(exerciseId: string): WizardExercise -> bool
  {
    (e: WizardExercise) => e.id != exerciseId
  }

  /** One day with `exercises.filter(e => e.id !== exerciseId)`. */
  function DropExercise(d: WizardDay, exerciseId: string): (r: WizardDay)
    ensures r.id == d.id && r.name == d.name && r.order == d.order
    ensures r.exercises == Filter(OtherExercise(exerciseId), d.exercises)
    ensures forall e :: e in r.exercises <==> e in d.exercises && e.id != exerciseId
  {
    FilterMembers(OtherExercise(exerciseId), d.exercises);
    d.(exercises := Filter(OtherExercise(exerciseId), d.exercises))
  }

  /** `removeExerciseFromDay`: matching days drop the exercises with that temporary id. */
  function WithoutExercise(days: seq<WizardDay>, dayId: string, exerciseId: string): (r: seq<WizardDay>)
    ensures |r| == |days|
    ensures forall i :: 0 <= i < |days| && days[i].id != dayId ==> r[i] == days[i]
    ensures forall i :: 0 <= i < |days| && days[i].id == dayId ==>
      && r[i].id == days[i].id && r[i].name == days[i].name && r[i].order == days[i].order
      && r[i].exercises == Filter(OtherExercise(exerciseId), days[i].exercises)
      && (forall e :: e in r[i].exercises <==> e in days[i].exercises && e.id != exerciseId)
  {
    MapMatching(days, dayId, (d: WizardDay) => DropExercise(d, exerciseId))
  }

  /** Removing an exercise keeps day ids and exercise ids distinct. */
  lemma WithoutExerciseKeepsIdsDistinct(days: seq<WizardDay>, dayId: string, exerciseId: string)
    requires DistinctBy(DayId, days) && ExerciseIdsDistinct(days)
    ensures var r := WithoutExercise(days, dayId, exerciseId);
      DistinctBy(DayId, r) && ExerciseIdsDistinct(r)
  {
    var r := WithoutExercise(days, dayId, exerciseId);
    forall i | 0 <= i < |days|
      ensures DistinctBy(ExerciseId, r[i].exercises)
    {
      FilterKeepsDistinct(OtherExercise(exerciseId), ExerciseId, days[i].exercises);
    }
  }

  /** `updateExerciseConfig`: in matching days, matching exercises take the patch; all else stays. */
  function PatchExercise(days: seq<WizardDay>, dayId: string, exerciseId: string, config: ExercisePatch)
    : (r: seq<WizardDay>)
    ensures |r| == |days|
    ensures forall i :: 0 <= i < |days| && days[i].id != dayId ==> r[i] == days[i]
    ensures forall i :: 0 <= i < |days| && days[i].id == dayId ==>
      && r[i].id == days[i].id && r[i].name == days[i].name && r[i].order == days[i].order
      && |r[i].exercises| == |days[i].exercises|
      && (forall j :: 0 <= j < |days[i].exercises| ==>
            r[i].exercises[j] == if days[i].exercises[j].id == exerciseId
                                 then Merge(days[i].exercises[j], config)
                                 else days[i].exercises[j])
  {
    MapMatching(days, dayId, (d: WizardDay) => d.(exercises :=
      seq(|d.exercises|, j requires 0 <= j < |d.exercises| =>
        if d.exercises[j].id == exerciseId then Merge(d.exercises[j], config) else d.exercises[j])))
  }

  /** A config without an `id` key keeps day ids and exercise ids distinct. */
  lemma PatchExerciseKeepsIdsDistinct(days: seq<WizardDay>, dayId: string, exerciseId: string, config: ExercisePatch)
    requires config.id.None?
    requires DistinctBy(DayId, days) && ExerciseIdsDistinct(days)
    ensures var r := PatchExercise(days, dayId, exerciseId, config);
      DistinctBy(DayId, r) && ExerciseIdsDistinct(r)
  {
    var r := PatchExercise(days, dayId, exerciseId, config);
    forall i | 0 <= i < |days|
      ensures DistinctBy(ExerciseId, r[i].exercises)
    {
      if days[i].id == dayId {
        forall a, b | 0 <= a < b < |r[i].exercises|
          ensures r[i].exercises[a].id != r[i].exercises[b].id
        {
          assert r[i].exercises[a].id == days[i].exercises[a].id;
          assert r[i].exercises[b].id == days[i].exercises[b].id;
        }
      }
    }
  }

  // ---------------------------------------------------------------------
  // The store

  class PlanWizardStore {
    var planInfo: PlanInfo
    var days: seq<WizardDay>
    var activeStep: int

    /** The draft a fresh store and `reset` produce. */
    predicate IsInitial()
      reads this
    {
      planInfo == EmptyPlanInfo && days == [] && activeStep == 0
    }

    constructor ()
      ensures IsInitial()
    {
      planInfo := EmptyPlanInfo;
      days := [];
      activeStep := 0;
    }

    method SetPlanInfo(info: PlanInfoPatch)
      modifies this
      ensures planInfo == MergePlanInfo(old(planInfo), info)
      ensures days == old(days) && activeStep == old(activeStep)
    {
      planInfo := MergePlanInfo(planInfo, info);
    }

    /** `setStep` takes the step as given, without clamping. */
    method SetStep(step: int)
      modifies this
      ensures activeStep == step
      ensures planInfo == old(planInfo) && days == old(days)
    {
      activeStep := step;
    }

    method NextStep()
      modifies this
      ensures activeStep == Advance(old(activeStep))
      ensures planInfo == old(planInfo) && days == old(days)
    {
      activeStep := Advance(activeStep);
    }

    method PrevStep()
      modifies this
      ensures activeStep == Retreat(old(activeStep))
      ensures planInfo == old(planInfo) && days == old(days)
    {
      activeStep := Retreat(activeStep);
    }

    /** `newId` stands for the fresh UUID the browser draws. */
    method AddDay(newId: string)
      requires forall i :: 0 <= i < |days| ==> days[i].id != newId
      modifies this
      ensures days == AppendDay(old(days), newId)
      ensures old(DistinctBy(DayId, days)) ==> DistinctBy(DayId, days)
      ensures planInfo == old(planInfo) && activeStep == old(activeStep)
    {
      if DistinctBy(DayId, days) {
        AppendDayKeepsIdsDistinct(days, newId);
      }
      days := AppendDay(days, newId);
    }

    method RemoveDay(dayId: string)
      modifies this
      ensures days == WithoutDay(old(days), dayId)
      ensures old(DistinctBy(DayId, days)) ==> DistinctBy(DayId, days)
      ensures planInfo == old(planInfo) && activeStep == old(activeStep)
    {
      if DistinctBy(DayId, days) {
        WithoutDayKeepsIdsDistinct(days, dayId);
      }
      days := WithoutDay(days, dayId);
    }

    method UpdateDayName(dayId: string, name: string)
      modifies this
      ensures days == RenameDay(old(days), dayId, name)
      ensures planInfo == old(planInfo) && activeStep == old(activeStep)
    {
      days := RenameDay(days, dayId, name);
    }

    /** `reorderDays` installs the caller's list as it is; orders are not renumbered. */
    method ReorderDays(newDays: seq<WizardDay>)
      modifies this
      ensures days == newDays
      ensures planInfo == old(planInfo) && activeStep == old(activeStep)
    {
      days := newDays;
    }

    /** `tempIds[i]` stands for the fresh UUID drawn if day i matches. */
    method AddExerciseToDay(dayId: string, exercise: Exercise, tempIds: seq<string>)
      requires |tempIds| == |days|
      requires forall i, e :: 0 <= i < |days| && e in days[i].exercises ==> e.id != tempIds[i]
      modifies this
      ensures days == AppendExercise(old(days), dayId, exercise, tempIds)
      ensures old(DistinctBy(DayId, days) && ExerciseIdsDistinct(days)) ==>
        DistinctBy(DayId, days) && ExerciseIdsDistinct(days)
      ensures planInfo == old(planInfo) && activeStep == old(activeStep)
    {
      if DistinctBy(DayId, days) && ExerciseIdsDistinct(days) {
        AppendExerciseKeepsIdsDistinct(days, dayId, exercise, tempIds);
      }
      days := AppendExercise(days, dayId, exercise, tempIds);
    }

    method RemoveExerciseFromDay(dayId: string, exerciseId: string)
      modifies this
      ensures days == WithoutExercise(old(days), dayId, exerciseId)
      ensures old(DistinctBy(DayId, days) && ExerciseIdsDistinct(days)) ==>
        DistinctBy(DayId, days) && ExerciseIdsDistinct(days)
      ensures planInfo == old(planInfo) && activeStep == old(activeStep)
    {
      if DistinctBy(DayId, days) && ExerciseIdsDistinct(days) {
        WithoutExerciseKeepsIdsDistinct(days, dayId, exerciseId);
      }
      days := WithoutExercise(days, dayId, exerciseId);
    }

    method UpdateExerciseConfig(dayId: string, exerciseId: string, config: ExercisePatch)
      modifies this
      ensures days == PatchExercise(old(days), dayId, exerciseId, config)
      ensures config.id.None? && old(DistinctBy(DayId, days) && ExerciseIdsDistinct(days)) ==>
        DistinctBy(DayId, days) && ExerciseIdsDistinct(days)
      ensures planInfo == old(planInfo) && activeStep == old(activeStep)
    {
      if config.id.None? && DistinctBy(DayId, days) && ExerciseIdsDistinct(days) {
        PatchExerciseKeepsIdsDistinct(days, dayId, exerciseId, config);
      }
      days := PatchExercise(days, dayId, exerciseId, config);
    }

    method Reset()
      modifies this
      ensures IsInitial()
    {
      planInfo := EmptyPlanInfo;
      days := [];
      activeStep := 0;
    }
  }
}
