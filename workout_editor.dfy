/** The workout editor (webpage/views/WorkoutEditor.tsx): the exercise list it edits,
    how it opens a plan, and how saving writes the `gym_plans` collection. */
module PlanEditor {
  import opened Types
  import opened Lists
  import opened Text
  import opened Storage

  // ---------------------------------------------------------------- exercises

  /** A field name, as `keyof Exercise`. */
  datatype Field = IdField | NameField | RepsField | SetsField | RestTimeField

  /** What a field holds. */
  datatype FieldValue = Str(s: string) | Num(n: int)

  /** The `field` and `value` arguments of one `updateExercise` call. */
  datatype Edit = SetId(id: string) | SetName(name: string) | SetReps(reps: int)
                | SetSets(sets: int) | SetRestTime(restTime: string)

  function FieldOf(edit: Edit): Field {
    match edit
    case SetId(_) => IdField
    case SetName(_) => NameField
    case SetReps(_) => RepsField
    case SetSets(_) => SetsField
    case SetRestTime(_) => RestTimeField
  }

  function ValueOf(edit: Edit): FieldValue {
    match edit
    case SetId(v) => Str(v)
    case SetName(v) => Str(v)
    case SetReps(v) => Num(v)
    case SetSets(v) => Num(v)
    case SetRestTime(v) => Str(v)
  }

  /** `e[field]`. */
  function Get(e: Exercise, f: Field): FieldValue {
    match f
    case IdField => Str(e.id)
    case NameField => Str(e.name)
    case RepsField => Num(e.reps)
    case SetsField => Num(e.sets)
    case RestTimeField => Str(e.restTime)
  }

  /** Two exercises agreeing on every field are the same exercise. */
  lemma FieldsDetermineExercise(a: Exercise, b: Exercise)
    requires forall f :: Get(a, f) == Get(b, f)
    ensures a == b
  {
    assert Get(a, IdField) == Get(b, IdField);
    assert Get(a, NameField) == Get(b, NameField);
    assert Get(a, RepsField) == Get(b, RepsField);
    assert Get(a, SetsField) == Get(b, SetsField);
    assert Get(a, RestTimeField) == Get(b, RestTimeField);
  }

  /** `{ ...e, [field]: value }`: the named field takes the new value, every other field keeps its own. */
  function Apply(e: Exercise, edit: Edit): (r: Exercise)
    ensures Get(r, FieldOf(edit)) == ValueOf(edit)
    ensures forall f :: f != FieldOf(edit) ==> Get(r, f) == Get(e, f)
  {
    match edit
    case SetId(v) => e.(id := v)
    case SetName(v) => e.(name := v)
    case SetReps(v) => e.(reps := v)
    case SetSets(v) => e.(sets := v)
    case SetRestTime(v) => e.(restTime := v)
  }

  /** The defaults of a freshly added exercise. */
  const DefaultSets: int := 3
  const DefaultReps: int := 10
  const DefaultRestTime: string := "60s"

  function NewExercise(id: string): Exercise {
    Exercise(id, "", DefaultReps, DefaultSets, DefaultRestTime)
  }

  /** `[...exercises, newEx]`: one blank exercise with the default sets, reps and rest time at the end. */
  function AppendExercise(exercises: seq<Exercise>, id: string): (r: seq<Exercise>)
    ensures |r| == |exercises| + 1 && r[..|exercises|] == exercises
    ensures var e := r[|exercises|];
      e.id == id && e.name == "" && e.sets == 3 && e.reps == 10 && e.restTime == "60s"
  {
    exercises + [NewExercise(id)]
  }

  /** `exercises.filter(e => e.id !== id)`. */
  function WithoutExercise(exercises: seq<Exercise>, id: string): (r: seq<Exercise>)
    ensures forall i :: 0 <= i < |r| ==> r[i] in exercises && r[i].id != id
    ensures forall i :: 0 <= i < |exercises| && exercises[i].id != id ==> exercises[i] in r
    ensures (forall i :: 0 <= i < |exercises| ==> exercises[i].id != id) ==> r == exercises
  {
    var keep := (e: Exercise) => e.id != id;
    if forall i :: 0 <= i < |exercises| ==> exercises[i].id != id then
      FilterKeepsAll(exercises, keep);
      Filter(exercises, keep)
    else
      Filter(exercises, keep)
  }

  /** Removing an exercise keeps the survivors in their order: it splits over any cut of the list. */
  lemma WithoutExerciseSplits(s: seq<Exercise>, t: seq<Exercise>, id: string)
    ensures WithoutExercise(s + t, id) == WithoutExercise(s, id) + WithoutExercise(t, id)
  {
    FilterConcat(s, t, (e: Exercise) => e.id != id);
  }

  /** `exercises.map(e => e.id === id ? { ...e, [field]: value } : e)`. */
  function UpdatedExercises(exercises: seq<Exercise>, id: string, edit: Edit): (r: seq<Exercise>)
    ensures |r| == |exercises|
    ensures forall i :: 0 <= i < |r| && exercises[i].id == id ==>
              Get(r[i], FieldOf(edit)) == ValueOf(edit)
    ensures forall i, f :: 0 <= i < |r| && (exercises[i].id != id || f != FieldOf(edit)) ==>
              Get(r[i], f) == Get(exercises[i], f)
  {
    Map(exercises, (e: Exercise) => if e.id == id then Apply(e, edit) else e)
  }

  /** An update whose id matches nothing leaves the list as it was. */
  lemma UpdateAbsentId(exercises: seq<Exercise>, id: string, edit: Edit)
    requires forall i :: 0 <= i < |exercises| ==> exercises[i].id != id
    ensures UpdatedExercises(exercises, id, edit) == exercises
  {
    var r := UpdatedExercises(exercises, id, edit);
    forall i | 0 <= i < |r| ensures r[i] == exercises[i] {
      FieldsDetermineExercise(r[i], exercises[i]);
    }
  }

  /** `e.name.trim() !== ''`. */
  predicate IsNamed(e: Exercise) {
    Trim(e.name) != ""
  }

  /** `exercises.filter(e => e.name.trim() !== '')`: exercises whose name is not all white
      space, unchanged (their names are not trimmed) and in their order. */
  function NamedExercises(exercises: seq<Exercise>): (r: seq<Exercise>)
    ensures forall i :: 0 <= i < |r| ==> r[i] in exercises && !AllWhiteSpace(r[i].name)
    ensures forall i :: 0 <= i < |exercises| && !AllWhiteSpace(exercises[i].name) ==> exercises[i] in r
    ensures |r| <= |exercises|
    ensures (forall i :: 0 <= i < |exercises| ==> !AllWhiteSpace(exercises[i].name)) ==> r == exercises
  {
    var r := Filter(exercises, IsNamed);
    assert forall e :: IsNamed(e) <==> !AllWhiteSpace(e.name) by {
      forall e: Exercise ensures IsNamed(e) <==> !AllWhiteSpace(e.name) { TrimEmptyIff(e.name); }
    }
    if forall i :: 0 <= i < |exercises| ==> !AllWhiteSpace(exercises[i].name) then
      FilterKeepsAll(exercises, IsNamed);
      r
    else
      r
  }

  lemma NamedExercisesSplits(s: seq<Exercise>, t: seq<Exercise>)
    ensures NamedExercises(s + t) == NamedExercises(s) + NamedExercises(t)
  {
    FilterConcat(s, t, IsNamed);
  }

  /** A one-exercise list survives the save filter exactly when its name is not blank. */
  lemma NamedSingleton(e: Exercise)
    ensures NamedExercises([e]) == (if AllWhiteSpace(e.name) then [] else [e])
  {
    var r := NamedExercises([e]);
    if AllWhiteSpace(e.name) {
      assert r == [];
    }
  }

  /** Saving `[Squat, blank]` keeps only the Squat exercise. */
  lemma BlankExerciseDropped(squat: Exercise, blank: Exercise)
    requires squat.name == "Squat" && blank.name == ""
    ensures NamedExercises([squat, blank]) == [squat]
  {
    assert !AllWhiteSpace(squat.name) by { assert !IsWhiteSpace(squat.name[0]); }
    NamedSingleton(squat);
    NamedSingleton(blank);
    assert [squat, blank] == [squat] + [blank];
    NamedExercisesSplits([squat], [blank]);
  }

  // ---------------------------------------------------------------- plans

  /** The editor's form state: `title`, `description`, `exercises`, `isEditing`. */
  datatype Form = Form(title: string, description: string, exercises: seq<Exercise>, isEditing: bool)

  /** The route parameter `id` is truthy: present and not the empty string. */
  predicate HasRouteId(routeId: Option<string>) {
    routeId.Some? && routeId.value != ""
  }

  /** `plans.find(p => p.id === id)`: the first plan with that id. */
  function FindPlan(plans: seq<WorkoutPlan>, id: string): (r: Option<WorkoutPlan>)
    ensures r.None? <==> forall i :: 0 <= i < |plans| ==> plans[i].id != id
    ensures r.Some? ==> exists i :: 0 <= i < |plans| && plans[i] == r.value && r.value.id == id
                                    && forall j :: 0 <= j < i ==> plans[j].id != id
  {
    if plans == [] then None
    else if plans[0].id == id then Some(plans[0])
    else
      var r := FindPlan(plans[1..], id);
      assert r.Some? ==> exists i :: 0 <= i < |plans[1..]| && plans[1..][i] == r.value && r.value.id == id
                                      && forall j :: 0 <= j < i ==> plans[1..][j].id != id;
      assert r.Some? ==> exists i :: 1 <= i < |plans| && plans[i] == r.value && r.value.id == id
                                      && forall j :: 0 <= j < i ==> plans[j].id != id;
      r
  }

  /** The load effect: opening `/workout/edit/:id` on a stored plan fills the form from it and
      turns editing on; opening `/workout/new` starts with one blank exercise; an id that names
      no stored plan leaves the form empty, with no exercise at all. */
  function Opened(stored: Option<seq<WorkoutPlan>>, routeId: Option<string>, freshId: string): (f: Form)
    ensures f.isEditing <==> HasRouteId(routeId) && stored.Some? && FindPlan(stored.value, routeId.value).Some?
    ensures f.isEditing ==>
              var p := FindPlan(stored.value, routeId.value).value;
              p.id == routeId.value && f == Form(p.title, p.description, p.exercises, true)
    ensures !HasRouteId(routeId) ==> f == Form("", "", [NewExercise(freshId)], false)
    ensures HasRouteId(routeId) && !f.isEditing ==> f == Form("", "", [], false)
  {
    var blank := Form("", "", [], false);
    if HasRouteId(routeId) then
      if stored.Some? then
        match FindPlan(stored.value, routeId.value)
        case Some(p) => Form(p.title, p.description, p.exercises, true)
        case None => blank
      else blank
    else blank.(exercises := AppendExercise(blank.exercises, freshId))
  }

  /** `id || Math.random()...`: the route id if there is one, otherwise a fresh id. */
  function PlanId(routeId: Option<string>, freshId: string): (id: string)
    ensures HasRouteId(routeId) ==> id == routeId.value
    ensures !HasRouteId(routeId) ==> id == freshId
  {
    if HasRouteId(routeId) then routeId.value else freshId
  }

  /** The plan `handleSave` builds: always owned by `current-user` and stamped with the current
      time, even when it replaces an existing plan. */
  function NewPlan(form: Form, routeId: Option<string>, freshId: string, now: int): (p: WorkoutPlan)
    ensures p.id == PlanId(routeId, freshId)
    ensures p.userId == CurrentUser && p.createdAt == now
    ensures p.title == form.title && p.description == form.description
    ensures p.exercises == NamedExercises(form.exercises)
  {
    WorkoutPlan(PlanId(routeId, freshId), CurrentUser, form.title, form.description,
                NamedExercises(form.exercises), now)
  }

  /** `plans.map(p => p.id === id ? plan : p)`: every plan with that id is replaced in its
      position, the others stay. */
  function ReplacePlan(plans: seq<WorkoutPlan>, id: string, plan: WorkoutPlan): (r: seq<WorkoutPlan>)
    ensures |r| == |plans|
    ensures forall i :: 0 <= i < |r| && plans[i].id == id ==> r[i] == plan
    ensures forall i :: 0 <= i < |r| && plans[i].id != id ==> r[i] == plans[i]
    ensures (forall i :: 0 <= i < |plans| ==> plans[i].id != id) ==> r == plans
  {
    Map(plans, (p: WorkoutPlan) => if p.id == id then plan else p)
  }

  /** The collection `handleSave` writes, or `None` when it refuses an empty title and writes
      nothing. A new plan goes in front of the stored ones; an edited plan replaces its
      namesakes where they stand. Only the empty title is refused: white space is a title. */
  function SavedPlans(stored: seq<WorkoutPlan>, form: Form, routeId: Option<string>, freshId: string, now: int)
    : (r: Option<seq<WorkoutPlan>>)
    requires form.isEditing ==> HasRouteId(routeId)
    ensures r.None? <==> form.title == ""
    ensures r.Some? && !form.isEditing ==>
              |r.value| == |stored| + 1 && r.value[0] == NewPlan(form, routeId, freshId, now)
              && r.value[1..] == stored
    ensures r.Some? && form.isEditing ==>
              r.value == ReplacePlan(stored, routeId.value, NewPlan(form, routeId, freshId, now))
  {
    if form.title == "" then None
    else
      var plan := NewPlan(form, routeId, freshId, now);
      if form.isEditing then Some(ReplacePlan(stored, routeId.value, plan))
      else Some([plan] + stored)
  }

  /** The plan `find` returns is the one at the first index carrying the id. */
  lemma {:induction false} FindPlanFirst(plans: seq<WorkoutPlan>, id: string, i: nat)
    requires i < |plans| && plans[i].id == id
    requires forall j :: 0 <= j < i ==> plans[j].id != id
    ensures FindPlan(plans, id) == Some(plans[i])
  {
    if i > 0 {
      FindPlanFirst(plans[1..], id, i - 1);
    }
  }

  /** What is saved can be found again: looking up the saved plan's id in the written
      collection gives the saved plan, unless an edited plan's id no longer names any stored
      plan, in which case the collection is unchanged. */
  lemma SaveThenFind(stored: seq<WorkoutPlan>, form: Form, routeId: Option<string>, freshId: string, now: int)
    requires form.isEditing ==> HasRouteId(routeId)
    requires form.title != ""
    ensures var plan := NewPlan(form, routeId, freshId, now);
            var written := SavedPlans(stored, form, routeId, freshId, now).value;
            if form.isEditing && FindPlan(stored, plan.id).None? then written == stored
            else FindPlan(written, plan.id) == Some(plan)
  {
    var plan := NewPlan(form, routeId, freshId, now);
    if !form.isEditing {
      FindPlanFirst([plan] + stored, plan.id, 0);
    } else if FindPlan(stored, plan.id).Some? {
      ReplaceThenFind(stored, plan);
    }
  }

  lemma ReplaceThenFind(stored: seq<WorkoutPlan>, plan: WorkoutPlan)
    requires FindPlan(stored, plan.id).Some?
    ensures FindPlan(ReplacePlan(stored, plan.id, plan), plan.id) == Some(plan)
  {
    var written := ReplacePlan(stored, plan.id, plan);
    var i :| 0 <= i < |stored| && stored[i] == FindPlan(stored, plan.id).value
             && stored[i].id == plan.id && forall j :: 0 <= j < i ==> stored[j].id != plan.id;
    FindPlanFirst(written, plan.id, i);
  }

  // ---------------------------------------------------------------- the view

  /** The editor component: its form state, the route it was opened on and the store it saves to. */
  class WorkoutEditor {
    const store: LocalStore
    const routeId: Option<string>
    var title: string
    var description: string
    var exercises: seq<Exercise>
    var isEditing: bool

    /** Editing is only ever switched on by a plan found under a route id. */
    predicate Valid()
      reads this
    {
      isEditing ==> HasRouteId(routeId)
    }

    function State(): Form
      reads this
    {
      Form(title, description, exercises, isEditing)
    }

    /** Mounting the view and running its load effect; `freshId` is the id `addExercise`
        would draw for the first blank exercise. Nothing is written. */
    constructor (store: LocalStore, routeId: Option<string>, freshId: string)
      requires WellFormed(store.entries)
      ensures this.store == store && this.routeId == routeId
      ensures Valid()
      ensures State() == Opened(StoredPlans(store.entries), routeId, freshId)
    {
      var f := Opened(StoredPlans(store.entries), routeId, freshId);
      this.store := store;
      this.routeId := routeId;
      title := f.title;
      description := f.description;
      exercises := f.exercises;
      isEditing := f.isEditing;
    }

    method SetTitle(t: string)
      requires Valid()
      modifies this
      ensures Valid()
      ensures State() == old(State()).(title := t)
    {
      title := t;
    }

    method SetDescription(d: string)
      requires Valid()
      modifies this
      ensures Valid()
      ensures State() == old(State()).(description := d)
    {
      description := d;
    }

    /** `addExercise`, with the randomly drawn id as a parameter. */
    method AddExercise(freshId: string)
      requires Valid()
      modifies this
      ensures Valid()
      ensures State() == old(State()).(exercises := AppendExercise(old(exercises), freshId))
    {
      exercises := AppendExercise(exercises, freshId);
    }

    /** `removeExercise`. */
    method RemoveExercise(id: string)
      requires Valid()
      modifies this
      ensures Valid()
      ensures State() == old(State()).(exercises := WithoutExercise(old(exercises), id))
    {
      exercises := WithoutExercise(exercises, id);
    }

    /** `updateExercise`. */
    method UpdateExercise(id: string, edit: Edit)
      requires Valid()
      modifies this
      ensures Valid()
      ensures State() == old(State()).(exercises := UpdatedExercises(old(exercises), id, edit))
    {
      exercises := UpdatedExercises(exercises, id, edit);
    }

    /** `handleSave`, with the random id and `Date.now()` as parameters. It reports whether it
        saved; a refused save leaves the store as it was. */
    method Save(freshId: string, now: int) returns (saved: bool)
      requires Valid() && WellFormed(store.entries)
      modifies store
      ensures saved <==> title != ""
      ensures WellFormed(store.entries)
      ensures var r := SavedPlans(PlansOrEmpty(old(store.entries)), State(), routeId, freshId, now);
              store.entries == if r.Some? then old(store.entries)[PlansKey := PlansValue(r.value)]
                               else old(store.entries)
    {
      var r := SavedPlans(PlansOrEmpty(store.entries), State(), routeId, freshId, now);
      if r.None? {
        return false;
      }
      store.SetItem(PlansKey, PlansValue(r.value));
      saved := true;
    }
  }
}
