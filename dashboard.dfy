/** The dashboard (webpage/views/Dashboard.tsx): loading the plans, seeding the sample plan
    on a first visit, deleting plans, and the per-plan card it shows. */
module DashboardView {
  import opened Types
  import opened Lists
  import opened Storage

  /** The one plan written on a first visit, stamped with the current time. */
  function SamplePlans(now: int): (r: seq<WorkoutPlan>)
    ensures |r| == 1
    ensures r[0].id == "1" && r[0].userId == "mock-1" && r[0].createdAt == now
    ensures r[0].title == "Morning Blast" && r[0].description == "High intensity cardio and bodyweight"
    ensures |r[0].exercises| == 2
    ensures r[0].exercises[0] == Exercise("e1", "Pushups", 20, 4, "45s")
    ensures r[0].exercises[1] == Exercise("e2", "Burpees", 15, 3, "60s")
  {
    [WorkoutPlan("1", "mock-1", "Morning Blast", "High intensity cardio and bodyweight",
                 [Exercise("e1", "Pushups", 20, 4, "45s"), Exercise("e2", "Burpees", 15, 3, "60s")],
                 now)]
  }

  /** `plans.filter(p => p.id !== id)`. */
  function WithoutPlan(plans: seq<WorkoutPlan>, id: string): (r: seq<WorkoutPlan>)
    ensures forall i :: 0 <= i < |r| ==> r[i] in plans && r[i].id != id
    ensures forall i :: 0 <= i < |plans| && plans[i].id != id ==> plans[i] in r
    ensures (forall i :: 0 <= i < |plans| ==> plans[i].id != id) ==> r == plans
  {
    var keep := (p: WorkoutPlan) => p.id != id;
    if forall i :: 0 <= i < |plans| ==> plans[i].id != id then
      FilterKeepsAll(plans, keep);
      Filter(plans, keep)
    else
      Filter(plans, keep)
  }

  /** Deleting keeps the other plans in their order, and deleting again changes nothing. */
  lemma WithoutPlanOrderAndRepeat(s: seq<WorkoutPlan>, t: seq<WorkoutPlan>, id: string)
    ensures WithoutPlan(s + t, id) == WithoutPlan(s, id) + WithoutPlan(t, id)
    ensures WithoutPlan(WithoutPlan(s, id), id) == WithoutPlan(s, id)
  {
    FilterConcat(s, t, (p: WorkoutPlan) => p.id != id);
    FilterIdempotent(s, (p: WorkoutPlan) => p.id != id);
  }

  /** What a plan's card shows besides its title and description: the exercise count, the
      names of the first exercises, and the "+N more" note. */
  datatype Card = Card(title: string, description: string, count: nat, names: seq<string>, more: Option<nat>)

  /** How many exercise names a card lists. */
  const PreviewLength: nat := 3

  function Name(e: Exercise): string { e.name }

  /** The card of one plan: `plan.exercises.length`, the names of
      `plan.exercises.slice(0, 3)`, and `+(length - 3) more` exactly when there are more than three. */
  function CardOf(plan: WorkoutPlan): (c: Card)
    ensures c.title == plan.title && c.description == plan.description
    ensures c.count == |plan.exercises|
    ensures |c.names| == if |plan.exercises| < 3 then |plan.exercises| else 3
    ensures forall i :: 0 <= i < |c.names| ==> c.names[i] == plan.exercises[i].name
    ensures c.more.Some? <==> |plan.exercises| > 3
    ensures c.more.Some? ==> c.more.value == |plan.exercises| - 3
  {
    var n := |plan.exercises|;
    var shown := if n < PreviewLength then n else PreviewLength;
    Card(plan.title, plan.description, n, Map(plan.exercises[..shown], Name),
         if n > PreviewLength then Some(n - PreviewLength) else None)
  }

  /** The dashboard body: placeholders while loading, then one card per plan, or the
      "No plans found" message when there are none. */
  datatype Board = Skeleton | Cards(cards: seq<Card>) | NoPlans

  function BoardOf(loading: bool, plans: seq<WorkoutPlan>): (b: Board)
    ensures b.Skeleton? <==> loading
    ensures b.NoPlans? <==> !loading && plans == []
    ensures b.Cards? ==> |b.cards| == |plans| && forall i :: 0 <= i < |plans| ==> b.cards[i] == CardOf(plans[i])
  {
    if loading then Skeleton else if |plans| > 0 then Cards(Map(plans, CardOf)) else NoPlans
  }

  /** The dashboard component. */
  class Dashboard {
    const store: LocalStore
    var plans: seq<WorkoutPlan>
    var loading: bool

    /** The first render: no plans yet, still loading. */
    constructor (store: LocalStore)
      ensures this.store == store && plans == [] && loading
    {
      this.store := store;
      plans := [];
      loading := true;
    }

    /** The load effect, with `Date.now()` as a parameter: stored plans are shown as they are and
        nothing is written; with no stored plans the sample plan is both shown and written, so
        the view and the store agree. Either way loading ends. */
    method Load(now: int)
      requires WellFormed(store.entries)
      modifies this, store
      ensures WellFormed(store.entries) && !loading
      ensures old(StoredPlans(store.entries)).Some? ==>
                plans == old(StoredPlans(store.entries)).value && store.entries == old(store.entries)
      ensures old(StoredPlans(store.entries)).None? ==>
                plans == SamplePlans(now) && store.entries == old(store.entries)[PlansKey := PlansValue(plans)]
      ensures PlansKey in store.entries && store.entries[PlansKey] == PlansValue(plans)
    {
      match StoredPlans(store.entries) {
        case Some(stored) =>
          plans := stored;
        case None =>
          plans := SamplePlans(now);
          store.SetItem(PlansKey, PlansValue(plans));
      }
      loading := false;
    }

    /** `deletePlan`: the remaining plans are shown and written back. */
    method DeletePlan(id: string)
      requires WellFormed(store.entries)
      modifies this, store
      ensures WellFormed(store.entries) && loading == old(loading)
      ensures plans == WithoutPlan(old(plans), id)
      ensures store.entries == old(store.entries)[PlansKey := PlansValue(plans)]
    {
      plans := WithoutPlan(plans, id);
      store.SetItem(PlansKey, PlansValue(plans));
    }
  }
}
