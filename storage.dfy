/** The browser's `localStorage` as the app uses it: three keys, each holding one
    JSON-encoded value, here kept as typed values instead of JSON text. */
module Storage {
  import opened Types

  /** What a key holds once its JSON text is parsed. */
  datatype Value = PlansValue(plans: seq<WorkoutPlan>) | AlarmsValue(alarms: seq<Alarm>) | UserValue(user: User)

  const PlansKey: string := "gym_plans"
  const AlarmsKey: string := "gym_alarms"
  const UserKey: string := "gym_user"

  /** The value under `key` has the shape the app reads it as. */
  predicate Fits(key: string, v: Value) {
    && (key == PlansKey ==> v.PlansValue?)
    && (key == AlarmsKey ==> v.AlarmsValue?)
    && (key == UserKey ==> v.UserValue?)
  }

  /** Every entry the app reads parses as the type it is cast to. */
  predicate WellFormed(m: map<string, Value>) {
    forall k :: k in m ==> Fits(k, m[k])
  }

  /** `localStorage.getItem('gym_plans')`, parsed; `None` when the key is absent. */
  function StoredPlans(m: map<string, Value>): (r: Option<seq<WorkoutPlan>>)
    requires WellFormed(m)
    ensures r.Some? <==> PlansKey in m
    ensures r.Some? ==> m[PlansKey] == PlansValue(r.value)
  {
    if PlansKey in m then Some(m[PlansKey].plans) else None
  }

  /** `JSON.parse(localStorage.getItem('gym_plans') || '[]')`: a missing key reads as no plans. */
  function PlansOrEmpty(m: map<string, Value>): (r: seq<WorkoutPlan>)
    requires WellFormed(m)
    ensures PlansKey !in m ==> r == []
    ensures PlansKey in m ==> m[PlansKey] == PlansValue(r)
  {
    match StoredPlans(m)
    case Some(plans) => plans
    case None => []
  }

  /** `localStorage.getItem('gym_alarms')`, parsed. */
  function StoredAlarms(m: map<string, Value>): (r: Option<seq<Alarm>>)
    requires WellFormed(m)
    ensures r.Some? <==> AlarmsKey in m
    ensures r.Some? ==> m[AlarmsKey] == AlarmsValue(r.value)
  {
    if AlarmsKey in m then Some(m[AlarmsKey].alarms) else None
  }

  /** `localStorage.getItem('gym_user')`, parsed. */
  function StoredUser(m: map<string, Value>): (r: Option<User>)
    requires WellFormed(m)
    ensures r.Some? <==> UserKey in m
    ensures r.Some? ==> m[UserKey] == UserValue(r.value)
  {
    if UserKey in m then Some(m[UserKey].user) else None
  }

  /** Writing a value of the right shape keeps the store well formed, and reading it back
      returns what was written. */
  lemma WriteThenRead(m: map<string, Value>, key: string, v: Value)
    requires WellFormed(m) && Fits(key, v)
    ensures WellFormed(m[key := v])
    ensures key == PlansKey ==> StoredPlans(m[key := v]) == Some(v.plans)
    ensures key == AlarmsKey ==> StoredAlarms(m[key := v]) == Some(v.alarms)
    ensures key == UserKey ==> StoredUser(m[key := v]) == Some(v.user)
  {
  }

  /** The whole of `localStorage`, shared by every view. */
  class LocalStore {
    var entries: map<string, Value>

    constructor (initial: map<string, Value>)
      ensures entries == initial
    {
      entries := initial;
    }

    /** `localStorage.setItem(key, JSON.stringify(v))`. */
    method SetItem(key: string, v: Value)
      modifies this
      ensures entries == old(entries)[key := v]
    {
      entries := entries[key := v];
    }

    /** `localStorage.removeItem(key)`; nothing happens when the key is absent. */
    method RemoveItem(key: string)
      modifies this
      ensures entries == old(entries) - {key}
      ensures key !in old(entries) ==> entries == old(entries)
    {
      entries := entries - {key};
    }
  }
}
