/** The alarm settings view (webpage/views/AlarmSettings.tsx): the alarm list, its form, and
    the `gym_alarms` collection it rewrites after every change. */
module AlarmSettingsView {
  import opened Types
  import opened Lists
  import opened Storage

  /** The label an alarm gets when the form's label field is left empty. */
  const DefaultLabel: string := "Workout Reminder"

  /** The alarm `addAlarm` builds: active, owned by `current-user`, labelled with the form's
      label or, when that is empty, the default label. */
  function NewAlarm(id: string, time: string, labelText: string): (a: Alarm)
    ensures a.id == id && a.userId == CurrentUser && a.time == time && a.isActive
    ensures labelText != "" ==> a.labelText == labelText
    ensures labelText == "" ==> a.labelText == "Workout Reminder"
  {
    Alarm(id, CurrentUser, time, if labelText != "" then labelText else DefaultLabel, true)
  }

  /** `[...alarms, alarm]`, or `None` when the time is empty and `addAlarm` returns early. */
  function AppendAlarm(alarms: seq<Alarm>, time: string, labelText: string, id: string): (r: Option<seq<Alarm>>)
    ensures r.None? <==> time == ""
    ensures r.Some? ==> |r.value| == |alarms| + 1 && r.value[..|alarms|] == alarms
                        && r.value[|alarms|] == NewAlarm(id, time, labelText)
  {
    if time == "" then None else Some(alarms + [NewAlarm(id, time, labelText)])
  }

  /** Appending keeps creation order: alarm A then alarm B ends with A, B. */
  lemma AppendTwice(alarms: seq<Alarm>, timeA: string, labelA: string, idA: string,
                    timeB: string, labelB: string, idB: string)
    requires timeA != "" && timeB != ""
    ensures var afterA := AppendAlarm(alarms, timeA, labelA, idA).value;
            AppendAlarm(afterA, timeB, labelB, idB).value
              == alarms + [NewAlarm(idA, timeA, labelA), NewAlarm(idB, timeB, labelB)]
  {
  }

  /** `a.id === id ? { ...a, isActive: !a.isActive } : a`. */
  function Flip(a: Alarm, id: string): Alarm {
    if a.id == id then a.(isActive := !a.isActive) else a
  }

  /** `alarms.map(...)` with `Flip`: matching alarms change state, everything else (every other
      field, the order, the length) stays. */
  function Toggled(alarms: seq<Alarm>, id: string): (r: seq<Alarm>)
    ensures |r| == |alarms|
    ensures forall i :: 0 <= i < |r| ==>
              && r[i].id == alarms[i].id && r[i].userId == alarms[i].userId
              && r[i].time == alarms[i].time && r[i].labelText == alarms[i].labelText
              && (r[i].isActive <==> (alarms[i].isActive != (alarms[i].id == id)))
  {
    Map(alarms, (a: Alarm) => Flip(a, id))
  }

  /** Toggling the same id twice gives back the original list. */
  lemma ToggleTwice(alarms: seq<Alarm>, id: string)
    ensures Toggled(Toggled(alarms, id), id) == alarms
  {
    var r := Toggled(Toggled(alarms, id), id);
    assert forall i :: 0 <= i < |r| ==> r[i] == alarms[i];
  }

  /** `alarms.filter(a => a.id !== id)`. */
  function WithoutAlarm(alarms: seq<Alarm>, id: string): (r: seq<Alarm>)
    ensures forall i :: 0 <= i < |r| ==> r[i] in alarms && r[i].id != id
    ensures forall i :: 0 <= i < |alarms| && alarms[i].id != id ==> alarms[i] in r
    ensures (forall i :: 0 <= i < |alarms| ==> alarms[i].id != id) ==> r == alarms
  {
    var keep := (a: Alarm) => a.id != id;
    if forall i :: 0 <= i < |alarms| ==> alarms[i].id != id then
      FilterKeepsAll(alarms, keep);
      Filter(alarms, keep)
    else
      Filter(alarms, keep)
  }

  /** Removal keeps the survivors in their order, and removing again changes nothing. */
  lemma WithoutAlarmOrderAndRepeat(s: seq<Alarm>, t: seq<Alarm>, id: string)
    ensures WithoutAlarm(s + t, id) == WithoutAlarm(s, id) + WithoutAlarm(t, id)
    ensures WithoutAlarm(WithoutAlarm(s, id), id) == WithoutAlarm(s, id)
  {
    FilterConcat(s, t, (a: Alarm) => a.id != id);
    FilterIdempotent(s, (a: Alarm) => a.id != id);
  }

  /** The alarm settings component. */
  class AlarmSettings {
    const store: LocalStore
    var alarms: seq<Alarm>
    var newTime: string
    var newLabel: string

    /** The store holds exactly the in-memory list under `gym_alarms`. */
    predicate Synced()
      reads this, store
    {
      AlarmsKey in store.entries && store.entries[AlarmsKey] == AlarmsValue(alarms)
    }

    /** Mounting the view and its load effect: the stored alarms, or none; nothing is written. */
    constructor (store: LocalStore)
      requires WellFormed(store.entries)
      ensures this.store == store
      ensures alarms == match StoredAlarms(store.entries) case Some(s) => s case None => []
      ensures newTime == "" && newLabel == ""
    {
      this.store := store;
      alarms := match StoredAlarms(store.entries) case Some(s) => s case None => [];
      newTime := "";
      newLabel := "";
    }

    method SetTime(t: string)
      modifies this
      ensures alarms == old(alarms) && newTime == t && newLabel == old(newLabel)
    {
      newTime := t;
    }

    method SetLabel(l: string)
      modifies this
      ensures alarms == old(alarms) && newTime == old(newTime) && newLabel == l
    {
      newLabel := l;
    }

    /** `addAlarm`, with the randomly drawn id as a parameter. An empty time changes nothing;
        otherwise the alarm is appended, written back, and both form fields are cleared. */
    method AddAlarm(freshId: string) returns (added: bool)
      requires WellFormed(store.entries)
      modifies this, store
      ensures added <==> old(newTime) != ""
      ensures WellFormed(store.entries)
      ensures !added ==> alarms == old(alarms) && newTime == old(newTime) && newLabel == old(newLabel)
                         && store.entries == old(store.entries)
      ensures added ==> alarms == AppendAlarm(old(alarms), old(newTime), old(newLabel), freshId).value
                        && newTime == "" && newLabel == ""
                        && store.entries == old(store.entries)[AlarmsKey := AlarmsValue(alarms)]
                        && Synced()
    {
      var r := AppendAlarm(alarms, newTime, newLabel, freshId);
      if r.None? {
        return false;
      }
      alarms := r.value;
      store.SetItem(AlarmsKey, AlarmsValue(alarms));
      newTime := "";
      newLabel := "";
      added := true;
    }

    /** `toggleAlarm`. */
    method ToggleAlarm(id: string)
      requires WellFormed(store.entries)
      modifies this, store
      ensures WellFormed(store.entries)
      ensures alarms == Toggled(old(alarms), id) && newTime == old(newTime) && newLabel == old(newLabel)
      ensures store.entries == old(store.entries)[AlarmsKey := AlarmsValue(alarms)] && Synced()
    {
      alarms := Toggled(alarms, id);
      store.SetItem(AlarmsKey, AlarmsValue(alarms));
    }

    /** `removeAlarm`. */
    method RemoveAlarm(id: string)
      requires WellFormed(store.entries)
      modifies this, store
      ensures WellFormed(store.entries)
      ensures alarms == WithoutAlarm(old(alarms), id) && newTime == old(newTime) && newLabel == old(newLabel)
      ensures store.entries == old(store.entries)[AlarmsKey := AlarmsValue(alarms)] && Synced()
    {
      alarms := WithoutAlarm(alarms, id);
      store.SetItem(AlarmsKey, AlarmsValue(alarms));
    }
  }
}
