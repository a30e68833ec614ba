# IronPulse local collection layer, in Dafny

IronPulse is a client-side fitness app: a user signs in (the sign-in flow itself is mocked),
builds workout plans out of exercises, and sets reminder alarms. Everything it keeps lives in
the browser's `localStorage` under three keys: `gym_plans` (the ordered plan collection),
`gym_alarms` (the ordered alarm collection) and `gym_user` (the signed-in user).

This project models the layer that reads and rewrites those collections, view by view:

- `types.dfy` (`Types`): the records `Exercise`, `WorkoutPlan`, `User` (identifier field `rrr`)
  and `Alarm`.
- `storage.dfy` (`Storage`): the store as a `map<string, Value>` of typed values (JSON text is
  not modelled), the three keys, typed reads, and the `LocalStore` object with `setItem`, which
  every view calls, and `removeItem`, which logout calls. `WellFormed` says that each key holds the shape the app casts
  it to; every view method keeps it.
- `lists.dfy` (`Lists`): `Filter` and `Map`, the `filter` and `map` the views call (`find` is
  `FindPlan`, `slice` is a sequence slice in `CardOf`, and appends and prepends are
  concatenation), with their laws: order kept under concatenation, a
  filter that rejects nothing is the identity, filtering is idempotent.
- `text.dfy` (`Text`): `String.prototype.trim` over the ECMAScript white-space and
  line-terminator characters, and the fact that a string trims to `''` exactly when it is all
  white space.
- `workout_editor.dfy` (`PlanEditor`): the exercise list edits, how the editor opens a plan, and
  `handleSave`; the `WorkoutEditor` class holds the four form fields and the route id.
- `alarm_settings.dfy` (`AlarmSettingsView`): adding, toggling and removing alarms; the
  `AlarmSettings` class holds the list and the two form fields and rewrites `gym_alarms` after
  every change.
- `dashboard.dfy` (`DashboardView`): loading (and on a first visit seeding) the plans, deleting
  a plan, and the card each plan gets.
- `app.dfy` (`AppShell`): restoring the session, login, logout, and the route gate.

Each view is a class whose fields are the component's state and which holds the shared
`LocalStore`. Its methods state the new state and the new store contents in terms of pure
functions of the old ones, and the properties are proved about those functions. Random ids and
`Date.now()` are method parameters (`freshId`, `now`).

Some behaviours differ from what a reader might expect; the model follows the code:

- Only the empty title is refused on save. A title of spaces is accepted.
- An alarm's label falls back to "Workout Reminder" only when the label field is exactly empty.
- Stored data that does not parse is not recovered as an empty collection: the code has no guard
  around `JSON.parse`, so the model assumes `WellFormed` instead.
- Whether a save replaces or prepends is decided by `isEditing`, and `isEditing` is set at load
  time only. Opening `/workout/edit/<id>` with an id that names no stored plan gives an empty form
  with no exercise row. Saving that form prepends a new plan that carries this id.
- Plan ids are not checked for uniqueness. Editing replaces every plan with the route id, and
  deleting removes every plan with the id.
- In the type `Alarm`, the field `label` is called `labelText`, because `label` is a Dafny keyword.

## Model

| member | source | states |
|---|---|---|
| `Storage.StoredPlans` | webpage/views/Dashboard.tsx:12-14 | the read is present exactly when `gym_plans` is in the store, and then it is the stored collection |
| `Storage.PlansOrEmpty` | webpage/views/WorkoutEditor.tsx:56 | a missing `gym_plans` key reads as the empty collection, a present one as the stored collection |
| `Storage.StoredAlarms` | webpage/views/AlarmSettings.tsx:11-13 | the read is present exactly when `gym_alarms` is in the store, and then it is the stored list |
| `Storage.StoredUser` | webpage/App.tsx:16-18 | the read is present exactly when `gym_user` is in the store, and then it is the stored user |
| `Storage.WriteThenRead` | webpage/App.tsx:25 | writing a value of the right shape keeps the store well formed, and reading that key back returns what was written |
| `Storage.LocalStore.SetItem` | webpage/views/WorkoutEditor.tsx:73 | the key now maps to the value and every other key is unchanged |
| `Storage.LocalStore.RemoveItem` | webpage/App.tsx:30 | the key is gone and every other key is unchanged; removing an absent key changes nothing |
| `Lists.Filter` | webpage/views/WorkoutEditor.tsx:46 | the result is no longer than the input, every element of it is an accepted element of the input, and every accepted element of the input is in it |
| `Lists.FilterConcat` | webpage/views/WorkoutEditor.tsx:46 | filtering distributes over concatenation, so survivors keep their relative order |
| `Lists.FilterKeepsAll` | webpage/views/AlarmSettings.tsx:48 | a filter that accepts every element returns its input unchanged |
| `Lists.FilterIdempotent` | webpage/views/Dashboard.tsx:37 | filtering a second time with the same test changes nothing |
| `Lists.Map` | webpage/views/WorkoutEditor.tsx:50 | the result has the input's length and element i is f applied to input element i |
| `Text.TrimStart` | webpage/views/WorkoutEditor.tsx:62 | the result is a suffix of the input, everything removed is white space, and it does not start with white space |
| `Text.TrimEnd` | webpage/views/WorkoutEditor.tsx:62 | the result is a prefix of the input, everything removed is white space, and it does not end with white space |
| `Text.Trim` | webpage/views/WorkoutEditor.tsx:62 | the result is a slice of the input with only white space cut from either end, and it neither starts nor ends with white space |
| `Text.TrimEmptyIff` | webpage/views/WorkoutEditor.tsx:62 | `trim()` gives `''` if and only if the string is all white space |
| `PlanEditor.FieldsDetermineExercise` | webpage/types.ts:2-8 | two exercises that agree on all five fields are equal |
| `PlanEditor.Apply` | webpage/views/WorkoutEditor.tsx:50 | `{ ...e, [field]: value }` gives the named field the new value and leaves every other field as it was |
| `PlanEditor.AppendExercise` | webpage/views/WorkoutEditor.tsx:34-42 | one exercise is added at the end with the given id, name `''`, 3 sets, 10 reps and rest `'60s'`; the earlier entries are unchanged |
| `PlanEditor.WithoutExercise` | webpage/views/WorkoutEditor.tsx:45-46 | no exercise with the id remains, every other exercise remains, and an absent id leaves the list unchanged |
| `PlanEditor.WithoutExerciseSplits` | webpage/views/WorkoutEditor.tsx:46 | removal splits over any cut of the list, so the remaining exercises keep their order |
| `PlanEditor.UpdatedExercises` | webpage/views/WorkoutEditor.tsx:49-51 | the length is kept; matching entries get the new value in the named field; every other field of every entry, and every field of non-matching entries, is unchanged |
| `PlanEditor.UpdateAbsentId` | webpage/views/WorkoutEditor.tsx:50 | an update whose id matches no entry returns the list unchanged |
| `PlanEditor.NamedExercises` | webpage/views/WorkoutEditor.tsx:62 | the kept exercises are exactly the input's exercises whose name is not all white space, kept as they are (names not trimmed); the result is no longer than the input, and a list with no blank name is kept unchanged |
| `PlanEditor.NamedExercisesSplits` | webpage/views/WorkoutEditor.tsx:62 | dropping blank-named exercises splits over any cut of the list, so order is kept |
| `PlanEditor.NamedSingleton` | webpage/views/WorkoutEditor.tsx:62 | a one-exercise list is dropped by the save filter exactly when its name is all white space, and kept unchanged otherwise |
| `PlanEditor.BlankExerciseDropped` | webpage/views/WorkoutEditor.tsx:62 | exercises `[Squat, blank]` save as `[Squat]` |
| `PlanEditor.FindPlan` | webpage/views/WorkoutEditor.tsx:20 | `find` fails exactly when no plan has the id; otherwise it gives a plan with that id with no plan with that id before it |
| `PlanEditor.FindPlanFirst` | webpage/views/WorkoutEditor.tsx:20 | `find` returns the plan at the first index carrying the id |
| `PlanEditor.Opened` | webpage/views/WorkoutEditor.tsx:15-32 | editing is on exactly when a route id is given and names a stored plan, and then the form is that plan's title, description and exercises; with no route id the form is empty with one default exercise; with an unknown id the form is empty with no exercise |
| `PlanEditor.PlanId` | webpage/views/WorkoutEditor.tsx:58 | the plan id is the route id when there is one, otherwise the fresh id |
| `PlanEditor.NewPlan` | webpage/views/WorkoutEditor.tsx:57-64 | the saved plan has the route id or the fresh id, owner `current-user`, the current time, the form's title and description, and the form's exercises minus the blank-named ones |
| `PlanEditor.ReplacePlan` | webpage/views/WorkoutEditor.tsx:68 | the length is kept, every plan with the id is replaced in place, the others are untouched, and with no match the collection is unchanged |
| `PlanEditor.SavedPlans` | webpage/views/WorkoutEditor.tsx:53-71 | nothing is written exactly when the title is `''`; a new plan is written as the new plan followed by the old collection in order; an edited plan is written as the old collection with its namesakes replaced |
| `PlanEditor.SaveThenFind` | webpage/views/WorkoutEditor.tsx:66-73 | after a save, finding the saved plan's id gives the saved plan, except that an edit whose id no longer names any stored plan leaves the collection unchanged |
| `PlanEditor.ReplaceThenFind` | webpage/views/WorkoutEditor.tsx:68 | when some stored plan has the plan's id, finding that id after the replacement gives the new plan |
| `PlanEditor.WorkoutEditor.constructor` | webpage/views/WorkoutEditor.tsx:6-32 | the form starts as `Opened` on the stored plans, and editing implies a route id |
| `PlanEditor.WorkoutEditor.SetTitle` | webpage/views/WorkoutEditor.tsx:104 | only the title changes |
| `PlanEditor.WorkoutEditor.SetDescription` | webpage/views/WorkoutEditor.tsx:114 | only the description changes |
| `PlanEditor.WorkoutEditor.AddExercise` | webpage/views/WorkoutEditor.tsx:34-43 | the exercise list becomes `AppendExercise` of the old one and the other fields are unchanged |
| `PlanEditor.WorkoutEditor.RemoveExercise` | webpage/views/WorkoutEditor.tsx:45-47 | the exercise list becomes `WithoutExercise` of the old one and the other fields are unchanged |
| `PlanEditor.WorkoutEditor.UpdateExercise` | webpage/views/WorkoutEditor.tsx:49-51 | the exercise list becomes `UpdatedExercises` of the old one and the other fields are unchanged |
| `PlanEditor.WorkoutEditor.Save` | webpage/views/WorkoutEditor.tsx:53-75 | it saves exactly when the title is not `''`; a saved `SavedPlans` collection replaces `gym_plans`, read with a missing key as empty; a refused save leaves the store as it was |
| `AlarmSettingsView.NewAlarm` | webpage/views/AlarmSettings.tsx:21-27 | the new alarm is active, owned by `current-user`, has the given id and time, and has the form's label or `'Workout Reminder'` when that is empty |
| `AlarmSettingsView.AppendAlarm` | webpage/views/AlarmSettings.tsx:19-29 | an empty time adds nothing; otherwise exactly one new alarm is added at the end and the earlier alarms are unchanged |
| `AlarmSettingsView.AppendTwice` | webpage/views/AlarmSettings.tsx:29 | adding A and then B gives the old list followed by A then B |
| `AlarmSettingsView.Toggled` | webpage/views/AlarmSettings.tsx:41-42 | the length and order are kept, every field but `isActive` is kept, and `isActive` flips exactly on the entries with the id |
| `AlarmSettingsView.ToggleTwice` | webpage/views/AlarmSettings.tsx:42 | toggling the same id twice restores the original list |
| `AlarmSettingsView.WithoutAlarm` | webpage/views/AlarmSettings.tsx:47-48 | no alarm with the id remains, every other alarm remains, and an absent id leaves the list unchanged |
| `AlarmSettingsView.WithoutAlarmOrderAndRepeat` | webpage/views/AlarmSettings.tsx:48 | removal keeps the survivors in order, and removing again changes nothing |
| `AlarmSettingsView.AlarmSettings.constructor` | webpage/views/AlarmSettings.tsx:5-15 | the list is the stored alarms when `gym_alarms` is present and empty otherwise; both form fields are `''`; nothing is written |
| `AlarmSettingsView.AlarmSettings.SetTime` | webpage/views/AlarmSettings.tsx:73 | only the time field changes |
| `AlarmSettingsView.AlarmSettings.SetLabel` | webpage/views/AlarmSettings.tsx:84 | only the label field changes |
| `AlarmSettingsView.AlarmSettings.AddAlarm` | webpage/views/AlarmSettings.tsx:17-34 | with an empty time, neither the state nor the store changes; otherwise the list becomes `AppendAlarm` of the old one, both form fields become `''`, and `gym_alarms` holds the new list |
| `AlarmSettingsView.AlarmSettings.ToggleAlarm` | webpage/views/AlarmSettings.tsx:41-45 | the list becomes `Toggled` of the old one and `gym_alarms` holds the new list |
| `AlarmSettingsView.AlarmSettings.RemoveAlarm` | webpage/views/AlarmSettings.tsx:47-51 | the list becomes `WithoutAlarm` of the old one and `gym_alarms` holds the new list |
| `DashboardView.SamplePlans` | webpage/views/Dashboard.tsx:17-29 | exactly one sample plan: id `'1'`, the current time, and the two exercises Pushups and Burpees with their sets, reps and rest |
| `DashboardView.WithoutPlan` | webpage/views/Dashboard.tsx:37 | no plan with the id remains, every other plan remains, and an absent id leaves the collection unchanged |
| `DashboardView.WithoutPlanOrderAndRepeat` | webpage/views/Dashboard.tsx:37 | deletion keeps the other plans in order, and deleting again changes nothing |
| `DashboardView.CardOf` | webpage/views/Dashboard.tsx:79-96 | the card shows the plan's exercise count, the first min(3, n) exercise names in order, and "+(n-3) more" exactly when n > 3 |
| `DashboardView.BoardOf` | webpage/views/Dashboard.tsx:57-116 | placeholders exactly while loading; "No plans found" exactly when loaded and empty; otherwise one card per plan, in order |
| `DashboardView.Dashboard.constructor` | webpage/views/Dashboard.tsx:7-8 | no plans, loading |
| `DashboardView.Dashboard.Load` | webpage/views/Dashboard.tsx:10-34 | stored plans are shown as they are and nothing is written; with no stored plans the sample plan is shown and written; either way the store agrees with the shown plans and loading ends |
| `DashboardView.Dashboard.DeletePlan` | webpage/views/Dashboard.tsx:36-40 | the plans become `WithoutPlan` of the old ones and `gym_plans` holds them |
| `AppShell.Gate` | webpage/App.tsx:47-66 | each protected route shows its view if and only if a user is present and otherwise redirects to `/login`; `/login` shows the login view if and only if no user is present and otherwise redirects to `/` |
| `AppShell.Render` | webpage/App.tsx:33-44 | only the spinner is shown while loading, with no navbar and no routes; afterwards the navbar is shown exactly when a user is present, above the gated view |
| `AppShell.RestoreAfterLoginOrLogout` | webpage/App.tsx:15-31 | a restore after login gives the user who logged in; a restore after logout gives nobody |
| `AppShell.App.constructor` | webpage/App.tsx:12-13 | nobody signed in, loading |
| `AppShell.App.Restore` | webpage/App.tsx:15-21 | run once from the initial state (loading, nobody signed in): the user is the stored `gym_user` record when present and nobody otherwise; loading ends; the store is not written |
| `AppShell.App.Login` | webpage/App.tsx:23-26 | from any state, the user becomes the given user and `gym_user` holds it |
| `AppShell.App.Logout` | webpage/App.tsx:28-31 | the user becomes nobody and `gym_user` is removed; logging out twice is the same as logging out once |

## Left out

- JSON text: the store holds typed values, and `WellFormed` stands for "every stored value parses as the type the app casts it to". The source has no guard for malformed data, so none is modelled.
- Random ids (`Math.random`) and `Date.now()`: these are the `freshId` and `now` parameters. Nothing is claimed about the uniqueness of ids.
- `parseInt` can give `NaN` for sets and reps. Sets and reps are integers here.
- JSX markup, styling, the navbar's own contents (webpage/components/Navbar.tsx) and the mocked login view (webpage/views/Login.tsx) are not modelled. The login view only appears as the value `LoginView` and as the `User` handed to `Login`.
- The `alert` on a refused save, `navigate('/')` after a save, and the notification-permission request after adding an alarm are browser calls, not modelled.
- React-router path matching: the model starts from a matched `Route`. A path that matches no declared route renders no view.
- `EditWorkoutRoute` carries whatever string the `:id` segment matched. React Router never matches an empty segment, so `EditWorkoutRoute("")` does not arise from a path; the model does not exclude it, and the editor then treats it as a new plan, as the falsy `id` check would.
- React effect scheduling: each view's load effect runs exactly once. For the editor and the alarm view it runs as part of the constructor (`WorkoutEditor`, `AlarmSettings`). For the dashboard and the app it is a separate method called after the constructor (`Dashboard.Load`, `App.Restore`).
- Stale closures are not modelled. In the source, `addExercise` runs inside the editor's first effect and sees the initial empty list. The model gives the same result: one blank exercise.
- Several tabs writing to the store at once: the app assumes a single writer.
