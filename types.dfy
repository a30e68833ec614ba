/** The records of the app (webpage/types.ts), as Dafny values. */
module Types {

  /** `T | null` and optional fields. */
  datatype Option<+T> = None | Some(value: T)

  /** One movement within a plan. `sets` and `reps` are JavaScript numbers, taken as integers. */
  datatype Exercise = Exercise(id: string, name: string, reps: int, sets: int, restTime: string)

  /** A named, ordered list of exercises; `createdAt` is an epoch time in milliseconds. */
  datatype WorkoutPlan = WorkoutPlan(
    id: string,
    userId: string,
    title: string,
    description: string,
    exercises: seq<Exercise>,
    createdAt: int)

  /** The signed-in identity; its identifier field is called `rrr`. */
  datatype User = User(rrr: string, emailId: string, phoneNumber: Option<string>, createdAt: int)

  /** A reminder; `time` is an "HH:mm" string. The source field `label` is `labelText` here (`label` is a Dafny keyword). */
  datatype Alarm = Alarm(id: string, userId: string, time: string, labelText: string, isActive: bool)

  /** The owner tag the editor and the alarm form put on every record they create. */
  const CurrentUser: string := "current-user"
}
