/** The models of app/models.py that the core uses: their rows, the derived
    fields (`UserProfile.age`, `UserWorkoutLog.duration_actual`), the unique
    constraints as table invariants, and the 1..5 satisfaction validators.

    A `TimeField` value is its number of microseconds after midnight; a
    `DateField` value is a day ordinal (see Calendar). */
module Models {
  import opened Wrappers
  import opened Calendar
  import Tables

  /** Microseconds in one day. */
  const MicrosPerDay: int := 86_400_000_000

  /** Microseconds after midnight of a `TimeField` value (Python's `time`
      keeps microseconds). */
  predicate ValidTime(t: int) {
    0 <= t < MicrosPerDay
  }

  datatype Workout = Workout(id: nat, user: nat, name: string, date: int, completed: bool)

  datatype Meal = Meal(
    id: nat,
    name: string,
    calories: int,
    isVegan: bool,
    isVegetarian: bool,
    isGlutenFree: bool,
    isDairyFree: bool)

  datatype UserWorkoutLog = UserWorkoutLog(
    id: nat,
    user: nat,
    workout: nat,
    date: int,
    startTime: Option<int>,
    endTime: Option<int>,
    completed: bool,
    satisfaction: Option<int>,
    notes: string)

  datatype UserMealLog = UserMealLog(
    id: nat,
    user: nat,
    meal: nat,
    date: int,
    satisfaction: Option<int>,
    notes: string)

  /** A progress entry; the three flags say whether each photo is set. */
  datatype Progress = Progress(
    id: nat,
    user: nat,
    date: int,
    frontImage: bool,
    sideImage: bool,
    backImage: bool)

  // ------------------------------------------------------- UserProfile.age

  /** The age `save` stores: years between the birth date and today, less one
      when today's (month, day) comes before the birthday's. It is the number of
      birthdays passed: the `r`-th anniversary is not after today, the next one is. */
  function AgeOn(dob: Date, today: Date): (r: int)
    ensures !Before(today, Date(dob.year + r, dob.month, dob.day))
    ensures Before(today, Date(dob.year + r + 1, dob.month, dob.day))
    ensures r >= 0 <==> !Before(today, dob)
  {
    today.year - dob.year
      - (if today.month < dob.month || (today.month == dob.month && today.day < dob.day) then 1 else 0)
  }

  /** The age is the only count of years with that property. */
  lemma AgeUnique(dob: Date, today: Date, n: int)
    requires !Before(today, Date(dob.year + n, dob.month, dob.day))
    requires Before(today, Date(dob.year + n + 1, dob.month, dob.day))
    ensures n == AgeOn(dob, today)
  {
  }

  /** A profile row. `age` is not editable: only `Save` writes it. */
  class UserProfile {
    const user: nat
    var dateOfBirth: Date
    var age: Option<int>

    constructor (user: nat, dateOfBirth: Date)
      ensures this.user == user && this.dateOfBirth == dateOfBirth && age == None
    {
      this.user := user;
      this.dateOfBirth := dateOfBirth;
      age := None;
    }

    /** `UserProfile.save`: the age is recomputed from the birth date on
        every save, whatever it was before, and then the row is written.
        `age` is a `PositiveIntegerField`, whose column carries the CHECK
        `age >= 0`: a birth date after today gives a negative age, and the
        write fails with IntegrityError (the attribute is set all the same). */
    method Save(today: Date) returns (r: Result<(), Tables.IntegrityError>)
      modifies this`age
      ensures age == Some(AgeOn(dateOfBirth, today))
      ensures r.Ok? <==> !Before(today, dateOfBirth)
      ensures r.Err? ==> r.error == Tables.CheckFailed("age")
    {
      var years := AgeOn(dateOfBirth, today);
      age := Some(years);
      if years < 0 {
        return Err(Tables.CheckFailed("age"));
      }
      return Ok(());
    }
  }

  // ------------------------------------------- UserWorkoutLog.duration_actual

  /** `duration_actual` in microseconds: end minus start on the log's own date when
      both times are set, and no duration otherwise. A log that ends before it
      starts has a negative duration. */
  function DurationActual(log: UserWorkoutLog): (r: Option<int>)
    ensures r.Some? <==> log.startTime.Some? && log.endTime.Some?
    ensures r.Some? ==> log.startTime.value + r.value == log.endTime.value
    ensures r.Some? && ValidTime(log.startTime.value) && ValidTime(log.endTime.value) ==> -MicrosPerDay < r.value < MicrosPerDay
  {
    if log.startTime.Some? && log.endTime.Some? then Some(log.endTime.value - log.startTime.value)
    else None
  }

  // ---------------------------------------------------- unique constraints

  function WorkoutKey(w: Workout): (nat, string, int) { (w.user, w.name, w.date) }
  function WorkoutLogKey(l: UserWorkoutLog): (nat, nat, int) { (l.user, l.workout, l.date) }
  function ProgressKey(p: Progress): (nat, int) { (p.user, p.date) }
  function MealKey(m: Meal): string { m.name }

  /** `Workout.Meta.unique_together = ['user', 'name', 'date']`. */
  ghost predicate WorkoutsUnique(rows: seq<Workout>) {
    forall i, j :: 0 <= i < j < |rows| ==> WorkoutKey(rows[i]) != WorkoutKey(rows[j])
  }

  /** `UserWorkoutLog.Meta.unique_together = ['user', 'workout', 'date']`. */
  ghost predicate WorkoutLogsUnique(rows: seq<UserWorkoutLog>) {
    forall i, j :: 0 <= i < j < |rows| ==> WorkoutLogKey(rows[i]) != WorkoutLogKey(rows[j])
  }

  /** `Progress.Meta.unique_together = ['user', 'date']`. */
  ghost predicate ProgressUnique(rows: seq<Progress>) {
    forall i, j :: 0 <= i < j < |rows| ==> ProgressKey(rows[i]) != ProgressKey(rows[j])
  }

  /** `Meal.name = CharField(unique=True)`. */
  ghost predicate MealNamesUnique(rows: seq<Meal>) {
    forall i, j :: 0 <= i < j < |rows| ==> rows[i].name != rows[j].name
  }

  function InsertWorkout(rows: seq<Workout>, w: Workout): Result<seq<Workout>, Tables.IntegrityError> {
    Tables.InsertUnique(rows, w, WorkoutKey)
  }

  function InsertWorkoutLog(rows: seq<UserWorkoutLog>, l: UserWorkoutLog): Result<seq<UserWorkoutLog>, Tables.IntegrityError> {
    Tables.InsertUnique(rows, l, WorkoutLogKey)
  }

  function InsertProgress(rows: seq<Progress>, p: Progress): Result<seq<Progress>, Tables.IntegrityError> {
    Tables.InsertUnique(rows, p, ProgressKey)
  }

  function InsertMeal(rows: seq<Meal>, m: Meal): Result<seq<Meal>, Tables.IntegrityError> {
    Tables.InsertUnique(rows, m, MealKey)
  }

  /** A second workout for the same user, name and date is refused, and the
      table keeps at most one workout per (user, name, date). */
  lemma WorkoutTableInvariant(rows: seq<Workout>, w: Workout)
    requires WorkoutsUnique(rows)
    ensures InsertWorkout(rows, w).Ok? <==> forall i :: 0 <= i < |rows| ==> WorkoutKey(rows[i]) != WorkoutKey(w)
    ensures InsertWorkout(rows, w).Ok? ==> WorkoutsUnique(InsertWorkout(rows, w).value)
  {
    Tables.InsertKeepsUnique(rows, w, WorkoutKey);
  }

  /** At most one log per (user, workout, date). */
  lemma WorkoutLogTableInvariant(rows: seq<UserWorkoutLog>, l: UserWorkoutLog)
    requires WorkoutLogsUnique(rows)
    ensures InsertWorkoutLog(rows, l).Ok? <==> forall i :: 0 <= i < |rows| ==> WorkoutLogKey(rows[i]) != WorkoutLogKey(l)
    ensures InsertWorkoutLog(rows, l).Ok? ==> WorkoutLogsUnique(InsertWorkoutLog(rows, l).value)
  {
    Tables.InsertKeepsUnique(rows, l, WorkoutLogKey);
  }

  /** At most one progress entry per (user, date). */
  lemma ProgressTableInvariant(rows: seq<Progress>, p: Progress)
    requires ProgressUnique(rows)
    ensures InsertProgress(rows, p).Ok? <==> forall i :: 0 <= i < |rows| ==> ProgressKey(rows[i]) != ProgressKey(p)
    ensures InsertProgress(rows, p).Ok? ==> ProgressUnique(InsertProgress(rows, p).value)
  {
    Tables.InsertKeepsUnique(rows, p, ProgressKey);
  }

  /** Meal names are unique across the Meal table. */
  lemma MealTableInvariant(rows: seq<Meal>, m: Meal)
    requires MealNamesUnique(rows)
    ensures InsertMeal(rows, m).Ok? <==> forall i :: 0 <= i < |rows| ==> rows[i].name != m.name
    ensures InsertMeal(rows, m).Ok? ==> MealNamesUnique(InsertMeal(rows, m).value)
  {
    Tables.InsertKeepsUnique(rows, m, MealKey);
  }

  // ------------------------------------------------- satisfaction validators

  datatype SatisfactionError = BelowMinimum | AboveMaximum

  predicate InSatisfactionRange(s: Option<int>) {
    s.None? || 1 <= s.value <= 5
  }

  /** `MinValueValidator(1)` and `MaxValueValidator(5)` on the nullable
      `satisfaction` of workout logs and meal logs: an unset value is not
      validated; a set value passes exactly when it is in 1..5. */
  function ValidateSatisfaction(s: Option<int>): (r: Result<Option<int>, SatisfactionError>)
    ensures r.Ok? <==> InSatisfactionRange(s)
    ensures r.Ok? ==> r.value == s
    ensures r.Err? ==> (r.error == BelowMinimum <==> s.value < 1)
  {
    if s.None? then Ok(s)
    else if s.value < 1 then Err(BelowMinimum)
    else if s.value > 5 then Err(AboveMaximum)
    else Ok(s)
  }
}
