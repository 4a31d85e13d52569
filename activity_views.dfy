/** The integer and date arithmetic of app/views.py: the activity streak of
    `user_stats`, the week of `weekly_progress`, the month of
    `monthly_analytics` and `workout_calendar`, the water totals of
    `WaterLogViewSet.create` and `quick_log_water`, and the heart-rate
    `bulk` sync and `list` statistics.

    Dates are day ordinals (see Calendar); `date.today()` is the parameter
    `today`. */
module ActivityViews {
  import opened Wrappers
  import opened Calendar
  import opened Tables
  import opened Entities
  import Models

  // ------------------------------------------------------------ activity

  /** A completed workout log of the user on day `d`. */
  predicate CompletedLogOn(logs: seq<Models.UserWorkoutLog>, user: nat, d: int) {
    exists i :: 0 <= i < |logs| && logs[i].user == user && logs[i].date == d && logs[i].completed
  }

  /** A cardio session of the user started on day `d`. */
  predicate CardioOn(cardio: seq<CardioSession>, user: nat, d: int) {
    exists i :: 0 <= i < |cardio| && cardio[i].user == user && cardio[i].startedOn == d
  }

  predicate HasActivity(logs: seq<Models.UserWorkoutLog>, cardio: seq<CardioSession>, user: nat, d: int) {
    CompletedLogOn(logs, user, d) || CardioOn(cardio, user, d)
  }

  // -------------------------------------------------------------- streak

  /** The streak of `user_stats`: counting back from today, the days in a row
      with a completed workout log or a cardio session. It is 0 when today has
      neither. When every day back to 1 January of year 1 is active, stepping
      before it overflows. */
  method Streak(logs: seq<Models.UserWorkoutLog>, cardio: seq<CardioSession>, user: nat, today: int) returns (r: Result<nat, ViewError>)
    requires ValidOrdinal(today)
    ensures r.Ok? ==> r.value < today
    ensures r.Ok? ==> forall d :: today - r.value < d <= today ==> HasActivity(logs, cardio, user, d)
    ensures r.Ok? ==> !HasActivity(logs, cardio, user, today - r.value)
    ensures r.Err? ==> r.error == OverflowError && forall d :: 1 <= d <= today ==> HasActivity(logs, cardio, user, d)
    ensures !HasActivity(logs, cardio, user, today) ==> r == Ok(0)
  {
    var streak: nat := 0;
    var check := today;
    while HasActivity(logs, cardio, user, check)
      invariant 1 <= check <= today && streak == today - check
      invariant forall d :: check < d <= today ==> HasActivity(logs, cardio, user, d)
      decreases check
    {
      streak := streak + 1;
      if check == 1 {
        return Err(OverflowError);
      }
      check := check - 1;
    }
    return Ok(streak);
  }

  // ------------------------------------------------------------ the week

  /** The `week_start` query parameter: absent, a date as parsed, or text
      that is not a `YYYY-MM-DD` date. */
  datatype DateParam = Absent | Parsed(ordinal: int) | Malformed

  /** The part of the weekly summary that is integer arithmetic: the week's
      bounds, whether each of its seven days has a completed workout, how
      many do, and the profile's weekly target. */
  datatype WeekSummary = WeekSummary(weekStart: int, weekEnd: int, workoutCompleted: seq<bool>, workoutsCompleted: nat, workoutsTarget: int)

  predicate IsTrue(b: bool) { b }

  /** `weekly_progress`: the week starts on the given date, or on the Monday
      of the current week, and ends six days later; a start within six days of
      the last representable date overflows. `target` is the user's profile's
      `workouts_per_week`, None when the user has no profile: the final
      `user.profile` lookup then raises and the view fails. */
  method WeeklyProgress(logs: seq<Models.UserWorkoutLog>, user: nat, target: Option<int>, param: DateParam, today: int)
    returns (r: Result<WeekSummary, ViewError>)
    requires ValidOrdinal(today)
    requires param.Parsed? ==> ValidOrdinal(param.ordinal)
    ensures param.Malformed? ==> r == Err(BadRequest("Invalid date format. Use YYYY-MM-DD."))
    ensures !param.Malformed? ==>
              (var start := if param.Parsed? then param.ordinal else WeekStartOf(today);
               (r.Ok? <==> start + 6 <= MaxOrdinal && target.Some?)
               && (start + 6 > MaxOrdinal ==> r == Err(OverflowError))
               && (start + 6 <= MaxOrdinal && target.None? ==> r == Err(DoesNotExist))
               && (r.Ok? ==> r.value.weekStart == start && r.value.weekEnd == start + 6 && r.value.workoutsTarget == target.value))
    ensures r.Ok? ==> |r.value.workoutCompleted| == 7
                      && (forall i :: 0 <= i < 7 ==>
                            (r.value.workoutCompleted[i] <==> CompletedLogOn(logs, user, r.value.weekStart + i)))
                      && r.value.workoutsCompleted == Count(r.value.workoutCompleted, IsTrue)
    ensures r.Ok? && param.Absent? ==>
              Weekday(r.value.weekStart) == 0 && Weekday(r.value.weekEnd) == 6
              && r.value.weekStart <= today <= r.value.weekEnd
  {
    var start: int;
    if param.Malformed? {
      return Err(BadRequest("Invalid date format. Use YYYY-MM-DD."));
    } else if param.Parsed? {
      start := param.ordinal;
    } else {
      start := WeekStartOf(today);
    }
    var end := WeekEnd(start);
    if end.None? {
      return Err(OverflowError);
    }
    var flags: seq<bool> := [];
    for i := 0 to 7
      invariant |flags| == i
      invariant forall j :: 0 <= j < i ==> (flags[j] <==> CompletedLogOn(logs, user, start + j))
    {
      flags := flags + [CompletedLogOn(logs, user, start + i)];
    }
    if target.None? {
      return Err(DoesNotExist);
    }
    return Ok(WeekSummary(start, end.value, flags, Count(flags, IsTrue), target.value));
  }

  // ----------------------------------------------------------- the month

  /** The month asked for (`?month=YYYY-MM`, as parsed), or the current one. */
  function ChosenMonth(month: Option<(int, int)>, today: Date): (int, int) {
    if month.Some? then month.value else (today.year, today.month)
  }

  /** `month_start` and `month_end` of `monthly_analytics` and
      `workout_calendar`: the first and last day of the month. A month that
      is not a date raises `ValueError`, and so does December 9999, whose
      following January does not exist. */
  function MonthBounds(month: Option<(int, int)>, today: Date): (r: Result<(int, int), ViewError>)
    requires ValidDate(today)
    ensures var (y, m) := ChosenMonth(month, today);
      r.Ok? <==> MinYear <= y <= MaxYear && 1 <= m <= 12 && !(y == MaxYear && m == 12)
    ensures r.Err? ==> r.error == ValueError
    ensures r.Ok? ==>
      var (y, m) := ChosenMonth(month, today);
      r.value.0 == ToOrdinal(Date(y, m, 1)) && r.value.1 == ToOrdinal(Date(y, m, DaysInMonth(y, m)))
      && r.value.1 - r.value.0 + 1 == DaysInMonth(y, m)
  {
    var (y, m) := ChosenMonth(month, today);
    var start := MonthStart(y, m);
    if start.None? then Err(ValueError)
    else
      var end := MonthEnd(y, m);
      if end.None? then Err(ValueError)
      else
        MonthSpan(y, m);
        Ok((start.value, end.value))
  }

  /** `days = (month_end - month_start).days + 1` is the length of the month,
      so the `days > 0` guard of `monthly_analytics` always holds. */
  lemma MonthDaysPositive(month: Option<(int, int)>, today: Date)
    requires ValidDate(today) && MonthBounds(month, today).Ok?
    ensures var (s, e) := MonthBounds(month, today).value;
      28 <= e - s + 1 <= 31
  {
    var (y, m) := ChosenMonth(month, today);
    var n := DaysInMonth(y, m);
  }

  /** One calendar entry. */
  datatype CalendarDay = CalendarDay(hasWorkout: bool, workoutCompleted: bool, hasCardio: bool, totalActivities: nat)

  function LogOn(user: nat, d: int): Models.UserWorkoutLog -> bool {
    (l: Models.UserWorkoutLog) => l.user == user && l.date == d
  }

  function CompletedLog(user: nat, d: int): Models.UserWorkoutLog -> bool {
    (l: Models.UserWorkoutLog) => l.user == user && l.date == d && l.completed
  }

  function SessionOn(user: nat, d: int): CardioSession -> bool {
    (c: CardioSession) => c.user == user && c.startedOn == d
  }

  /** The entry of day `d`: how many workout logs, completed logs and cardio
      sessions of the user the day has. */
  function DayOf(logs: seq<Models.UserWorkoutLog>, cardio: seq<CardioSession>, user: nat, d: int): CalendarDay {
    var w := Count(logs, LogOn(user, d));
    var done := Count(logs, CompletedLog(user, d));
    var s := Count(cardio, SessionOn(user, d));
    CalendarDay(w > 0, done > 0, s > 0, w + s)
  }

  /** An entry has a workout exactly when the day has a log of the user, a
      completed workout exactly when it has a completed log, cardio exactly
      when a session started that day, and no activity exactly when it has
      neither; a completed workout is a workout. */
  lemma DayOfMeaning(logs: seq<Models.UserWorkoutLog>, cardio: seq<CardioSession>, user: nat, d: int)
    ensures var c := DayOf(logs, cardio, user, d);
      (c.hasWorkout <==> exists i :: 0 <= i < |logs| && logs[i].user == user && logs[i].date == d)
      && (c.workoutCompleted <==> CompletedLogOn(logs, user, d))
      && (c.hasCardio <==> CardioOn(cardio, user, d))
      && (c.workoutCompleted ==> c.hasWorkout)
      && (c.totalActivities == 0 <==> !c.hasWorkout && !c.hasCardio)
  {
    var c := DayOf(logs, cardio, user, d);
    if c.workoutCompleted {
      var i :| 0 <= i < |logs| && CompletedLog(user, d)(logs[i]);
      assert LogOn(user, d)(logs[i]);
    }
  }

  /** `workout_calendar`: one entry per day of the month, keyed by the day (the
      source keys it by the day's ISO text, which is one-to-one with it). */
  method WorkoutCalendar(logs: seq<Models.UserWorkoutLog>, cardio: seq<CardioSession>, user: nat, month: Option<(int, int)>, today: Date)
    returns (r: Result<map<int, CalendarDay>, ViewError>)
    requires ValidDate(today)
    ensures r.Err? <==> MonthBounds(month, today).Err?
    ensures r.Err? ==> r.error == ValueError
    ensures r.Ok? ==>
      var (s, e) := MonthBounds(month, today).value;
      (forall d :: d in r.value <==> s <= d <= e)
      && (forall d :: d in r.value ==> r.value[d] == DayOf(logs, cardio, user, d))
      && |r.value| == DaysInMonth(ChosenMonth(month, today).0, ChosenMonth(month, today).1)
  {
    var bounds := MonthBounds(month, today);
    if bounds.Err? {
      return Err(bounds.error);
    }
    var s, e := bounds.value.0, bounds.value.1;
    var calendar := FillCalendar(d => DayOf(logs, cardio, user, d), s, e);
    return Ok(calendar);
  }

  /** The `while current_date <= month_end` loop of `workout_calendar`: the
      entry `day(d)` for each day `d` from `s` to `e`. */
  method FillCalendar(day: int -> CalendarDay, s: int, e: int)
    returns (calendar: map<int, CalendarDay>)
    requires s <= e + 1
    ensures forall d :: d in calendar <==> s <= d <= e
    ensures forall d :: d in calendar ==> calendar[d] == day(d)
    ensures |calendar| == e - s + 1
  {
    calendar := map[];
    var current := s;
    while current <= e
      invariant s <= current <= e + 1
      invariant forall d :: d in calendar <==> s <= d < current
      invariant forall d :: d in calendar ==> calendar[d] == day(d)
      invariant |calendar| == current - s
    {
      assert current !in calendar;
      calendar := calendar[current := day(current)];
      current := current + 1;
    }
  }

  // --------------------------------------------------------------- water

  /** `max(0, goal - total)`: never negative, and the shortfall when there is one. */
  function Remaining(goal: int, total: int): (r: int)
    ensures r >= 0 && r >= goal - total
    ensures r == 0 || r == goal - total
    ensures r == 0 <==> total >= goal
  {
    if goal - total > 0 then goal - total else 0
  }

  const DefaultPreset := 250

  /** `amount_map.get(preset, 250)` with the preset defaulting to "250". */
  function PresetAmount(preset: Option<string>): (r: int)
    ensures r in {250, 500, 750, 1000}
    ensures preset == Some("500") ==> r == 500
    ensures preset == Some("750") ==> r == 750
    ensures preset == Some("1000") ==> r == 1000
    ensures preset !in {Some("500"), Some("750"), Some("1000")} ==> r == DefaultPreset
  {
    if preset == Some("500") then 500
    else if preset == Some("750") then 750
    else if preset == Some("1000") then 1000
    else DefaultPreset
  }

  function WaterOn(user: nat, d: int): WaterLog -> bool {
    (w: WaterLog) => w.user == user && w.date == d
  }

  function AmountOf(w: WaterLog): int { w.amountMl }

  /** `aggregate(Sum('amount_ml'))['amount_ml__sum'] or 0` over the user's logs of the day. */
  function TotalOn(logs: seq<WaterLog>, user: nat, d: int): int {
    Sum(Filter(logs, WaterOn(user, d)), AmountOf)
  }

  /** A log of the day adds its amount to the day's total; a log of another
      user or day leaves it alone. */
  lemma TotalAfterLog(logs: seq<WaterLog>, w: WaterLog, user: nat, d: int)
    ensures TotalOn(logs + [w], user, d) == TotalOn(logs, user, d) + (if w.user == user && w.date == d then w.amountMl else 0)
  {
    FilterAppend(logs, [w], WaterOn(user, d));
    FilterCons(w, [], WaterOn(user, d));
    assert [w] + [] == [w];
    SumAppend(Filter(logs, WaterOn(user, d)), Filter([w], WaterOn(user, d)), AmountOf);
    assert Sum([w], AmountOf) == w.amountMl;
  }

  /** What both water views report after logging. */
  datatype WaterReport = WaterReport(amountMl: int, totalToday: int, goal: int, remaining: int)

  class WaterStore {
    var logs: seq<WaterLog>
    /** The profiles' `daily_water_goal_ml`, by user. */
    var goals: map<nat, int>
    var nextId: nat

    constructor ()
      ensures logs == [] && goals == map[]
    {
      logs, goals := [], map[];
      nextId := 1;
    }

    /** The tail both water views share: create the log, then report today's
        total, the goal and what remains.
        The row stays when the user has no profile and reading the goal fails. */
    method LogAndReport(user: nat, day: int, amount: int, today: int) returns (r: Result<WaterReport, ViewError>)
      modifies this`logs, this`nextId
      ensures logs == old(logs) + [WaterLog(old(nextId), user, day, amount)] && nextId == old(nextId) + 1
      ensures user !in goals ==> r == Err(DoesNotExist)
      ensures user in goals ==>
                r == Ok(WaterReport(amount, TotalOn(logs, user, today), goals[user], Remaining(goals[user], TotalOn(logs, user, today))))
    {
      logs := logs + [WaterLog(nextId, user, day, amount)];
      nextId := nextId + 1;
      if user !in goals {
        return Err(DoesNotExist);
      }
      var total := TotalOn(logs, user, today);
      return Ok(WaterReport(amount, total, goals[user], Remaining(goals[user], total)));
    }

    /** `WaterLogViewSet.create`: the log's date is the one submitted; the
        total reported is today's, whatever that date is. */
    method Create(user: nat, day: int, amount: int, today: int) returns (r: Result<WaterReport, ViewError>)
      modifies this`logs, this`nextId
      ensures logs == old(logs) + [WaterLog(old(nextId), user, day, amount)] && nextId == old(nextId) + 1
      ensures user in goals ==> r.Ok? && r.value.totalToday == TotalOn(old(logs), user, today) + (if day == today then amount else 0)
      ensures r.Ok? ==> r.value.remaining == Remaining(r.value.goal, r.value.totalToday) && r.value.remaining >= 0
      ensures user !in goals ==> r == Err(DoesNotExist)
    {
      TotalAfterLog(logs, WaterLog(nextId, user, day, amount), user, today);
      r := LogAndReport(user, day, amount, today);
    }

    /** `quick_log_water`: log a preset amount for today. */
    method QuickLog(user: nat, preset: Option<string>, today: int) returns (r: Result<WaterReport, ViewError>)
      modifies this`logs, this`nextId
      ensures logs == old(logs) + [WaterLog(old(nextId), user, today, PresetAmount(preset))] && nextId == old(nextId) + 1
      ensures user in goals ==> r.Ok? && r.value.amountMl == PresetAmount(preset)
                                && r.value.totalToday == TotalOn(old(logs), user, today) + PresetAmount(preset)
      ensures r.Ok? ==> r.value.remaining == Remaining(r.value.goal, r.value.totalToday) && r.value.remaining >= 0
      ensures user !in goals ==> r == Err(DoesNotExist)
    {
      var amount := PresetAmount(preset);
      TotalAfterLog(logs, WaterLog(nextId, user, today, amount), user, today);
      r := LogAndReport(user, today, amount, today);
    }
  }

  // ----------------------------------------------------------- heart rate

  /** One entry of the submitted `samples`; a key left out is `None`. */
  datatype SampleInput = SampleInput(ts: Option<int>, bpm: Option<int>)

  predicate SampleComplete(s: SampleInput) {
    s.ts.Some? && s.bpm.Some?
  }

  /** How many leading samples carry both keys. */
  function SampleRun(ss: seq<SampleInput>): (n: nat)
    ensures n <= |ss|
    ensures forall i :: 0 <= i < n ==> SampleComplete(ss[i])
    ensures n < |ss| ==> !SampleComplete(ss[n])
  {
    if ss == [] || !SampleComplete(ss[0]) then 0
    else
      var n := 1 + SampleRun(ss[1..]);
      assert forall i :: 1 <= i < n ==> ss[i] == ss[1..][i - 1];
      n
  }

  lemma {:induction false} SampleRunIs(ss: seq<SampleInput>, n: nat)
    requires n <= |ss|
    requires forall i :: 0 <= i < n ==> SampleComplete(ss[i])
    requires n < |ss| ==> !SampleComplete(ss[n])
    ensures SampleRun(ss) == n
  {
    if n > 0 {
      SampleRunIs(ss[1..], n - 1);
    }
  }

  /** The rows created for `ss`, the `i`-th with key `first + i`. */
  function SampleRows(user: nat, ss: seq<SampleInput>, first: nat): (r: seq<HeartRateSample>)
    requires forall i :: 0 <= i < |ss| ==> SampleComplete(ss[i])
    ensures |r| == |ss|
    ensures forall i :: 0 <= i < |ss| ==>
              SampleComplete(ss[i]) && r[i] == HeartRateSample(first + i, user, ss[i].ts.value, ss[i].bpm.value)
  {
    if ss == [] then []
    else
      var init := SampleRows(user, ss[..|ss| - 1], first);
      assert SampleComplete(ss[|ss| - 1]);
      assert forall i :: 0 <= i < |ss| - 1 ==> ss[..|ss| - 1][i] == ss[i];
      init + [HeartRateSample(first + |ss| - 1, user, ss[|ss| - 1].ts.value, ss[|ss| - 1].bpm.value)]
  }

  /** The `bpm` values of the samples. */
  function Bpms(samples: seq<HeartRateSample>): (r: seq<int>)
    ensures |r| == |samples|
    ensures forall i :: 0 <= i < |samples| ==> r[i] == samples[i].bpm
  {
    seq(|samples|, i requires 0 <= i < |samples| => samples[i].bpm)
  }

  function MaxOf(xs: seq<int>): (m: int)
    requires xs != []
    ensures m in xs && forall i :: 0 <= i < |xs| ==> xs[i] <= m
  {
    if |xs| == 1 then xs[0]
    else
      var rest := MaxOf(xs[1..]);
      assert forall i :: 1 <= i < |xs| ==> xs[i] == xs[1..][i - 1];
      if xs[0] >= rest then xs[0] else rest
  }

  function MinOf(xs: seq<int>): (m: int)
    requires xs != []
    ensures m in xs && forall i :: 0 <= i < |xs| ==> m <= xs[i]
  {
    if |xs| == 1 then xs[0]
    else
      var rest := MinOf(xs[1..]);
      assert forall i :: 1 <= i < |xs| ==> xs[i] == xs[1..][i - 1];
      if xs[0] <= rest then xs[0] else rest
  }

  datatype HeartStats = HeartStats(maxBpm: int, minBpm: int)

  /** `max_bpm` and `min_bpm` of `list`: 0 and 0 for no samples, otherwise the
      extremes of the bpm list. */
  function Stats(bpms: seq<int>): (s: HeartStats)
    ensures bpms == [] ==> s == HeartStats(0, 0)
    ensures bpms != [] ==> s.maxBpm in bpms && s.minBpm in bpms && s.minBpm <= s.maxBpm
    ensures forall i :: 0 <= i < |bpms| ==> s.minBpm <= bpms[i] <= s.maxBpm
  {
    if bpms == [] then HeartStats(0, 0) else HeartStats(MaxOf(bpms), MinOf(bpms))
  }

  /** `get_queryset`: the user's samples, from `from` and up to `to` when given. */
  function InWindow(user: nat, from: Option<int>, to: Option<int>): HeartRateSample -> bool {
    (s: HeartRateSample) => s.user == user && (from.None? || s.ts >= from.value) && (to.None? || s.ts <= to.value)
  }

  /** Every selected bpm lies between the statistics of the selection. */
  lemma SelectedStatsBound(samples: seq<HeartRateSample>, p: HeartRateSample -> bool)
    ensures forall i :: 0 <= i < |samples| && p(samples[i]) ==>
              Stats(Bpms(Filter(samples, p))).minBpm <= samples[i].bpm <= Stats(Bpms(Filter(samples, p))).maxBpm
  {
    var selected := Filter(samples, p);
    FilterMembers(samples, p);
    var bpms := Bpms(selected);
    forall i | 0 <= i < |samples| && p(samples[i])
      ensures Stats(bpms).minBpm <= samples[i].bpm <= Stats(bpms).maxBpm
    {
      var k :| 0 <= k < |selected| && selected[k] == samples[i];
      assert bpms[k] == samples[i].bpm;
    }
  }

  /** With a row selected, both statistics are the bpm of a selected row. */
  lemma SelectedStatsAttained(samples: seq<HeartRateSample>, p: HeartRateSample -> bool)
    requires Count(samples, p) > 0
    ensures exists i :: 0 <= i < |samples| && p(samples[i]) && samples[i].bpm == Stats(Bpms(Filter(samples, p))).maxBpm
    ensures exists i :: 0 <= i < |samples| && p(samples[i]) && samples[i].bpm == Stats(Bpms(Filter(samples, p))).minBpm
  {
    var selected := Filter(samples, p);
    CountIsFilterLength(samples, p);
    FilterMembers(samples, p);
    var bpms := Bpms(selected);
    var s := Stats(bpms);
    var kMax :| 0 <= kMax < |bpms| && bpms[kMax] == s.maxBpm;
    var kMin :| 0 <= kMin < |bpms| && bpms[kMin] == s.minBpm;
    var iMax :| 0 <= iMax < |samples| && samples[iMax] == selected[kMax];
    var iMin :| 0 <= iMin < |samples| && samples[iMin] == selected[kMin];
    assert p(samples[iMax]) && samples[iMax].bpm == s.maxBpm;
    assert p(samples[iMin]) && samples[iMin].bpm == s.minBpm;
  }

  /** The statistics of `list` over the samples `get_queryset` selects; the
      order by `ts` does not change them. With a sample selected, `max_bpm`
      and `min_bpm` are the bpm of selected samples and bound all the others. */
  function ListStats(samples: seq<HeartRateSample>, user: nat, from: Option<int>, to: Option<int>): (s: HeartStats)
    ensures Count(samples, InWindow(user, from, to)) == 0 ==> s == HeartStats(0, 0)
    ensures forall i :: 0 <= i < |samples| && InWindow(user, from, to)(samples[i]) ==> s.minBpm <= samples[i].bpm <= s.maxBpm
    ensures Count(samples, InWindow(user, from, to)) > 0 ==>
              (exists i :: 0 <= i < |samples| && InWindow(user, from, to)(samples[i]) && samples[i].bpm == s.maxBpm)
              && (exists i :: 0 <= i < |samples| && InWindow(user, from, to)(samples[i]) && samples[i].bpm == s.minBpm)
  {
    CountIsFilterLength(samples, InWindow(user, from, to));
    SelectedStatsBound(samples, InWindow(user, from, to));
    if Count(samples, InWindow(user, from, to)) > 0 then
      SelectedStatsAttained(samples, InWindow(user, from, to));
      Stats(Bpms(Filter(samples, InWindow(user, from, to))))
    else
      Stats(Bpms(Filter(samples, InWindow(user, from, to))))
  }


  class HeartRateStore {
    var samples: seq<HeartRateSample>
    var nextId: nat

    constructor ()
      ensures samples == []
    {
      samples := [];
      nextId := 1;
    }

    /** `bulk`: create one sample per entry and count them. An entry without
        `ts` or `bpm` stops the loop with a `KeyError` (`ts` is read first), and
        the samples created before it stay. */
    method Bulk(user: nat, ss: seq<SampleInput>) returns (r: Result<nat, ViewError>)
      modifies this`samples, this`nextId
      ensures var n := SampleRun(ss);
        samples == old(samples) + SampleRows(user, ss[..n], old(nextId))
        && nextId == old(nextId) + n
        && (r.Ok? <==> n == |ss|)
        && (r.Ok? ==> r.value == |ss|)
        && (r.Err? ==> r.error == KeyError(if ss[n].ts.None? then "ts" else "bpm"))
    {
      var first := nextId;
      var created: nat := 0;
      while created < |ss|
        invariant 0 <= created <= |ss|
        invariant forall j :: 0 <= j < created ==> SampleComplete(ss[j])
        invariant samples == old(samples) + SampleRows(user, ss[..created], first)
        invariant nextId == first + created
      {
        var s := ss[created];
        if s.ts.None? {
          SampleRunIs(ss, created);
          return Err(KeyError("ts"));
        }
        if s.bpm.None? {
          SampleRunIs(ss, created);
          return Err(KeyError("bpm"));
        }
        samples := samples + [HeartRateSample(nextId, user, s.ts.value, s.bpm.value)];
        nextId := nextId + 1;
        created := created + 1;
        assert ss[..created][..created - 1] == ss[..created - 1];
      }
      SampleRunIs(ss, created);
      assert ss[..created] == ss;
      return Ok(created);
    }
  }
}
