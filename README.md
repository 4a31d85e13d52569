# Fitness tracker REST app: a verified model of its business rules

This project models the statable core of a Django REST fitness and meal-kit
application. It covers four files:

- the views that change tables or compute dates and totals (app/views.py);
- the derived fields and table constraints of the models (app/models.py);
- the display, filter and validation helpers of the admin site (app/admin.py);
- the validation rules and computed fields of the serializers (app/serializers.py).

The database is abstracted as one table per model, a sequence of rows in
insertion order. Each ORM call becomes a function on such a table (`Tables`):

- `filter` is `Filter`;
- `count()` and `exists()` are `Count`;
- `.get()` is `Count` plus `FirstIndex`, with its two failures `DoesNotExist`
  and `MultipleObjectsReturned`;
- `create` under a unique constraint is `InsertUnique`.

A view that writes several tables is a method of a class whose fields are
those tables: `MealStore`, `AccountStore`, `ChatStore`, `WaterStore` and
`HeartRateStore`. Each method states its new state in terms of the old one.
Lemmas beside it prove what the view promises, for example:

- the week's selections are exactly the submitted ones;
- a user has one active macro plan;
- a destination has one OTP;
- only the receiver's read changes an unread count.

Dates are the day ordinals of Python's `date.toordinal()`, and `Calendar`
models `date.weekday()`, `date(y, m, 1)` and `timedelta` arithmetic. This
includes the `ValueError` and `OverflowError` these raise at the ends of the
range 0001-01-01 to 9999-12-31.

Modules:

- `Wrappers`: Option and Result.
- `Calendar`: Python date arithmetic.
- `Tables`: tables and ORM calls.
- `Entities`: the rows of models used by the views but not defined in app/models.py, and the error outcomes of a view.
- `Models`: app/models.py.
- `Admin`: app/admin.py.
- `Serializers`: app/serializers.py.
- app/views.py, split by area:
  - `MealViews`: meal subscriptions and meal boxes.
  - `AccountViews`: addresses, payment methods, macro plans, OTPs and subscriptions.
  - `ChatViews`: chat messages.
  - `ActivityViews`: streak, week, month, calendar, water and heart rate.

The clock (`date.today()`, `timezone.now()`) and the random OTP code are
parameters. Where a view reads a row of another model through a relation, that
row's table is a field or a parameter.

## Model

| member | source | states |
|---|---|---|
| Calendar.WeekStartOf | app/views.py:408-409 | the default week start is a Monday, not after today and less than seven days before it |
| Calendar.WeekStartUnique | app/views.py:408-409 | that Monday is the only Monday of the seven days ending today |
| Calendar.MonthEnd | app/views.py:1646-1649 | the month end exists for every month but December 9999 (where `date(10000,1,1)` raises); it is the month's last day, December rolling into January of the next year |
| Calendar.MonthSpan | app/views.py:2078-2085 | month end minus month start plus one is the number of days in the month |
| Calendar.WeekEnd | app/views.py:410 | `week_start + 6 days` exists exactly when it stays in year 9999; it is six days after the start, a Sunday when the start is a Monday |
| Tables.FilterPartition | app/admin.py:250-255 | filtering by a condition and by its negation splits a table: together they hold every row exactly once |
| Tables.InsertKeepsUnique | app/models.py:27 | a unique constraint is a table invariant: an insertion the database accepts keeps it |
| MealViews.MealStore.SelectMeals | app/views.py:1274-1296 | 404 unless the user owns the subscription; otherwise the week's rows are deleted and one row per entry is created, with no quota limit; an entry missing `meal_id` (checked first) or `quantity` stops with a KeyError and the earlier rows stay; the result is the sum of the quantities |
| MealViews.SelectionReplacesWeek | app/views.py:1280-1293 | after `select_meals` the rows for (subscription, week) are exactly the new rows, and every other row is as before |
| MealViews.NewRowsAreChoices | app/views.py:1286-1292 | the new rows are the submitted entries in order, with the request's subscription and week |
| MealViews.TotalIsStoredSum | app/views.py:1293 | `total_meals` is the sum of the quantities stored for the week |
| MealViews.MealStore.Active | app/views.py:671-677 | the box is the user's for the week of today, which starts on a Monday; it is created as "Weekly Box" when missing, returned when there is one, and `get` fails when there are two; afterwards there is exactly one |
| MealViews.CreatedBoxIsFound | app/views.py:675 | a box created by `get_or_create` is found by the next call |
| MealViews.MealStore.Add | app/views.py:680-690 | 404 unless the box is the user's and the meal exists; otherwise the (box, meal) item is upserted as UpsertItem says, the quantity defaulting to 1 |
| MealViews.UpsertItem | app/views.py:686-689 | `get_or_create` fails with two items for the pair and then changes nothing; a new key is used exactly when the item is created |
| MealViews.AddCreates | app/views.py:687-689 | a created item gets exactly `quantity`; it is then the pair's only item, and other items are unchanged |
| MealViews.AddGrows | app/views.py:687-689 | an existing item keeps its key and grows by `quantity`; other items are unchanged |
| MealViews.AddUpserts | app/views.py:686-690 | after `add`, the pair has one item, whose quantity is the previous one (0 if new) plus `quantity` and whose key is returned |
| MealViews.MealStore.Remove | app/views.py:694-701 | 404 unless the box is the user's and the meal exists; otherwise exactly the items of the (box, meal) pair are deleted |
| MealViews.RemoveDeletesOnlyItem | app/views.py:700 | after `remove` no item of the pair is left and every other item is unchanged |
| AccountViews.ClearOtherDefaults | app/views.py:1235-1237 | clears `is_default` on every row of the user but the new one, and changes no other row |
| AccountViews.CreateKeepsOneDefault | app/views.py:1231-1237 | creating an address keeps at most one default per user; a new default is the user's only default; other users' rows are unchanged |
| AccountViews.AccountStore.CreateAddress | app/views.py:1231-1237 | saves the address under a fresh key, then clears the user's other defaults if it is a default |
| AccountViews.AccountStore.CreatePaymentMethod | app/views.py:1345-1351 | the same rule for payment methods |
| AccountViews.DeactivatePlans | app/views.py:1124 | every plan of the user becomes inactive; other users' plans are unchanged |
| AccountViews.CreatePlanLeavesOneActive | app/views.py:1123-1125 | after a macro plan is created, the user has exactly one active plan (the new one), and other users' plans are unchanged |
| AccountViews.AccountStore.CreateMacroPlan | app/views.py:1123-1125 | deactivates the user's plans, then saves the new one as active |
| AccountViews.FirstGiven | app/views.py:92 | `phone or email` picks the phone when it is a non-empty string and the email otherwise |
| AccountViews.AccountStore.SendOtp | app/views.py:89-112 | no destination gives "Destination required" and changes nothing; otherwise the user's codes for the destination are deleted and one is created on the given channel (default "phone"), expiring ten minutes from now |
| AccountViews.ReplaceLeavesOne | app/views.py:100-108 | deleting the rows that meet a condition and creating one that meets it leaves that row as the only one meeting it, and the rest unchanged |
| AccountViews.SendOtpLeavesOne | app/views.py:100-108 | after `send_otp` exactly one OTP exists for (user, destination); the other OTPs are unchanged |
| AccountViews.AccountStore.ForgotPassword | app/views.py:180-202 | an unknown email changes nothing; two accounts with the email make `get` fail; otherwise the account's email-channel codes are replaced by one expiring in fifteen minutes |
| AccountViews.ForgotPasswordLeavesOne | app/views.py:189-196 | afterwards the new code is the user's only email-channel OTP; the other OTPs are unchanged |
| AccountViews.MarkVerified | app/views.py:131-135 | the "phone" channel sets the phone flag and any other sets the email flag; no flag is cleared |
| AccountViews.AccountStore.VerifyOtp | app/views.py:117-143 | no matching code gives "Invalid OTP"; an invalid one gives "OTP expired or already used" and changes nothing; a valid one is marked used and sets the channel's flag; a missing profile fails after the code was marked used |
| AccountViews.AccountStore.Pause | app/views.py:1373-1382 | the user's subscription becomes "paused", 404 when the user has no such subscription; nothing else changes |
| AccountViews.AccountStore.Cancel | app/views.py:1384-1395 | the user's subscription becomes "canceled" and stops renewing, 404 when the user has no such subscription; nothing else changes |
| ChatViews.LeastExists | app/views.py:1493 | a non-empty set of participant keys has a least element, which `.first()` on the unordered queryset returns |
| ChatViews.ChatStore.New | app/views.py:1478-1511 | a missing or zero `thread_id`, an unknown thread and a thread without another participant are refused with their messages; otherwise the message is created unread, addressed to the least other participant, with the text defaulting to "" |
| ChatViews.ChatStore.Read | app/views.py:1424-1461 | the message is looked up in the thread named by `thread_id` (404 otherwise); `read_at` is set only when the requesting user is the receiver |
| ChatViews.ReadLowersUnreadCount | app/views.py:1457-1459 | the receiver marking an unread message read lowers the receiver's unread count by one; no other user's count changes in any thread |
| ChatViews.NewMessageIsUnread | app/views.py:1497-1503 | a new message raises its receiver's unread count by one, and becomes the thread's last message when it is the newest |
| ActivityViews.Streak | app/views.py:1716-1729 | the streak is the number of consecutive days ending today that have a completed workout log or a cardio session: those days are active and the day before them is not; it is 0 when today is inactive; stepping back past 0001-01-01 overflows |
| ActivityViews.WeeklyProgress | app/views.py:395-456 | a malformed `week_start` gives the 400 message; the week runs from the given date, or the current Monday, to six days later (overflow in the last days of 9999); day `i` is flagged exactly when it has a completed workout log; `workouts_completed` counts the flags; `workouts_target` is the profile's weekly target, and a user without a profile makes the view fail with DoesNotExist |
| ActivityViews.MonthBounds | app/views.py:1638-1649 | an invalid month and December 9999 raise ValueError; otherwise the bounds are the first and last days of the month and span exactly its length |
| ActivityViews.MonthDaysPositive | app/views.py:1678-1683 | `days` is 28 to 31, so the `days > 0` guard always holds |
| ActivityViews.DayOfMeaning | app/views.py:2103-2113 | a calendar entry has a workout exactly when a log of the day exists, is completed exactly when a completed log exists, has cardio exactly when a session started that day, and totals 0 exactly when it has neither |
| ActivityViews.WorkoutCalendar | app/views.py:2071-2115 | the calendar has exactly one entry per day from month start to month end, as many as the month has days, each the DayOf entry; an invalid month raises ValueError |
| ActivityViews.FillCalendar | app/views.py:2099-2115 | the loop from the first to the last day adds one entry per day and no other, each the DayOf entry of its day |
| ActivityViews.Remaining | app/views.py:827 | `max(0, goal - total)` is never negative, is the shortfall when there is one, and is 0 exactly when the goal is met |
| ActivityViews.PresetAmount | app/views.py:1916-1919 | the presets "500", "750" and "1000" give their amounts; anything else, or none, gives 250 |
| ActivityViews.TotalAfterLog | app/views.py:818-819 | a log adds its amount to the total of its user and day, and leaves every other total alone |
| ActivityViews.WaterStore.Create | app/views.py:815-828 | the log is created; the total reported is today's (the old total plus the amount only when the log is dated today); remaining is max(0, goal − total); a missing profile fails after the row was created |
| ActivityViews.WaterStore.QuickLog | app/views.py:1914-1940 | logs the preset amount for today; the total is today's old total plus that amount; remaining is max(0, goal − total) |
| ActivityViews.Stats | app/views.py:1065-1070 | max and min are 0 for no samples; otherwise they are bpm values of the list and bound every bpm |
| ActivityViews.ListStats | app/views.py:1062-1070 | the statistics are over the user's samples within `from`/`to` when given: 0/0 when none is selected; otherwise `max_bpm` and `min_bpm` are each the bpm of a selected sample and bound every selected bpm |
| ActivityViews.SelectedStatsBound | app/views.py:1066-1070 | every selected bpm lies between the `min_bpm` and `max_bpm` of the selection |
| ActivityViews.SelectedStatsAttained | app/views.py:1066-1070 | with a sample selected, `max_bpm` and `min_bpm` are each the bpm of a selected sample |
| ActivityViews.HeartRateStore.Bulk | app/views.py:1047-1060 | one sample is created per entry and the count is returned; an entry without `ts` (checked first) or `bpm` stops with a KeyError and the earlier samples stay |
| Models.AgeOn | app/models.py:122-128 | the age is the number of birthdays passed: the `age`-th anniversary is not after today and the next one is; it is non-negative exactly when the birth date is not in the future |
| Models.AgeUnique | app/models.py:122-128 | no other count of years has that property |
| Models.UserProfile.Save | app/models.py:122-128 | every save recomputes the age from the birth date, whatever it was; the write fails with IntegrityError on the `age >= 0` CHECK exactly when the birth date is after today |
| Models.DurationActual | app/models.py:227-233 | a duration, in microseconds, exists exactly when both times are set; start plus duration is end; on one day it lies strictly within ±24 h |
| Models.WorkoutTableInvariant | app/models.py:25-27 | a second workout with the same (user, name, date) is refused, and the table keeps at most one |
| Models.WorkoutLogTableInvariant | app/models.py:235-239 | at most one workout log per (user, workout, date) |
| Models.ProgressTableInvariant | app/models.py:343-347 | at most one progress entry per (user, date) |
| Models.MealTableInvariant | app/models.py:160 | meal names are unique across the table |
| Models.ValidateSatisfaction | app/models.py:218-223 | an unset satisfaction passes; a set one passes exactly when it is in 1..5 |
| Admin.SatisfactionStars | app/admin.py:309-312 | "-" for no or zero rating; otherwise `s` filled stars then `5 − s` empty ones |
| Admin.StarsRoundTrip | app/admin.py:309-312 | a rating in 1..5 shows as exactly five stars, and the filled ones count back to the rating |
| Admin.NotesPreview | app/admin.py:315-318 | "-" for empty notes; notes up to 50 characters unchanged; longer ones as their first 50 characters plus "..." |
| Admin.NotesPreviewIdempotent | app/admin.py:315-318 | previewing a preview changes nothing |
| Admin.DietaryTagList | app/admin.py:204-212 | Vegan is shown exactly for vegan meals and Vegetarian exactly for vegetarian meals that are not vegan; GF and DF follow their flags, in that order |
| Admin.VeganExcludesVegetarian | app/admin.py:206-209 | Vegan and Vegetarian are never both shown |
| Admin.DietaryTags | app/admin.py:204-213 | the appended tags joined with ", ", or "-" exactly when the meal has no dietary flag; the column reads back as the tag list |
| Admin.ListColumnRoundTrip | app/admin.py:213 | a joined list of comma-free names reads back as the list, and is "-" exactly for the empty list |
| Admin.PhotoList | app/admin.py:484-490 | Front, Side and Back, in that order, each exactly when its image is set |
| Admin.PhotosAvailable | app/admin.py:484-491 | the photo names joined with ", ", or "-" exactly when there is no photo; the column reads back as the photo list |
| Admin.TimedeltaSeconds | app/admin.py:299 | `duration.seconds` is the whole seconds of the part of the duration below one day: in 0..86399, with the microseconds left over below one second |
| Admin.DurationParts | app/admin.py:299-300 | hours and minutes of `duration.seconds`, each in range, covering that second count to the minute |
| Admin.DurationIgnoresDays | app/admin.py:299 | whole days do not change the hours and minutes shown |
| Admin.DurationDisplay | app/admin.py:297-302 | "-" exactly for no duration or a zero one; otherwise "<h>h <m>m" |
| Admin.SubMinuteDurationShown | app/admin.py:298-301 | a non-zero duration under one minute is truthy and shows as "0h 0m" |
| Admin.DurationDisplayReadsBack | app/admin.py:301 | the two numbers shown read back as the hours and minutes |
| Admin.BandsPartition | app/admin.py:382-388 | the four BMI bands partition the values: every BMI lies in exactly one |
| Admin.BmiDisplay | app/admin.py:449-461 | "-" exactly for a BMI of 0; otherwise the band the value lies in |
| Admin.BmiFilterAsWrittenFails | app/admin.py:390-399 | as written, choosing a band filters on the `bmi` property, which is not a column, and fails |
| Admin.BmiFilter | app/admin.py:390-399 | as intended, a band keeps exactly the rows whose BMI lies in it; another value keeps all |
| Admin.BmiFilterAgreesWithDisplay | app/admin.py:390-399 | for a non-zero BMI, a row is kept for a band exactly when its BMI column shows that band |
| Admin.CleanWeight | app/admin.py:28-32 | a weight ≤ 0 is refused with "Weight must be positive"; any other is returned unchanged |
| Admin.CleanCalories | app/admin.py:163-167 | calories ≤ 0 are refused with "Calories must be positive"; any others are returned unchanged |
| Admin.CompletionFilter | app/admin.py:250-255 | "completed" keeps exactly the completed logs, "not_completed" exactly the others, and any other value keeps all |
| Admin.CompletionChoicesPartition | app/admin.py:244-255 | the two choices together hold every log exactly once |
| Admin.UserTable.SetActive | app/admin.py:86-94 | sets `is_active` on exactly the selected users and returns how many there are |
| Admin.UserTable.ActivateUsers | app/admin.py:86-89 | the selected users become active; the others keep their flag |
| Admin.UserTable.DeactivateUsers | app/admin.py:91-94 | the selected users become inactive; the others keep their flag |
| Serializers.Trim | app/serializers.py:19-20 | `CharField` trims a value: the result is the value with only whitespace removed around it, empty exactly when the value is all whitespace |
| Serializers.TrimIdempotent | app/serializers.py:19-20 | trimming twice trims nothing more |
| Serializers.CharField | app/serializers.py:19 | an absent required value is an error; a blank one is refused; the trimmed value must meet the length bounds and hold no null character, and is returned; each failure gives its own error |
| Serializers.RegistrationColumns | app/serializers.py:18-24 | of the submitted keys, exactly the declared user columns reach `validated_data`, each trimmed, and neither password field is among them |
| Serializers.ValidateRegistration | app/serializers.py:18-29 | valid exactly when both passwords are given, the password has at least 8 characters after trimming, neither holds a null character, and the two match; "Passwords don't match" exactly when only the match fails; a short password is refused as too short; the validated data hold the trimmed passwords and, of the other submitted keys, only the declared user columns (`username`, `email`, `first_name`, `last_name`), trimmed |
| Serializers.ValidatedData.Pop | app/serializers.py:32 | `pop` removes the key and returns its value, or fails with KeyError |
| Serializers.CreateUserArguments | app/serializers.py:31-34 | `create` drops `password_confirm` and passes every other validated field to user creation |
| Serializers.RegistrationCreatesUser | app/serializers.py:26-34 | a valid registration creates the user with the trimmed password, no confirmation, and exactly the submitted declared user columns, trimmed; undeclared keys such as `is_staff` never reach `create_user` |
| Serializers.ValidateOtpVerify | app/serializers.py:45-48 | a known channel, a non-blank destination and a code of at most 8 characters after trimming, both free of null characters, are required; the validated code has 1 to 8 characters; the errors name exactly the failing fields, each with its own reason |
| Serializers.ErrorsOfThree | app/serializers.py:45-48 | the errors of the three OTP fields hold an entry for exactly the failing ones, each with its own error, and are empty exactly when all three pass |
| Serializers.OnboardingEntriesPass | app/serializers.py:86-100 | the field rules all pass exactly when each field is in range; `workouts_per_week` passes exactly when it is given and in 0..14 |
| Serializers.ValidateOnboarding | app/serializers.py:86-100 | valid exactly when every field rule holds; every validated value is the submitted one (goal and phone trimmed); `workouts_per_week` is in 0..14; the step goal defaults to 10000 and the water goal to 2000; the errors name exactly the failing fields, each with that field's error |
| Serializers.Errors | app/serializers.py:86-100 | the serializer's `errors` are empty exactly when every field passes, and hold an entry for every failing field |
| Serializers.ErrorsMeaning | app/serializers.py:86-100 | `errors` name failing fields only; when no field is named twice, a field has an entry exactly when it fails, and the entry is that field's error |
| Serializers.OnboardingErrors | app/serializers.py:86-100 | the onboarding errors name only declared fields, and each declared field has an entry exactly when it fails, holding its own error |
| Serializers.UnreadCount | app/serializers.py:560-562 | the number of the thread's messages received by the user with no `read_at`; 0 exactly when there is none |
| Serializers.Latest | app/serializers.py:557 | None for no messages; otherwise a message of the list that no other message is newer than |
| Serializers.LastMessage | app/serializers.py:556-558 | None exactly for a thread without messages; otherwise the thread's newest message |
| Serializers.NewMessageIsLast | app/serializers.py:556-558 | a message newer than every message of its thread becomes the thread's last message |
| Serializers.ProfileColumns | app/serializers.py:57-73 | only the declared writable fields other than the birth date are kept, with `goal` and `phone` trimmed; read-only and undeclared fields are dropped |
| Serializers.ProfileTable.Create | app/serializers.py:75-81 | the profile belongs to the requesting user whatever the request named; its age is computed on save and is never negative; a birth date after today fails the age CHECK and a second profile for the user is refused, leaving the table unchanged |
| Serializers.ProfileKeyInvariant | app/serializers.py:80-81 | no user ever has two profiles |

## Left out

- Floating point: the macro calculator (BMR/TDEE/macros), the `bmi` properties, float calorie and macro sums, `total_calories`/`total_protein`, the waist/hip ratio, cardio pace, and every value that goes through Python `round`. These include the heart-rate `avg_bpm` and the water `percentage`.
- ActivityViews.Stats: does not model `avg_bpm`, because it is `round` of a float quotient.
- Decimal columns (weight, height, BMI) are Dafny reals. Their stored representation and decimal rounding are not modelled; `DecimalField` checks the digit counts on the real value.
- Foreign calls are not modelled:
  - password hashing (`create_user`, `check_password`, `set_password`);
  - JWT issuance;
  - sending SMS or email (the `print` of the code).
- The clock and the random OTP code are parameters (`now`, `today`, `code`). `OTP.is_valid` is not defined in app/models.py, so it is the parameter `isValid`.
- Text parsing is taken as given: `week_start` and `month` strings, JSON coercion (`int(quantity)` raising ValueError, `map(int, month.split('-'))`), and timestamps sent as strings. A parsed date, a month as a (year, month) pair, or `Malformed` are the inputs.
- Serializers.Trim: strips ASCII whitespace only, not the other Unicode whitespace Python's `str.strip()` removes.
- Serializers.ValidateRegistration: the field rules of the four user columns are not modelled: `username` passes without being required and non-blank (`AbstractUser.username` has `blank=False`), and `username` and `email` pass without the `User` model's uniqueness, format and length rules, and the names without their length limit. They are only trimmed.
- Serializers.CharField: reports the first failing validator only. DRF collects the messages of every failing validator, such as a code that is both too long and holds a null character.
- Serializers.ProfileColumns: the writable columns other than `goal` and `phone` are stored as submitted text. Their own field rules (types, choices, lengths, blank) are not applied. `Meta.fields` also names fields that `UserProfile` in app/models.py does not declare, such as `status` and `timezone`. The model takes them as declared columns.
- UserProfile columns used by the views: `UserProfile` in app/models.py:32-149 does not declare `phone_verified` or `email_verified`, which app/views.py:130-135 sets. It also does not declare `workouts_per_week` (read at app/views.py:454) or `daily_water_goal_ml` (read at app/views.py:822, 839 and 1932). app/models.py does not define OTP, MealBox and other models the views use either. The model assumes the four are stored columns of the profile. It therefore does not capture the AttributeError those reads would raise with app/models.py as it stands. It also does not capture that `save()` would not store the two flags. This affects `AccountViews.MarkVerified`, `AccountViews.AccountStore.VerifyOtp`, `ActivityViews.WeeklyProgress`, `ActivityViews.WaterStore.Create` and `ActivityViews.WaterStore.QuickLog`.
- Serializers.ProfileTable.Create: a row that breaks both the age CHECK and the primary key is reported as the CHECK failure. Which of the two the database reports first is not specified.
- `OTP.Channel` and `UnitSystem` are not defined in app/models.py. The values used are the channels the OTP views create and the profile's own unit values.
- ORM and HTTP plumbing are not modelled: querysets, response envelopes, status codes and renderers. Outcomes are `Result` values.
- Referential integrity on create is not modelled: a `meal_id` naming no meal in `select_meals`, and a missing `week_start` (None is stored).
- MealViews.MealStore.SelectMeals: `week_start` arrives as text and is stored as given. The model takes it as a day ordinal.
- ActivityViews.WeeklyProgress: calories, steps and weight change are not modelled. They come from float sums and `round`.
- ActivityViews.WorkoutCalendar: keys are day ordinals instead of the ISO date text `str(date)`. That text is one-to-one with the day, and its formatting is not modelled.
- monthly_analytics is modelled only for its month bounds and `days`. Weights, body fat, distance and calorie averages are floats or `round`.
- The `read` action exists only in the first `ChatMessageViewSet` (app/views.py:1422). The second class of that name (app/views.py:1468) rebinds it, so the route no longer exists. It is modelled as written.
- `ChatMessageViewSet.perform_create` of the first class and attachment uploads are left out. The first class is shadowed, and uploads are file I/O.
- ChatViews.ChatStore.New: takes the participant set as stored. It does not check that the sender takes part in the thread, just as the view does not.
- Routing (app/urls.py and the project and dashboard URL tables) is left out, as are the dashboard templates and forms, and the admin's HTML (`format_html`, links, badges, image previews).
- app/views.py has no weekly quota check, checkout or cart. They are not modelled.

## Findings

| source | as written | input that shows it | evidently intended | confidence | as-written member | corrected member |
|---|---|---|---|---|---|---|
| app/admin.py:390-399 | `BMIFilter.queryset` filters with `bmi__lt`, `bmi__gte`, but `bmi` is a Python property of Progress (app/models.py:349-362), not a database column, so the ORM raises FieldError | choosing "Normal (18.5 ≤ BMI < 25)" in the Progress admin sidebar (`bmi_status=normal`) | keep the entries whose computed BMI lies in the chosen band, agreeing with the BMI column `bmi_display` shows | not executed | Admin.BmiFilterAsWrittenFails | Admin.BmiFilterAgreesWithDisplay |
