/** The request validation and derived values of app/serializers.py:
    Django REST framework field rules (`CharField`, `ChoiceField`,
    `IntegerField`, `DecimalField`, `DateField`) as functions from the
    submitted value to a cleaned value or a field error, the serializers built
    from them, and the two computed fields of a chat thread.

    A submitted field is an Option: None when the key is absent from the
    request. JSON type coercion (a number sent as a string, a `null`) is not
    modelled. */
module Serializers {
  import opened Wrappers
  import opened Calendar
  import Tables
  import Models
  import opened Entities

  // ---------------------------------------------------------- whitespace

  /** The characters Python's `str.strip()` removes that this model knows:
      space, tab, line feed, vertical tab, form feed, carriage return and the
      four ASCII separators. */
  predicate IsSpace(c: char) {
    c == ' ' || ('\t' <= c <= '\r') || ('\U{001C}' <= c <= '\U{001F}')
  }

  function LeadingSpaces(s: string): (n: nat)
    ensures n <= |s|
    ensures forall k :: 0 <= k < n ==> IsSpace(s[k])
    ensures n < |s| ==> !IsSpace(s[n])
  {
    if s == [] || !IsSpace(s[0]) then 0 else 1 + LeadingSpaces(s[1..])
  }

  function TrailingSpaces(s: string): (n: nat)
    ensures n <= |s|
    ensures forall k :: |s| - n <= k < |s| ==> IsSpace(s[k])
    ensures n < |s| ==> !IsSpace(s[|s| - n - 1])
  {
    if s == [] || !IsSpace(s[|s| - 1]) then 0 else 1 + TrailingSpaces(s[..|s| - 1])
  }

  /** `r` is `s` from index `a` on, with only whitespace around it. */
  predicate TrimmedAt(s: string, a: int, r: string) {
    0 <= a && a + |r| <= |s| && s[a..a + |r|] == r
    && (forall k :: 0 <= k < a ==> IsSpace(s[k]))
    && (forall k :: a + |r| <= k < |s| ==> IsSpace(s[k]))
  }

  /** `str(value).strip()`, which `CharField` applies (`trim_whitespace`):
      the part of `s` between its leading and its trailing whitespace. */
  function Trim(s: string): (r: string)
    ensures |r| <= |s|
    ensures r == [] <==> forall k :: 0 <= k < |s| ==> IsSpace(s[k])
    ensures r != [] ==> !IsSpace(r[0]) && !IsSpace(r[|r| - 1])
    ensures exists a :: TrimmedAt(s, a, r)
  {
    var a := LeadingSpaces(s);
    var t := s[a..];
    var b := TrailingSpaces(t);
    var r := t[..|t| - b];
    assert s[a..a + |r|] == r;
    assert forall k :: a + |r| <= k < |s| ==> s[k] == t[k - a];
    assert TrimmedAt(s, a, r);
    r
  }

  /** Trimming twice trims nothing more. */
  lemma TrimIdempotent(s: string)
    ensures Trim(Trim(s)) == Trim(s)
  {
    var r := Trim(s);
    var a := LeadingSpaces(r);
    var b := TrailingSpaces(r[a..]);
    assert a == 0;
    assert r[0..] == r;
    assert b == 0;
    assert r[..|r|] == r;
  }

  // ------------------------------------------------------------ field rules

  datatype FieldError =
    | Required
    | Blank
    | TooShort(minLength: nat)
    | TooLong(maxLength: nat)
    | InvalidChoice
    | BelowMinimum(minValue: int)
    | AboveMaximum(maxValue: int)
    | InvalidDate
    | InvalidDecimal
    | NullCharacters

  /** A value free of U+0000, which the `ProhibitNullCharactersValidator`
      of every `CharField` demands. (The field's other built-in validator
      refuses surrogate code points, which a Dafny `char` cannot hold.) */
  predicate NoNullCharacters(s: string) {
    '\0' !in s
  }

  /** A `CharField` (`allow_blank=False`, `trim_whitespace=True`): an absent
      value is an error when the field is required and is skipped otherwise;
      a value that is empty after trimming is blank; the trimmed value must
      respect the length bounds and hold no null character. The validators
      run in the order the field installs them: maximum length, minimum
      length, null characters. */
  function CharField(v: Option<string>, required: bool, minLength: nat, maxLength: Option<nat>): (r: Result<Option<string>, FieldError>)
    ensures v.None? ==> (r.Ok? <==> !required) && (r.Ok? ==> r.value.None?) && (r.Err? ==> r.error == Required)
    ensures v.Some? ==> (r.Ok? <==> Trim(v.value) != [] && |Trim(v.value)| >= minLength && (maxLength.Some? ==> |Trim(v.value)| <= maxLength.value)
                                     && NoNullCharacters(Trim(v.value)))
    ensures v.Some? && r.Ok? ==> r.value == Some(Trim(v.value))
    ensures v.Some? && Trim(v.value) == [] ==> r == Err(Blank)
    ensures v.Some? && Trim(v.value) != [] && maxLength.Some? && |Trim(v.value)| > maxLength.value ==> r == Err(TooLong(maxLength.value))
    ensures v.Some? && Trim(v.value) != [] && |Trim(v.value)| < minLength && (maxLength.Some? ==> |Trim(v.value)| <= maxLength.value) ==>
      r == Err(TooShort(minLength))
    ensures (v.Some? && Trim(v.value) != [] && |Trim(v.value)| >= minLength && (maxLength.Some? ==> |Trim(v.value)| <= maxLength.value)
             && !NoNullCharacters(Trim(v.value))) ==> r == Err(NullCharacters)
  {
    if v.None? then (if required then Err(Required) else Ok(None))
    else
      var t := Trim(v.value);
      if t == [] then Err(Blank)
      else if maxLength.Some? && |t| > maxLength.value then Err(TooLong(maxLength.value))
      else if |t| < minLength then Err(TooShort(minLength))
      else if !NoNullCharacters(t) then Err(NullCharacters)
      else Ok(Some(t))
  }

  /** A `ChoiceField`: the value must be one of the choices (the empty string
      is not, since blank is not allowed). */
  function ChoiceField(v: Option<string>, choices: set<string>, required: bool): (r: Result<Option<string>, FieldError>)
    ensures v.None? ==> (r.Ok? <==> !required) && (r.Ok? ==> r.value.None?)
    ensures v.Some? ==> (r.Ok? <==> v.value in choices) && (r.Ok? ==> r.value == v)
    ensures r.Err? ==> r.error == (if v.None? then Required else InvalidChoice)
  {
    if v.None? then (if required then Err(Required) else Ok(None))
    else if v.value in choices then Ok(v)
    else Err(InvalidChoice)
  }

  /** An `IntegerField`: an absent value takes the default when there is one
      (the default is not validated), is an error when the field is required,
      and is skipped otherwise; a given value must lie within the bounds. */
  function IntegerField(v: Option<int>, required: bool, default: Option<int>, minValue: Option<int>, maxValue: Option<int>): (r: Result<Option<int>, FieldError>)
    ensures v.None? && default.Some? ==> r == Ok(default)
    ensures v.None? && default.None? ==> (r.Ok? <==> !required) && (r.Ok? ==> r.value.None?)
    ensures v.Some? ==> (r.Ok? <==> (minValue.Some? ==> v.value >= minValue.value) && (maxValue.Some? ==> v.value <= maxValue.value))
    ensures v.Some? && r.Ok? ==> r.value == v
  {
    if v.None? then
      if default.Some? then Ok(default) else if required then Err(Required) else Ok(None)
    else if minValue.Some? && v.value < minValue.value then Err(BelowMinimum(minValue.value))
    else if maxValue.Some? && v.value > maxValue.value then Err(AboveMaximum(maxValue.value))
    else Ok(v)
  }

  /** A value that fits `max_digits=5, decimal_places=2`: at most three digits
      before the point and at most two after it. */
  predicate FitsDecimal5x2(x: real) {
    -1000.0 < x < 1000.0 && (x * 100.0).Floor as real == x * 100.0
  }

  /** A `DecimalField(max_digits=5, decimal_places=2)`. */
  function DecimalField(v: Option<real>, required: bool): (r: Result<Option<real>, FieldError>)
    ensures v.None? ==> (r.Ok? <==> !required) && (r.Ok? ==> r.value.None?)
    ensures v.Some? ==> (r.Ok? <==> FitsDecimal5x2(v.value)) && (r.Ok? ==> r.value == v)
  {
    if v.None? then (if required then Err(Required) else Ok(None))
    else if FitsDecimal5x2(v.value) then Ok(v)
    else Err(InvalidDecimal)
  }

  /** A `DateField` given an already parsed (year, month, day). */
  function DateField(v: Option<Date>, required: bool): (r: Result<Option<Date>, FieldError>)
    ensures v.None? ==> (r.Ok? <==> !required) && (r.Ok? ==> r.value.None?)
    ensures v.Some? ==> (r.Ok? <==> ValidDate(v.value)) && (r.Ok? ==> r.value == v)
  {
    if v.None? then (if required then Err(Required) else Ok(None))
    else if ValidDate(v.value) then Ok(v)
    else Err(InvalidDate)
  }

  /** The entry a field contributes to the serializer's `errors`. */
  function ErrorsOf<T>(name: string, r: Result<T, FieldError>): (m: map<string, FieldError>)
    ensures r.Ok? ==> m == map[]
    ensures r.Err? ==> m == map[name := r.error]
  {
    if r.Err? then map[name := r.error] else map[]
  }

  // ----------------------------------------------- UserRegistrationSerializer

  const PasswordMinLength: nat := 8

  /** The submitted registration. `others` holds the user columns (username,
      email, names), whose validation is not part of this model. */
  datatype RegistrationInput = RegistrationInput(password: Option<string>, passwordConfirm: Option<string>, others: map<string, string>)

  datatype RegistrationError =
    | FieldErrors(fields: map<string, FieldError>)
    | PasswordsDontMatch

  /** The two password fields after their own field rules: `password` is a
      required `CharField(min_length=8)`, `password_confirm` a required `CharField`. */
  function PasswordField(input: RegistrationInput): Result<Option<string>, FieldError> {
    CharField(input.password, true, PasswordMinLength, None)
  }

  function ConfirmField(input: RegistrationInput): Result<Option<string>, FieldError> {
    CharField(input.passwordConfirm, true, 0, None)
  }

  /** The `User` columns of `Meta.fields` besides the two passwords; DRF
      builds a trimming `CharField` for each. */
  const RegistrationUserFields: set<string> := {"username", "email", "first_name", "last_name"}

  /** The user columns that reach `validated_data`: a `ModelSerializer` keeps
      only the declared fields, each trimmed; undeclared keys are dropped. */
  function RegistrationColumns(others: map<string, string>): (cols: map<string, string>)
    ensures forall k :: k in cols <==> k in others && k in RegistrationUserFields
    ensures forall k :: k in cols ==> cols[k] == Trim(others[k])
    ensures "password" !in cols && "password_confirm" !in cols
  {
    PasswordsAreNotUserFields();
    map k | k in others && k in RegistrationUserFields :: Trim(others[k])
  }

  /** Neither password field is one of the user columns. */
  lemma PasswordsAreNotUserFields()
    ensures "password" !in RegistrationUserFields && "password_confirm" !in RegistrationUserFields
  {
    assert "password"[0] != "username"[0] && "password"[0] != "email"[0];
    assert "password"[0] != "first_name"[0] && "password"[0] != "last_name"[0];
    assert "password_confirm"[0] != "username"[0] && "password_confirm"[0] != "email"[0];
    assert "password_confirm"[0] != "first_name"[0] && "password_confirm"[0] != "last_name"[0];
  }

  /** `is_valid()` on a registration: the field rules first, reported
      together, then `validate`, which refuses two different passwords. */
  function ValidateRegistration(input: RegistrationInput): (r: Result<map<string, string>, RegistrationError>)
    ensures r.Ok? <==>
      input.password.Some? && input.passwordConfirm.Some?
      && |Trim(input.password.value)| >= PasswordMinLength && Trim(input.passwordConfirm.value) != []
      && NoNullCharacters(Trim(input.password.value)) && NoNullCharacters(Trim(input.passwordConfirm.value))
      && Trim(input.password.value) == Trim(input.passwordConfirm.value)
    ensures r == Err(PasswordsDontMatch) <==>
      input.password.Some? && input.passwordConfirm.Some?
      && |Trim(input.password.value)| >= PasswordMinLength && Trim(input.passwordConfirm.value) != []
      && NoNullCharacters(Trim(input.password.value)) && NoNullCharacters(Trim(input.passwordConfirm.value))
      && Trim(input.password.value) != Trim(input.passwordConfirm.value)
    ensures input.password.Some? && 0 < |Trim(input.password.value)| < PasswordMinLength ==>
      r.Err? && r.error.FieldErrors? && "password" in r.error.fields && r.error.fields["password"] == TooShort(PasswordMinLength)
    ensures r.Ok? ==>
      r.value.Keys == (input.others.Keys * RegistrationUserFields) + {"password", "password_confirm"}
      && r.value["password"] == Trim(input.password.value) && r.value["password_confirm"] == Trim(input.password.value)
      && forall k :: k in input.others && k in RegistrationUserFields ==> r.value[k] == Trim(input.others[k])
  {
    var pw := PasswordField(input);
    var pc := ConfirmField(input);
    if pw.Err? || pc.Err? then
      var errors := ErrorsOf("password", pw) + ErrorsOf("password_confirm", pc);
      assert pw.Err? ==> "password" in errors && errors["password"] == pw.error;
      assert pc.Err? ==> "password_confirm" in errors;
      Err(FieldErrors(errors))
    else if pw.value.value != pc.value.value then Err(PasswordsDontMatch)
    else Ok(RegistrationColumns(input.others)["password" := pw.value.value]["password_confirm" := pc.value.value])
  }

  /** `validated_data` of a registration, which `create` changes in place. */
  class ValidatedData {
    var data: map<string, string>

    constructor (data: map<string, string>)
      ensures this.data == data
    {
      this.data := data;
    }

    /** `dict.pop(key)`: removes the key and returns its value; KeyError when
        the key is absent. */
    method Pop(key: string) returns (r: Result<string, ViewError>)
      modifies this`data
      ensures key in old(data) ==> r == Ok(old(data)[key]) && data == old(data) - {key}
      ensures key !in old(data) ==> r == Err(KeyError(key)) && data == old(data)
    {
      if key in data {
        r := Ok(data[key]);
        data := data - {key};
      } else {
        r := Err(KeyError(key));
      }
    }
  }

  /** `UserRegistrationSerializer.create`: pops `password_confirm` and hands
      the rest of `validated_data` to `create_user` (whose hashing is not part
      of this model); the result is the keyword arguments it receives. */
  method CreateUserArguments(v: ValidatedData) returns (r: Result<map<string, string>, ViewError>)
    modifies v`data
    ensures "password_confirm" in old(v.data) ==> r == Ok(old(v.data) - {"password_confirm"}) && v.data == old(v.data) - {"password_confirm"}
    ensures "password_confirm" !in old(v.data) ==> r == Err(KeyError("password_confirm")) && v.data == old(v.data)
  {
    var popped := v.Pop("password_confirm");
    if popped.Err? {
      r := Err(popped.error);
    } else {
      r := Ok(v.data);
    }
  }

  /** What a valid registration creates: the trimmed password, no
      confirmation, and the declared user columns, trimmed; no other
      submitted key (`is_staff`, say) reaches `create_user`. */
  lemma RegistrationCreatesUser(input: RegistrationInput)
    requires ValidateRegistration(input).Ok?
    ensures var d := ValidateRegistration(input).value;
      "password_confirm" in d
      && var args := d - {"password_confirm"};
      "password_confirm" !in args && "password" in args && args["password"] == Trim(input.password.value)
      && args.Keys == (input.others.Keys * RegistrationUserFields) + {"password"}
      && forall k :: k in input.others && k in RegistrationUserFields ==> k in args && args[k] == Trim(input.others[k])
  {
  }

  // ------------------------------------------------------ OTPVerifySerializer

  /** `OTP.Channel.choices`; the OTP model is not part of this model, and the
      two channels are the ones the OTP views create. */
  const OtpChannels: set<string> := {"phone", "email"}
  const OtpCodeMaxLength: nat := 8

  datatype OtpVerifyData = OtpVerifyData(channel: string, destination: string, code: string)

  /** The three rules of `OTPVerifySerializer`, stated on the submitted values. */
  predicate ChannelAcceptable(channel: Option<string>) {
    channel.Some? && channel.value in OtpChannels
  }

  predicate DestinationAcceptable(destination: Option<string>) {
    destination.Some? && Trim(destination.value) != [] && NoNullCharacters(Trim(destination.value))
  }

  predicate CodeAcceptable(code: Option<string>) {
    code.Some? && Trim(code.value) != [] && |Trim(code.value)| <= OtpCodeMaxLength && NoNullCharacters(Trim(code.value))
  }

  function ValidateOtpVerify(channel: Option<string>, destination: Option<string>, code: Option<string>): (r: Result<OtpVerifyData, map<string, FieldError>>)
    ensures r.Ok? <==> ChannelAcceptable(channel) && DestinationAcceptable(destination) && CodeAcceptable(code)
    ensures r.Ok? ==> r.value == OtpVerifyData(channel.value, Trim(destination.value), Trim(code.value))
    ensures r.Ok? ==> 0 < |r.value.code| <= OtpCodeMaxLength
    ensures r.Err? ==> r.error != map[] && r.error.Keys <= {"channel", "destination", "code"}
    ensures r.Err? ==> ("channel" in r.error <==> !ChannelAcceptable(channel))
                       && ("destination" in r.error <==> !DestinationAcceptable(destination))
                       && ("code" in r.error <==> !CodeAcceptable(code))
    ensures r.Err? && "channel" in r.error ==> r.error["channel"] == (if channel.None? then Required else InvalidChoice)
    ensures r.Err? && "destination" in r.error ==>
              r.error["destination"] == (if destination.None? then Required else if Trim(destination.value) == [] then Blank else NullCharacters)
    ensures r.Err? && "code" in r.error ==>
              r.error["code"] == (if code.None? then Required else if Trim(code.value) == [] then Blank
                                  else if |Trim(code.value)| > OtpCodeMaxLength then TooLong(OtpCodeMaxLength) else NullCharacters)
  {
    var c := ChoiceField(channel, OtpChannels, true);
    var d := CharField(destination, true, 0, None);
    var k := CharField(code, true, 0, Some(OtpCodeMaxLength));
    var errors := ErrorsOf("channel", c) + ErrorsOf("destination", d) + ErrorsOf("code", k);
    ErrorsOfThree("channel", c, "destination", d, "code", k);
    if c.Ok? && d.Ok? && k.Ok? then Ok(OtpVerifyData(c.value.value, d.value.value, k.value.value))
    else Err(errors)
  }

  /** The errors of three differently named fields: an entry for exactly the
      failing ones, each holding its field's error. */
  lemma ErrorsOfThree<A, B, C>(n1: string, r1: Result<A, FieldError>, n2: string, r2: Result<B, FieldError>, n3: string, r3: Result<C, FieldError>)
    requires n1 != n2 && n1 != n3 && n2 != n3
    ensures var m := ErrorsOf(n1, r1) + ErrorsOf(n2, r2) + ErrorsOf(n3, r3);
      m.Keys <= {n1, n2, n3}
      && (m == map[] <==> r1.Ok? && r2.Ok? && r3.Ok?)
      && (n1 in m <==> r1.Err?) && (r1.Err? ==> m[n1] == r1.error)
      && (n2 in m <==> r2.Err?) && (r2.Err? ==> m[n2] == r2.error)
      && (n3 in m <==> r3.Err?) && (r3.Err? ==> m[n3] == r3.error)
  {
    var m := ErrorsOf(n1, r1) + ErrorsOf(n2, r2) + ErrorsOf(n3, r3);
    if r1.Err? {
      assert n1 in m;
    } else if r2.Err? {
      assert n2 in m;
    } else if r3.Err? {
      assert n3 in m;
    }
  }

  // ------------------------------------------------------ OnboardingSerializer

  const GenderChoices: set<string> := {"male", "female", "other", "prefer_not_to_say"}
  /** `UnitSystem.choices` is not part of this model; the values are those of
      the profile's own `unit_system` column. */
  const UnitSystemChoices: set<string> := {"imperial", "metric"}
  const DietChoices: set<string> := {"meat", "meat_veg", "veg", "vegan", "keto", "paleo"}
  const ActivityLevelChoices: set<string> := {"sedentary", "light", "moderate", "active", "extreme"}
  const SourceChoices: set<string> := {"social", "friend", "google", "ads", "other"}
  const GoalMaxLength: nat := 100
  const WorkoutsPerWeekMax: int := 14
  const DefaultDailyStepGoal: int := 10000
  const DefaultDailyWaterGoalMl: int := 2000

  datatype OnboardingInput = OnboardingInput(
    dateOfBirth: Option<Date>,
    gender: Option<string>,
    height: Option<real>,
    weight: Option<real>,
    unitSystem: Option<string>,
    goal: Option<string>,
    targetWeight: Option<real>,
    dietaryPreferences: Option<string>,
    activityLevel: Option<string>,
    workoutsPerWeek: Option<int>,
    dailyStepGoal: Option<int>,
    dailyWaterGoalMl: Option<int>,
    phone: Option<string>,
    source: Option<string>)

  datatype OnboardingData = OnboardingData(
    dateOfBirth: Date,
    gender: string,
    height: real,
    weight: real,
    unitSystem: string,
    goal: string,
    targetWeight: Option<real>,
    dietaryPreferences: Option<string>,
    activityLevel: string,
    workoutsPerWeek: int,
    dailyStepGoal: int,
    dailyWaterGoalMl: int,
    phone: Option<string>,
    source: Option<string>)

  /** The onboarding rules, field by field, stated on the submitted values. */
  predicate OnboardingAcceptable(input: OnboardingInput) {
    && input.dateOfBirth.Some? && ValidDate(input.dateOfBirth.value)
    && input.gender.Some? && input.gender.value in GenderChoices
    && input.height.Some? && FitsDecimal5x2(input.height.value)
    && input.weight.Some? && FitsDecimal5x2(input.weight.value)
    && input.unitSystem.Some? && input.unitSystem.value in UnitSystemChoices
    && input.goal.Some? && Trim(input.goal.value) != [] && |Trim(input.goal.value)| <= GoalMaxLength && NoNullCharacters(Trim(input.goal.value))
    && (input.targetWeight.Some? ==> FitsDecimal5x2(input.targetWeight.value))
    && (input.dietaryPreferences.Some? ==> input.dietaryPreferences.value in DietChoices)
    && input.activityLevel.Some? && input.activityLevel.value in ActivityLevelChoices
    && input.workoutsPerWeek.Some? && 0 <= input.workoutsPerWeek.value <= WorkoutsPerWeekMax
    && (input.phone.Some? ==> Trim(input.phone.value) != [] && NoNullCharacters(Trim(input.phone.value)))
    && (input.source.Some? ==> input.source.value in SourceChoices)
  }

  /** The error a field result contributes, if any. */
  function ErrorOf<T>(r: Result<T, FieldError>): (e: Option<FieldError>)
    ensures e.None? <==> r.Ok?
  {
    if r.Err? then Some(r.error) else None
  }

  /** No two entries name the same field. */
  predicate NamesDistinct(entries: seq<(string, Option<FieldError>)>) {
    forall i, j :: 0 <= i < j < |entries| ==> entries[i].0 != entries[j].0
  }

  /** The serializer's `errors`: one entry per failing field, holding that
      field's error, and no entry for a field that passes. */
  function Errors(entries: seq<(string, Option<FieldError>)>): (m: map<string, FieldError>)
    ensures m == map[] <==> forall i :: 0 <= i < |entries| ==> entries[i].1.None?
    ensures forall i :: 0 <= i < |entries| && entries[i].1.Some? ==> entries[i].0 in m
  {
    if entries == [] then map[]
    else
      var rest := Errors(entries[1..]);
      assert forall i :: 1 <= i < |entries| ==> entries[i] == entries[1..][i - 1];
      if entries[0].1.Some? then
        var m := rest[entries[0].0 := entries[0].1.value];
        assert entries[0].0 in m;
        m
      else rest
  }

  /** The fields of `OnboardingSerializer`, in declaration order. */
  const OnboardingFieldNames: seq<string> := [
    "date_of_birth", "gender", "height", "weight", "unit_system", "goal", "target_weight",
    "dietary_preferences", "activity_level", "workouts_per_week", "daily_step_goal",
    "daily_water_goal_ml", "phone", "source" ]

  /** No field is declared twice. */
  lemma OnboardingFieldNamesDistinct()
    ensures |OnboardingFieldNames| == 14
    ensures forall i, j :: 0 <= i < j < 14 ==> OnboardingFieldNames[i] != OnboardingFieldNames[j]
  {
    var n := OnboardingFieldNames;
    assert |n[0]| == 13 && |n[1]| == 6 && |n[2]| == 6 && |n[3]| == 6 && |n[4]| == 11 && |n[5]| == 4 && |n[6]| == 13;
    assert |n[7]| == 19 && |n[8]| == 14 && |n[9]| == 17 && |n[10]| == 15 && |n[11]| == 19 && |n[12]| == 5 && |n[13]| == 6;
    assert n[0][0] != n[6][0] && n[7][1] != n[11][1];
    assert n[1][0] != n[2][0] && n[1][0] != n[3][0] && n[1][0] != n[13][0];
    assert n[2][0] != n[3][0] && n[2][0] != n[13][0] && n[3][0] != n[13][0];
  }

  /** `errors` holds failing fields only, and, when no field is named twice,
      each failing field's entry is that field's error. */
  lemma {:induction false} ErrorsMeaning(entries: seq<(string, Option<FieldError>)>)
    ensures forall k :: k in Errors(entries) ==> exists i :: 0 <= i < |entries| && entries[i].0 == k && entries[i].1.Some?
    ensures NamesDistinct(entries) ==>
              forall i :: 0 <= i < |entries| ==>
                (entries[i].0 in Errors(entries) <==> entries[i].1.Some?)
                && (entries[i].1.Some? ==> Errors(entries)[entries[i].0] == entries[i].1.value)
  {
    if entries != [] {
      var rest := entries[1..];
      ErrorsMeaning(rest);
      assert forall i :: 1 <= i < |entries| ==> entries[i] == rest[i - 1];
      var m := Errors(entries);
      assert m == if entries[0].1.Some? then Errors(rest)[entries[0].0 := entries[0].1.value] else Errors(rest);
      forall k | k in m
        ensures exists i :: 0 <= i < |entries| && entries[i].0 == k && entries[i].1.Some?
      {
        if !(entries[0].1.Some? && k == entries[0].0) {
          assert k in Errors(rest);
          var j :| 0 <= j < |rest| && rest[j].0 == k && rest[j].1.Some?;
          assert entries[j + 1] == rest[j];
        }
      }
      if NamesDistinct(entries) {
        assert NamesDistinct(rest) by {
          forall i, j | 0 <= i < j < |rest|
            ensures rest[i].0 != rest[j].0
          {
            assert rest[i] == entries[i + 1] && rest[j] == entries[j + 1];
          }
        }
        forall i | 1 <= i < |entries|
          ensures (entries[i].0 in m <==> entries[i].1.Some?)
                  && (entries[i].1.Some? ==> m[entries[i].0] == entries[i].1.value)
        {
          assert entries[i] == rest[i - 1];
          assert entries[i].0 != entries[0].0;
        }
      }
    }
  }

  /** Each onboarding field's own rule, applied to the submitted value, in
      the order the fields are declared. */
  function OnboardingEntries(input: OnboardingInput): (entries: seq<(string, Option<FieldError>)>)
    ensures |entries| == 14
    ensures forall i :: 0 <= i < 14 ==> entries[i].0 == OnboardingFieldNames[i]
  {
    [ ("date_of_birth", ErrorOf(DateField(input.dateOfBirth, true))),
      ("gender", ErrorOf(ChoiceField(input.gender, GenderChoices, true))),
      ("height", ErrorOf(DecimalField(input.height, true))),
      ("weight", ErrorOf(DecimalField(input.weight, true))),
      ("unit_system", ErrorOf(ChoiceField(input.unitSystem, UnitSystemChoices, true))),
      ("goal", ErrorOf(CharField(input.goal, true, 0, Some(GoalMaxLength)))),
      ("target_weight", ErrorOf(DecimalField(input.targetWeight, false))),
      ("dietary_preferences", ErrorOf(ChoiceField(input.dietaryPreferences, DietChoices, false))),
      ("activity_level", ErrorOf(ChoiceField(input.activityLevel, ActivityLevelChoices, true))),
      ("workouts_per_week", ErrorOf(IntegerField(input.workoutsPerWeek, true, None, Some(0), Some(WorkoutsPerWeekMax)))),
      ("daily_step_goal", ErrorOf(IntegerField(input.dailyStepGoal, false, Some(DefaultDailyStepGoal), None, None))),
      ("daily_water_goal_ml", ErrorOf(IntegerField(input.dailyWaterGoalMl, false, Some(DefaultDailyWaterGoalMl), None, None))),
      ("phone", ErrorOf(CharField(input.phone, false, 0, None))),
      ("source", ErrorOf(ChoiceField(input.source, SourceChoices, false))) ]
  }

  /** The rules of the first seven onboarding fields, one by one. */
  lemma OnboardingLeadingEntriesPass(input: OnboardingInput)
    ensures ErrorOf(DateField(input.dateOfBirth, true)).None? <==> input.dateOfBirth.Some? && ValidDate(input.dateOfBirth.value)
    ensures ErrorOf(ChoiceField(input.gender, GenderChoices, true)).None? <==> input.gender.Some? && input.gender.value in GenderChoices
    ensures ErrorOf(DecimalField(input.height, true)).None? <==> input.height.Some? && FitsDecimal5x2(input.height.value)
    ensures ErrorOf(DecimalField(input.weight, true)).None? <==> input.weight.Some? && FitsDecimal5x2(input.weight.value)
    ensures ErrorOf(ChoiceField(input.unitSystem, UnitSystemChoices, true)).None? <==> input.unitSystem.Some? && input.unitSystem.value in UnitSystemChoices
    ensures ErrorOf(CharField(input.goal, true, 0, Some(GoalMaxLength))).None? <==>
              input.goal.Some? && Trim(input.goal.value) != [] && |Trim(input.goal.value)| <= GoalMaxLength && NoNullCharacters(Trim(input.goal.value))
    ensures ErrorOf(DecimalField(input.targetWeight, false)).None? <==> (input.targetWeight.Some? ==> FitsDecimal5x2(input.targetWeight.value))
  {
  }

  /** The rules of the last seven onboarding fields, one by one. */
  lemma OnboardingTrailingEntriesPass(input: OnboardingInput)
    ensures ErrorOf(ChoiceField(input.dietaryPreferences, DietChoices, false)).None? <==> (input.dietaryPreferences.Some? ==> input.dietaryPreferences.value in DietChoices)
    ensures ErrorOf(ChoiceField(input.activityLevel, ActivityLevelChoices, true)).None? <==> input.activityLevel.Some? && input.activityLevel.value in ActivityLevelChoices
    ensures ErrorOf(IntegerField(input.workoutsPerWeek, true, None, Some(0), Some(WorkoutsPerWeekMax))).None? <==>
              input.workoutsPerWeek.Some? && 0 <= input.workoutsPerWeek.value <= WorkoutsPerWeekMax
    ensures ErrorOf(IntegerField(input.dailyStepGoal, false, Some(DefaultDailyStepGoal), None, None)).None?
    ensures ErrorOf(IntegerField(input.dailyWaterGoalMl, false, Some(DefaultDailyWaterGoalMl), None, None)).None?
    ensures ErrorOf(CharField(input.phone, false, 0, None)).None? <==> (input.phone.Some? ==> Trim(input.phone.value) != [] && NoNullCharacters(Trim(input.phone.value)))
    ensures ErrorOf(ChoiceField(input.source, SourceChoices, false)).None? <==> (input.source.Some? ==> input.source.value in SourceChoices)
  {
  }

  /** Fourteen entries all pass exactly when each of them passes. */
  lemma AllFourteenPass(e: seq<(string, Option<FieldError>)>)
    requires |e| == 14
    ensures (forall i :: 0 <= i < 14 ==> e[i].1.None?) <==>
      e[0].1.None? && e[1].1.None? && e[2].1.None? && e[3].1.None? && e[4].1.None? && e[5].1.None? && e[6].1.None?
      && e[7].1.None? && e[8].1.None? && e[9].1.None? && e[10].1.None? && e[11].1.None? && e[12].1.None? && e[13].1.None?
  {
    if e[0].1.None? && e[1].1.None? && e[2].1.None? && e[3].1.None? && e[4].1.None? && e[5].1.None? && e[6].1.None?
      && e[7].1.None? && e[8].1.None? && e[9].1.None? && e[10].1.None? && e[11].1.None? && e[12].1.None? && e[13].1.None?
    {
      forall i | 0 <= i < 14 ensures e[i].1.None? {
      }
    }
  }

  /** The field rules all pass exactly when the submission is acceptable. */
  lemma OnboardingEntriesPass(input: OnboardingInput)
    ensures (forall i :: 0 <= i < 14 ==> OnboardingEntries(input)[i].1.None?) <==> OnboardingAcceptable(input)
    ensures OnboardingEntries(input)[9].0 == "workouts_per_week"
    ensures OnboardingEntries(input)[9].1.None? <==> input.workoutsPerWeek.Some? && 0 <= input.workoutsPerWeek.value <= WorkoutsPerWeekMax
  {
    var e := OnboardingEntries(input);
    OnboardingLeadingEntriesPass(input);
    OnboardingTrailingEntriesPass(input);
    AllFourteenPass(e);
    assert e[9].0 == OnboardingFieldNames[9];
  }

  /** The errors of entries named after the onboarding fields: an entry for
      exactly the failing fields, each with its own error. */
  lemma OnboardingErrors(entries: seq<(string, Option<FieldError>)>)
    requires |entries| == 14 && forall i :: 0 <= i < 14 ==> entries[i].0 == OnboardingFieldNames[i]
    ensures forall k :: k in Errors(entries) ==> k in OnboardingFieldNames
    ensures forall i :: 0 <= i < 14 ==>
              (entries[i].0 in Errors(entries) <==> entries[i].1.Some?)
              && (entries[i].1.Some? ==> Errors(entries)[entries[i].0] == entries[i].1.value)
  {
    OnboardingFieldNamesDistinct();
    assert NamesDistinct(entries);
    ErrorsMeaning(entries);
    forall k | k in Errors(entries)
      ensures k in OnboardingFieldNames
    {
      var i :| 0 <= i < |entries| && entries[i].0 == k && entries[i].1.Some?;
      assert OnboardingFieldNames[i] == k;
    }
  }

  /** `OnboardingSerializer(data=...).is_valid()` and its `validated_data`:
      the trimmed goal and phone, the submitted choices and numbers, and the
      two goals' defaults where they were not submitted. */
  function ValidateOnboarding(input: OnboardingInput): (r: Result<OnboardingData, map<string, FieldError>>)
    ensures r.Ok? <==> OnboardingAcceptable(input)
    ensures r.Ok? ==> 0 <= r.value.workoutsPerWeek <= WorkoutsPerWeekMax && input.workoutsPerWeek == Some(r.value.workoutsPerWeek)
    ensures r.Ok? ==> r.value.dailyStepGoal == (if input.dailyStepGoal.Some? then input.dailyStepGoal.value else DefaultDailyStepGoal)
    ensures r.Ok? ==> r.value.dailyWaterGoalMl == (if input.dailyWaterGoalMl.Some? then input.dailyWaterGoalMl.value else DefaultDailyWaterGoalMl)
    ensures r.Ok? ==> r.value.dateOfBirth == input.dateOfBirth.value && r.value.gender == input.gender.value
                      && r.value.height == input.height.value && r.value.weight == input.weight.value
                      && r.value.unitSystem == input.unitSystem.value && r.value.goal == Trim(input.goal.value)
                      && r.value.targetWeight == input.targetWeight && r.value.dietaryPreferences == input.dietaryPreferences
                      && r.value.activityLevel == input.activityLevel.value && r.value.source == input.source
                      && r.value.phone == (if input.phone.Some? then Some(Trim(input.phone.value)) else None)
    ensures r.Err? ==> r.error != map[] && r.error == Errors(OnboardingEntries(input))
    ensures r.Err? ==> forall k :: k in r.error ==> k in OnboardingFieldNames
    ensures r.Err? ==> forall i :: 0 <= i < 14 ==>
              (OnboardingEntries(input)[i].0 in r.error <==> OnboardingEntries(input)[i].1.Some?)
              && (OnboardingEntries(input)[i].1.Some? ==> r.error[OnboardingEntries(input)[i].0] == OnboardingEntries(input)[i].1.value)
    ensures (input.workoutsPerWeek.None? || !(0 <= input.workoutsPerWeek.value <= WorkoutsPerWeekMax)) ==>
      r.Err? && "workouts_per_week" in r.error
  {
    OnboardingEntriesPass(input);
    var errors := Errors(OnboardingEntries(input));
    OnboardingErrors(OnboardingEntries(input));
    if OnboardingAcceptable(input) then
      Ok(OnboardingData(
        input.dateOfBirth.value, input.gender.value, input.height.value, input.weight.value,
        input.unitSystem.value, Trim(input.goal.value), input.targetWeight, input.dietaryPreferences,
        input.activityLevel.value, input.workoutsPerWeek.value,
        if input.dailyStepGoal.Some? then input.dailyStepGoal.value else DefaultDailyStepGoal,
        if input.dailyWaterGoalMl.Some? then input.dailyWaterGoalMl.value else DefaultDailyWaterGoalMl,
        if input.phone.Some? then Some(Trim(input.phone.value)) else None,
        input.source))
    else
      Err(errors)
  }

  // ------------------------------------------------------ ChatThreadSerializer

  predicate UnreadBy(m: ChatMessage, thread: nat, user: nat) {
    m.thread == thread && m.receiver == Some(user) && m.readAt.None?
  }

  /** The messages of the thread that `user` received and has not read. */
  function UnreadFor(thread: nat, user: nat): ChatMessage -> bool {
    (m: ChatMessage) => UnreadBy(m, thread, user)
  }

  /** `get_unread_count`: the thread's messages addressed to the requesting
      user that have no `read_at`. */
  function UnreadCount(messages: seq<ChatMessage>, thread: nat, user: nat): (n: nat)
    ensures n <= |messages|
    ensures n == 0 <==> forall i :: 0 <= i < |messages| ==> !UnreadBy(messages[i], thread, user)
    ensures n == |Tables.Filter(messages, UnreadFor(thread, user))|
  {
    Tables.CountIsFilterLength(messages, UnreadFor(thread, user));
    Tables.Count(messages, UnreadFor(thread, user))
  }

  /** `order_by('-created_at').first()`: a message no other message is newer
      than, or None for no messages. Among equally new messages it is the
      first in table order. */
  function Latest(ms: seq<ChatMessage>): (r: Option<ChatMessage>)
    ensures r.None? <==> ms == []
    ensures r.Some? ==> r.value in ms && forall i :: 0 <= i < |ms| ==> ms[i].createdAt <= r.value.createdAt
  {
    if ms == [] then None
    else
      var rest := Latest(ms[1..]);
      if rest.None? || ms[0].createdAt >= rest.value.createdAt then Some(ms[0])
      else rest
  }

  /** `get_last_message`: the newest message of the thread. */
  function LastMessage(messages: seq<ChatMessage>, thread: nat): (r: Option<ChatMessage>)
    ensures r.None? <==> forall i :: 0 <= i < |messages| ==> messages[i].thread != thread
    ensures r.Some? ==> r.value in messages && r.value.thread == thread
    ensures r.Some? ==> forall i :: 0 <= i < |messages| && messages[i].thread == thread ==> messages[i].createdAt <= r.value.createdAt
  {
    var p := (m: ChatMessage) => m.thread == thread;
    Tables.FilterMembers(messages, p);
    var mine := Tables.Filter(messages, p);
    var r := Latest(mine);
    assert r.None? ==> forall i :: 0 <= i < |messages| ==> messages[i].thread != thread;
    r
  }

  /** A newer message of the thread becomes its last message. */
  lemma {:induction false} NewMessageIsLast(messages: seq<ChatMessage>, m: ChatMessage)
    requires forall i :: 0 <= i < |messages| && messages[i].thread == m.thread ==> messages[i].createdAt < m.createdAt
    ensures LastMessage(messages + [m], m.thread) == Some(m)
  {
    var p := (x: ChatMessage) => x.thread == m.thread;
    Tables.FilterAppend(messages, [m], p);
    var mine := Tables.Filter(messages, p);
    Tables.FilterMembers(messages, p);
    assert Tables.Filter([m], p) == [m] by {
      assert [m][1..] == [];
    }
    LatestOfAppended(mine, m);
  }

  lemma {:induction false} LatestOfAppended(ms: seq<ChatMessage>, m: ChatMessage)
    requires forall i :: 0 <= i < |ms| ==> ms[i].createdAt < m.createdAt
    ensures Latest(ms + [m]) == Some(m)
  {
    if ms == [] {
      assert [m][1..] == [];
    } else {
      assert (ms + [m])[1..] == ms[1..] + [m];
      LatestOfAppended(ms[1..], m);
    }
  }

  // ------------------------------------------------ UserProfileSerializer.create

  /** The serializer's `read_only_fields`: submitted values for them are dropped. */
  const ProfileReadOnlyFields: set<string> := {"created_at", "last_updated", "age", "bmi", "user"}

  /** `Meta.fields` of `UserProfileSerializer`. */
  const ProfileFields: set<string> := {
    "user", "date_of_birth", "age", "gender", "height", "weight",
    "unit_system", "goal", "target_weight", "dietary_preferences",
    "activity_level", "phone", "source", "bmi", "status",
    "checkin_status", "last_communication", "program_start_date",
    "workouts_per_week", "goal_rate_lbs_per_week",
    "calorie_rollover_enabled", "daily_step_goal",
    "daily_water_goal_ml", "sleep_goal_hours", "timezone",
    "onboarding_completed", "phone_verified", "email_verified",
    "created_at", "last_updated" }

  /** The writable fields that the model declares as a `CharField` without
      choices; their serializer fields trim the submitted text. */
  const ProfileTextFields: set<string> := {"goal", "phone"}

  /** The columns of a created profile other than its key, birth date and
      age: `validated_data` keeps only the declared writable fields (anything
      else submitted is dropped), with the text fields trimmed. */
  function ProfileColumns(submitted: map<string, string>): (cols: map<string, string>)
    ensures forall k :: k in cols <==> k in submitted && k in ProfileFields && k !in ProfileReadOnlyFields && k != "date_of_birth"
    ensures forall k :: k in cols ==> cols[k] == if k in ProfileTextFields then Trim(submitted[k]) else submitted[k]
    ensures "user" !in cols && "age" !in cols && "date_of_birth" !in cols
  {
    map k | k in submitted && k in ProfileFields - ProfileReadOnlyFields - {"date_of_birth"} ::
      if k in ProfileTextFields then Trim(submitted[k]) else submitted[k]
  }

  datatype ProfileRow = ProfileRow(user: nat, dateOfBirth: Date, age: int, columns: map<string, string>)

  function ProfileKey(p: ProfileRow): nat { p.user }

  /** The profile table; `user` is its primary key. */
  class ProfileTable {
    var rows: seq<ProfileRow>

    constructor (rows: seq<ProfileRow>)
      ensures this.rows == rows
    {
      this.rows := rows;
    }

    /** `UserProfileSerializer.create`: the profile belongs to the requesting
        user whatever `user` the request named, its read-only fields are
        ignored, and saving computes its age. The row is refused when its age
        is negative (a birth date after today fails the column's CHECK) or
        when the user already has a profile (the primary key). Both are
        IntegrityError; when both apply the model reports the CHECK. */
    method Create(requestUser: nat, submitted: map<string, string>, dateOfBirth: Date, today: Date)
      returns (r: Result<ProfileRow, Tables.IntegrityError>)
      modifies this`rows
      ensures r.Ok? <==> !Before(today, dateOfBirth) && forall i :: 0 <= i < |old(rows)| ==> old(rows)[i].user != requestUser
      ensures Before(today, dateOfBirth) ==> r == Err(Tables.CheckFailed("age"))
      ensures !Before(today, dateOfBirth) && r.Err? ==> r.error == Tables.DuplicateKey
      ensures r.Ok? ==> r.value == ProfileRow(requestUser, dateOfBirth, Models.AgeOn(dateOfBirth, today), ProfileColumns(submitted))
      ensures r.Ok? ==> r.value.age >= 0
      ensures r.Ok? ==> rows == old(rows) + [r.value]
      ensures r.Err? ==> rows == old(rows)
    {
      var profile := new Models.UserProfile(requestUser, dateOfBirth);
      var saved := profile.Save(today);
      if saved.Err? {
        return Err(saved.error);
      }
      var row := ProfileRow(profile.user, profile.dateOfBirth, profile.age.value, ProfileColumns(submitted));
      var inserted := Tables.InsertUnique(rows, row, ProfileKey);
      if inserted.Ok? {
        rows := inserted.value;
        r := Ok(row);
      } else {
        r := Err(inserted.error);
      }
    }
  }

  /** No user ever has two profiles. */
  lemma ProfileKeyInvariant(rows: seq<ProfileRow>, row: ProfileRow)
    requires Tables.UniqueBy(rows, ProfileKey)
    ensures Tables.InsertUnique(rows, row, ProfileKey).Ok? ==> Tables.UniqueBy(Tables.InsertUnique(rows, row, ProfileKey).value, ProfileKey)
  {
    Tables.InsertKeepsUnique(rows, row, ProfileKey);
  }
}
