/** The display and validation helpers of app/admin.py: list columns that turn a
    row into text, the list filters, the two positive-value form validators
    and the bulk activate / deactivate actions on users. */
module Admin {
  import opened Wrappers
  import Models
  import Tables

  // ------------------------------------------------------------ text helpers

  function Repeat(c: char, n: int): (r: string)
    ensures |r| == if n > 0 then n else 0
    ensures forall i :: 0 <= i < |r| ==> r[i] == c
  {
    if n <= 0 then "" else [c] + Repeat(c, n - 1)
  }

  /** The value of a string of decimal digits. */
  function DigitsValue(s: string): nat
  {
    if s == [] then 0
    else DigitsValue(s[..|s| - 1]) * 10 + (if '0' <= s[|s| - 1] <= '9' then (s[|s| - 1] - '0') as nat else 0)
  }

  predicate AllDigits(s: string) {
    forall i :: 0 <= i < |s| ==> '0' <= s[i] <= '9'
  }

  /** `str(n)` / `f"{n}"` for a non-negative integer: the canonical decimal
      numeral, which reads back as `n`. */
  function NatToString(n: nat): (r: string)
    ensures |r| >= 1 && AllDigits(r)
    ensures |r| > 1 ==> r[0] != '0'
    ensures DigitsValue(r) == n
  {
    var d := ['0' + (n % 10) as char];
    if n < 10 then d
    else
      var prefix := NatToString(n / 10);
      assert (prefix + d)[..|prefix + d| - 1] == prefix;
      prefix + d
  }

  /** `", ".join(items)`. */
  function Join(items: seq<string>): string
  {
    if items == [] then ""
    else if |items| == 1 then items[0]
    else items[0] + ", " + Join(items[1..])
  }

  /** The shape of `dietary_tags` and `photos_available`:
      the joined list, or "-" when it is empty. */
  function JoinOrDash(items: seq<string>): string
  {
    if items == [] then "-" else Join(items)
  }

  /** Reads a column back: splits at each ", "; "-" is the empty list. */
  function SplitAt(s: string, current: string): seq<string>
    decreases |s|
  {
    if s == [] then [current]
    else if |s| >= 2 && s[0] == ',' && s[1] == ' ' then [current] + SplitAt(s[2..], "")
    else SplitAt(s[1..], current + [s[0]])
  }

  function ReadList(s: string): seq<string>
  {
    if s == "-" then [] else SplitAt(s, "")
  }

  predicate NoComma(s: string) {
    forall i :: 0 <= i < |s| ==> s[i] != ','
  }

  lemma {:induction false} SplitAcrossWord(a: string, rest: string, current: string)
    requires NoComma(a)
    ensures SplitAt(a + rest, current) == SplitAt(rest, current + a)
    decreases |a|
  {
    if a != [] {
      assert (a + rest)[1..] == a[1..] + rest;
      SplitAcrossWord(a[1..], rest, current + [a[0]]);
      assert current + [a[0]] + a[1..] == current + a;
    } else {
      assert a + rest == rest;
      assert current + a == current;
    }
  }

  lemma {:induction false} SplitJoin(items: seq<string>)
    requires items != []
    requires forall i :: 0 <= i < |items| ==> NoComma(items[i])
    ensures SplitAt(Join(items), "") == items
    decreases |items|
  {
    if |items| == 1 {
      SplitAcrossWord(items[0], "", "");
      assert items[0] + "" == items[0];
      assert "" + items[0] == items[0];
    } else {
      var tail := Join(items[1..]);
      var rest := ", " + tail;
      assert Join(items) == items[0] + rest;
      SplitAcrossWord(items[0], rest, "");
      assert "" + items[0] == items[0];
      assert rest[2..] == tail;
      assert SplitAt(rest, items[0]) == [items[0]] + SplitAt(tail, "");
      SplitJoin(items[1..]);
      assert items == [items[0]] + items[1..];
    }
  }

  lemma JoinLength(items: seq<string>)
    requires |items| > 1
    ensures |Join(items)| >= 2
  {
  }

  /** A list column loses nothing: reading it back gives the list shown, and
      it shows "-" exactly for the empty list. */
  lemma ListColumnRoundTrip(items: seq<string>)
    requires items != ["-"]
    requires forall i :: 0 <= i < |items| ==> NoComma(items[i])
    ensures ReadList(JoinOrDash(items)) == items
    ensures JoinOrDash(items) == "-" <==> items == []
  {
    if items != [] {
      SplitJoin(items);
      if |items| > 1 {
        JoinLength(items);
      }
    }
  }

  // ----------------------------------------------------- satisfaction_stars

  const FilledStar: char := '\U{2605}'
  const EmptyStar: char := '\U{2606}'

  /** `satisfaction_stars` of workout logs and meal logs: "-" when the rating is
      unset or 0 (falsy); otherwise `s` filled stars, then `5 - s` empty ones
      (Python repeats a string a negative number of times as ""). */
  function SatisfactionStars(s: Option<int>): (r: string)
    ensures s.None? || s.value == 0 ==> r == "-"
    ensures s.Some? && s.value != 0 ==>
      |r| == (if s.value > 0 then s.value else 0) + (if s.value < 5 then 5 - s.value else 0)
      && forall i :: 0 <= i < |r| ==> (r[i] == FilledStar <==> i < s.value) && (r[i] == EmptyStar <==> i >= s.value)
  {
    if s.None? || s.value == 0 then "-"
    else Repeat(FilledStar, s.value) + Repeat(EmptyStar, 5 - s.value)
  }

  function CountChar(r: string, c: char): nat
  {
    if r == [] then 0 else (if r[0] == c then 1 else 0) + CountChar(r[1..], c)
  }

  lemma {:induction false} CountCharPrefix(r: string, c: char, k: nat)
    requires k <= |r|
    requires forall i :: 0 <= i < |r| ==> (r[i] == c <==> i < k)
    ensures CountChar(r, c) == k
  {
    if r != [] {
      CountCharPrefix(r[1..], c, if k > 0 then k - 1 else 0);
    }
  }

  /** Every rating in the validated range 1..5 renders as exactly five stars,
      and the number of filled stars reads back as the rating. */
  lemma StarsRoundTrip(s: int)
    requires 1 <= s <= 5
    ensures |SatisfactionStars(Some(s))| == 5
    ensures CountChar(SatisfactionStars(Some(s)), FilledStar) == s
    ensures CountChar(SatisfactionStars(Some(s)), EmptyStar) == 5 - s
  {
    var r := SatisfactionStars(Some(s));
    CountCharPrefix(r, FilledStar, s);
    forall i | 0 <= i < |r| ensures r[i] == EmptyStar <==> i >= s {
    }
    CountEmptySuffix(r, s);
  }

  lemma {:induction false} CountEmptySuffix(r: string, s: nat)
    requires s <= |r|
    requires forall i :: 0 <= i < |r| ==> (r[i] == EmptyStar <==> i >= s)
    ensures CountChar(r, EmptyStar) == |r| - s
  {
    if r != [] {
      CountEmptySuffix(r[1..], if s > 0 then s - 1 else 0);
    }
  }

  // ---------------------------------------------------------- notes_preview

  const PreviewLength: nat := 50

  /** `notes_preview`: "-" for empty notes, notes of up to 50 characters
      unchanged, and the first 50 characters followed by "..." otherwise. */
  function NotesPreview(notes: string): (r: string)
    ensures notes == [] ==> r == "-"
    ensures 0 < |notes| <= PreviewLength ==> r == notes
    ensures |notes| > PreviewLength ==> |r| == PreviewLength + 3 && r[..PreviewLength] == notes[..PreviewLength] && r[PreviewLength..] == "..."
  {
    if notes == [] then "-"
    else if |notes| > PreviewLength then notes[..PreviewLength] + "..."
    else notes
  }

  /** Previewing a preview changes nothing. */
  lemma {:induction false} NotesPreviewIdempotent(notes: string)
    ensures NotesPreview(NotesPreview(notes)) == NotesPreview(notes)
  {
    var r := NotesPreview(notes);
    if |notes| > PreviewLength {
      assert r[..PreviewLength] + "..." == r;
    }
  }

  // ----------------------------------------------------------- dietary_tags

  function TagRank(t: string): int {
    if t == "Vegan" then 0 else if t == "Vegetarian" then 1 else if t == "GF" then 2 else 3
  }

  /** The tags `dietary_tags` collects: vegan wins over vegetarian, then gluten
      free, then dairy free, in that order. */
  function DietaryTagList(m: Models.Meal): (tags: seq<string>)
    ensures "Vegan" in tags <==> m.isVegan
    ensures "Vegetarian" in tags <==> m.isVegetarian && !m.isVegan
    ensures "GF" in tags <==> m.isGlutenFree
    ensures "DF" in tags <==> m.isDairyFree
    ensures forall i :: 0 <= i < |tags| - 1 ==> TagRank(tags[i]) < TagRank(tags[i + 1])
    ensures forall i :: 0 <= i < |tags| ==> tags[i] in ["Vegan", "Vegetarian", "GF", "DF"]
  {
    (if m.isVegan then ["Vegan"] else if m.isVegetarian then ["Vegetarian"] else [])
      + (if m.isGlutenFree then ["GF"] else [])
      + (if m.isDairyFree then ["DF"] else [])
  }

  /** Vegan and Vegetarian are never both shown. */
  lemma VeganExcludesVegetarian(m: Models.Meal)
    ensures !("Vegan" in DietaryTagList(m) && "Vegetarian" in DietaryTagList(m))
  {
  }

  lemma KnownTagsHaveNoComma(tags: seq<string>, known: seq<string>)
    requires forall i :: 0 <= i < |known| ==> NoComma(known[i]) && known[i] != "-"
    requires forall i :: 0 <= i < |tags| ==> tags[i] in known
    ensures forall i :: 0 <= i < |tags| ==> NoComma(tags[i])
    ensures tags != ["-"]
  {
    if |tags| == 1 {
      assert tags[0] in known;
    }
  }

  /** The tag column reads back as the tag list, and is "-" exactly when the
      meal has no dietary flag. */
  lemma DietaryColumnRoundTrip(m: Models.Meal)
    ensures ReadList(JoinOrDash(DietaryTagList(m))) == DietaryTagList(m)
    ensures JoinOrDash(DietaryTagList(m)) == "-" <==> !(m.isVegan || m.isVegetarian || m.isGlutenFree || m.isDairyFree)
  {
    var known := ["Vegan", "Vegetarian", "GF", "DF"];
    assert forall i :: 0 <= i < |known| ==> NoComma(known[i]) && known[i] != "-";
    KnownTagsHaveNoComma(DietaryTagList(m), known);
    ListColumnRoundTrip(DietaryTagList(m));
  }

  /** `MealAdmin.dietary_tags`: appends the tags one by one, then joins them. */
  method DietaryTags(m: Models.Meal) returns (r: string)
    ensures r == JoinOrDash(DietaryTagList(m))
    ensures ReadList(r) == DietaryTagList(m)
    ensures r == "-" <==> !(m.isVegan || m.isVegetarian || m.isGlutenFree || m.isDairyFree)
  {
    var tags: seq<string> := [];
    if m.isVegan {
      tags := tags + ["Vegan"];
    } else if m.isVegetarian {
      tags := tags + ["Vegetarian"];
    }
    if m.isGlutenFree {
      tags := tags + ["GF"];
    }
    if m.isDairyFree {
      tags := tags + ["DF"];
    }
    assert tags == (if m.isVegan then ["Vegan"] else if m.isVegetarian then ["Vegetarian"] else [])
      + (if m.isGlutenFree then ["GF"] else []) + (if m.isDairyFree then ["DF"] else []);
    r := if tags != [] then Join(tags) else "-";
    DietaryColumnRoundTrip(m);
  }

  // ------------------------------------------------------- photos_available

  /** The photos `photos_available` lists: Front, Side, Back, in that order,
      for the images that are set. */
  function PhotoList(p: Models.Progress): (names: seq<string>)
    ensures "Front" in names <==> p.frontImage
    ensures "Side" in names <==> p.sideImage
    ensures "Back" in names <==> p.backImage
    ensures |names| <= 3
    ensures forall i :: 0 <= i < |names| ==> names[i] in ["Front", "Side", "Back"]
    ensures forall i :: 0 <= i < |names| - 1 ==> PhotoRank(names[i]) < PhotoRank(names[i + 1])
  {
    (if p.frontImage then ["Front"] else [])
      + (if p.sideImage then ["Side"] else [])
      + (if p.backImage then ["Back"] else [])
  }

  function PhotoRank(n: string): int {
    if n == "Front" then 0 else if n == "Side" then 1 else 2
  }

  /** The photo column reads back as the photo list, and is "-" exactly when
      the entry has no photo. */
  lemma PhotoColumnRoundTrip(p: Models.Progress)
    ensures ReadList(JoinOrDash(PhotoList(p))) == PhotoList(p)
    ensures JoinOrDash(PhotoList(p)) == "-" <==> !(p.frontImage || p.sideImage || p.backImage)
  {
    var known := ["Front", "Side", "Back"];
    assert forall i :: 0 <= i < |known| ==> NoComma(known[i]) && known[i] != "-";
    KnownTagsHaveNoComma(PhotoList(p), known);
    ListColumnRoundTrip(PhotoList(p));
  }

  /** `ProgressAdmin.photos_available`. */
  method PhotosAvailable(p: Models.Progress) returns (r: string)
    ensures r == JoinOrDash(PhotoList(p))
    ensures ReadList(r) == PhotoList(p)
    ensures r == "-" <==> !(p.frontImage || p.sideImage || p.backImage)
  {
    var photos: seq<string> := [];
    if p.frontImage {
      photos := photos + ["Front"];
    }
    if p.sideImage {
      photos := photos + ["Side"];
    }
    if p.backImage {
      photos := photos + ["Back"];
    }
    assert photos == (if p.frontImage then ["Front"] else [])
      + (if p.sideImage then ["Side"] else []) + (if p.backImage then ["Back"] else []);
    r := if photos != [] then Join(photos) else "-";
    PhotoColumnRoundTrip(p);
  }

  // ------------------------------------------------------- duration_display

  const SecondsPerDay: int := 86400
  const MicrosPerSecond: int := 1_000_000

  /** `timedelta.seconds` of a duration of `d` microseconds: the whole seconds
      of the part below one day (a negative duration counts back from the next
      day, as Python normalises it). */
  function TimedeltaSeconds(d: int): (s: int)
    ensures 0 <= s < SecondsPerDay
    ensures s * MicrosPerSecond <= d % (SecondsPerDay * MicrosPerSecond) < s * MicrosPerSecond + MicrosPerSecond
  {
    var q := d / MicrosPerSecond;
    var s := q % SecondsPerDay;
    var k := q / SecondsPerDay;
    var u := d % MicrosPerSecond;
    assert d == k * (SecondsPerDay * MicrosPerSecond) + (s * MicrosPerSecond + u);
    assert 0 <= s * MicrosPerSecond + u < SecondsPerDay * MicrosPerSecond;
    ModOfSplit(d, k, s * MicrosPerSecond + u, SecondsPerDay * MicrosPerSecond);
    s
  }

  /** The remainder of `k * n + r` by `n`, for `r` in range, is `r`. */
  lemma ModOfSplit(d: int, k: int, r: int, n: int)
    requires n > 0 && 0 <= r < n && d == k * n + r
    ensures d % n == r
  {
    var q, m := d / n, d % n;
    var x := k - q;
    assert x * n == m - r by {
      assert d == q * n + m;
      assert k * n - q * n == x * n;
    }
    if x > 0 {
      MultipleAtLeast(x, n);
    } else if x < 0 {
      MultipleAtLeast(-x, n);
    }
  }

  /** A positive multiple of `n` is at least `n`. */
  lemma {:induction false} MultipleAtLeast(x: int, n: int)
    requires x >= 1 && n > 0
    ensures x * n >= n
    decreases x
  {
    if x > 1 {
      MultipleAtLeast(x - 1, n);
      assert x * n == (x - 1) * n + n;
    }
  }

  /** `divmod(duration.seconds, 3600)` and `divmod(remainder, 60)`: the hours
      and minutes of `timedelta.seconds`. */
  function DurationParts(d: int): (hm: (int, int))
    ensures 0 <= hm.0 < 24 && 0 <= hm.1 < 60
    ensures hm.0 * 3600 + hm.1 * 60 <= TimedeltaSeconds(d) < hm.0 * 3600 + hm.1 * 60 + 60
  {
    var secs := TimedeltaSeconds(d);
    (secs / 3600, (secs % 3600) / 60)
  }

  /** The days of a duration are not shown. */
  lemma DurationIgnoresDays(d: int, days: int)
    ensures DurationParts(d + days * SecondsPerDay * MicrosPerSecond) == DurationParts(d)
  {
    var e := d + days * SecondsPerDay * MicrosPerSecond;
    assert e / MicrosPerSecond == d / MicrosPerSecond + days * SecondsPerDay;
    assert (e / MicrosPerSecond) % SecondsPerDay == (d / MicrosPerSecond) % SecondsPerDay;
  }

  /** `UserWorkoutLog.duration_display`: "-" where `duration_actual` is None or
      a zero timedelta (both falsy), otherwise "<hours>h <minutes>m". */
  function DurationDisplay(d: Option<int>): (r: string)
    ensures r == "-" <==> d.None? || d.value == 0
    ensures d.Some? && d.value != 0 ==>
      r == NatToString(DurationParts(d.value).0) + "h " + NatToString(DurationParts(d.value).1) + "m"
  {
    if d.None? || d.value == 0 then "-"
    else
      var hm := DurationParts(d.value);
      var h := NatToString(hm.0);
      var m := NatToString(hm.1);
      assert (h + "h " + m + "m")[|h|] == 'h';
      h + "h " + m + "m"
  }

  /** A non-zero duration under one minute is truthy, so it shows as
      "0h 0m" rather than "-". */
  lemma SubMinuteDurationShown(d: int)
    requires 0 < d < 60 * MicrosPerSecond
    ensures DurationDisplay(Some(d)) == "0h 0m"
  {
    assert d / MicrosPerSecond < 60;
    assert DurationParts(d) == (0, 0);
  }

  /** The two numbers of a shown duration read back as its hours and minutes. */
  lemma DurationDisplayReadsBack(d: int)
    requires d != 0
    ensures var r := DurationDisplay(Some(d));
      var hm := DurationParts(d);
      var h := NatToString(hm.0);
      r[..|h|] == h && DigitsValue(h) == hm.0
      && DigitsValue(r[|h| + 2..|r| - 1]) == hm.1
  {
    var r := DurationDisplay(Some(d));
    var hm := DurationParts(d);
    var h := NatToString(hm.0);
    var m := NatToString(hm.1);
    assert r == h + "h " + m + "m";
    assert r[|h| + 2..|r| - 1] == m;
  }

  // ------------------------------------------------------------ BMI banding

  datatype BmiBand = Underweight | Normal | Overweight | Obese

  /** The band the filter's lookups and the display's branches describe. */
  predicate InBand(b: BmiBand, bmi: real) {
    match b
    case Underweight => bmi < 18.5
    case Normal => 18.5 <= bmi < 25.0
    case Overweight => 25.0 <= bmi < 30.0
    case Obese => bmi >= 30.0
  }

  /** The four bands partition the values: every BMI lies in exactly one. */
  lemma BandsPartition(bmi: real)
    ensures exists b :: InBand(b, bmi)
    ensures forall b1, b2 :: InBand(b1, bmi) && InBand(b2, bmi) ==> b1 == b2
  {
    if bmi < 18.5 { assert InBand(Underweight, bmi); }
    else if bmi < 25.0 { assert InBand(Normal, bmi); }
    else if bmi < 30.0 { assert InBand(Overweight, bmi); }
    else { assert InBand(Obese, bmi); }
  }

  /** `ProgressAdmin.bmi_display`: no band ("-") for a BMI of 0, which is what
      the `bmi` property returns for a zero height; otherwise the band of the
      first branch that matches. */
  function BmiDisplay(bmi: real): (r: Option<BmiBand>)
    ensures r.None? <==> bmi == 0.0
    ensures r.Some? ==> InBand(r.value, bmi)
  {
    if bmi == 0.0 then None
    else if bmi < 18.5 then Some(Underweight)
    else if 18.5 <= bmi < 25.0 then Some(Normal)
    else if 25.0 <= bmi < 30.0 then Some(Overweight)
    else Some(Obese)
  }

  /** The `bmi_status` lookup values of BMIFilter. */
  function BandOfValue(v: string): (r: Option<BmiBand>)
    ensures r == Some(Underweight) <==> v == "underweight"
    ensures r == Some(Normal) <==> v == "normal"
    ensures r == Some(Overweight) <==> v == "overweight"
    ensures r == Some(Obese) <==> v == "obese"
  {
    if v == "underweight" then Some(Underweight)
    else if v == "normal" then Some(Normal)
    else if v == "overweight" then Some(Overweight)
    else if v == "obese" then Some(Obese)
    else None
  }

  datatype FieldError = CannotResolveKeyword(name: string)

  /** BMIFilter.queryset as written: each band filters the queryset on `bmi`,
      which Progress defines as a property and not as a column, so the ORM
      raises FieldError for every band value; other values leave it unfiltered. */
  function BmiFilterAsWritten(rows: seq<Models.Progress>, value: Option<string>): (r: Result<seq<Models.Progress>, FieldError>)
    ensures value.Some? && BandOfValue(value.value).Some? ==> r == Err(CannotResolveKeyword("bmi"))
    ensures (value.None? || BandOfValue(value.value).None?) ==> r == Ok(rows)
  {
    if value.Some? && BandOfValue(value.value).Some? then Err(CannotResolveKeyword("bmi"))
    else Ok(rows)
  }

  /** The discrepancy: choosing "Normal" in the admin sidebar fails. */
  lemma BmiFilterAsWrittenFails(rows: seq<Models.Progress>)
    ensures BmiFilterAsWritten(rows, Some("normal")).Err?
  {
    assert BandOfValue("normal") == Some(Normal);
  }

  /** BMIFilter.queryset as intended: the rows whose BMI (the property,
      computed elsewhere from weight and height) lies in the chosen band. */
  function BmiFilter(rows: seq<Models.Progress>, bmi: Models.Progress -> real, value: Option<string>): (r: seq<Models.Progress>)
    ensures value.None? || BandOfValue(value.value).None? ==> r == rows
    ensures value.Some? && BandOfValue(value.value).Some? ==>
      (forall i :: 0 <= i < |r| ==> InBand(BandOfValue(value.value).value, bmi(r[i])))
      && (forall i :: 0 <= i < |rows| && InBand(BandOfValue(value.value).value, bmi(rows[i])) ==> rows[i] in r)
      && multiset(r) <= multiset(rows)
  {
    if value.Some? && BandOfValue(value.value).Some? then
      var b := BandOfValue(value.value).value;
      var inBand := (p: Models.Progress) => InBand(b, bmi(p));
      Tables.FilterMembers(rows, inBand);
      Tables.Filter(rows, inBand)
    else rows
  }

  /** The corrected filter agrees with the display: for a non-zero BMI, a row
      is kept for a band exactly when its BMI column shows that band. */
  lemma BmiFilterAgreesWithDisplay(rows: seq<Models.Progress>, bmi: Models.Progress -> real, v: string, i: int)
    requires BandOfValue(v).Some? && 0 <= i < |rows| && bmi(rows[i]) != 0.0
    ensures rows[i] in BmiFilter(rows, bmi, Some(v)) <==> BmiDisplay(bmi(rows[i])) == BandOfValue(v)
  {
    var b := BandOfValue(v).value;
    var x := bmi(rows[i]);
    BandsPartition(x);
    var r := BmiFilter(rows, bmi, Some(v));
    if rows[i] in r {
      var k :| 0 <= k < |r| && r[k] == rows[i];
      assert InBand(b, bmi(r[k]));
    }
  }

  // ------------------------------------------------------ positive validators

  datatype ValidationError = WeightMustBePositive | CaloriesMustBePositive

  /** `UserProfileForm.clean_weight` (the weight is a decimal column). */
  function CleanWeight(weight: real): (r: Result<real, ValidationError>)
    ensures r.Err? <==> weight <= 0.0
    ensures r.Err? ==> r.error == WeightMustBePositive
    ensures r.Ok? ==> r.value == weight && r.value > 0.0
  {
    if weight <= 0.0 then Err(WeightMustBePositive) else Ok(weight)
  }

  /** `MealForm.clean_calories`, on the value the form field has already
      cleaned. `Meal.calories` is a `PositiveIntegerField`, whose form field
      has `min_value=0`: a negative value is refused by that field, with its
      own message, before this method runs, so of the values refused here
      only 0 reaches it through the form. */
  function CleanCalories(calories: int): (r: Result<int, ValidationError>)
    ensures r.Err? <==> calories <= 0
    ensures r.Err? ==> r.error == CaloriesMustBePositive
    ensures r.Ok? ==> r.value == calories && r.value > 0
  {
    if calories <= 0 then Err(CaloriesMustBePositive) else Ok(calories)
  }

  // ------------------------------------------------- CompletionStatusFilter

  predicate IsCompleted(l: Models.UserWorkoutLog) { l.completed }
  predicate IsPlanned(l: Models.UserWorkoutLog) { !l.completed }

  /** `CompletionStatusFilter.queryset`: "completed" keeps the completed logs,
      "not_completed" the planned ones; any other value, or none, keeps all. */
  function CompletionFilter(rows: seq<Models.UserWorkoutLog>, value: Option<string>): (r: seq<Models.UserWorkoutLog>)
    ensures value == Some("completed") ==>
      (forall i :: 0 <= i < |r| ==> r[i].completed) && (forall i :: 0 <= i < |rows| && rows[i].completed ==> rows[i] in r)
    ensures value == Some("not_completed") ==>
      (forall i :: 0 <= i < |r| ==> !r[i].completed) && (forall i :: 0 <= i < |rows| && !rows[i].completed ==> rows[i] in r)
    ensures value != Some("completed") && value != Some("not_completed") ==> r == rows
    ensures multiset(r) <= multiset(rows)
  {
    if value == Some("completed") then
      Tables.FilterMembers(rows, IsCompleted);
      Tables.Filter(rows, IsCompleted)
    else if value == Some("not_completed") then
      Tables.FilterMembers(rows, IsPlanned);
      Tables.Filter(rows, IsPlanned)
    else rows
  }

  /** The two choices split the list of logs: together they hold every log once. */
  lemma CompletionChoicesPartition(rows: seq<Models.UserWorkoutLog>)
    ensures multiset(CompletionFilter(rows, Some("completed"))) + multiset(CompletionFilter(rows, Some("not_completed"))) == multiset(rows)
  {
    Tables.FilterPartition(rows, IsCompleted, IsPlanned);
  }

  // ------------------------------------------- activate_users / deactivate_users

  datatype AuthUser = AuthUser(id: nat, username: string, isActive: bool)

  /** The `auth_user` table the user admin's actions update. */
  class UserTable {
    var users: seq<AuthUser>

    constructor (users: seq<AuthUser>)
      ensures this.users == users
    {
      this.users := users;
    }

    /** `queryset.update(is_active=active)` for the users selected by id:
        sets the flag on exactly those rows and returns how many there are. */
    method SetActive(selected: set<nat>, active: bool) returns (updated: nat)
      modifies this`users
      ensures |users| == |old(users)|
      ensures forall i :: 0 <= i < |users| ==>
        users[i] == if old(users)[i].id in selected then old(users)[i].(isActive := active) else old(users)[i]
      ensures updated == Tables.Count(old(users), (u: AuthUser) => u.id in selected)
    {
      updated := Tables.Count(users, (u: AuthUser) => u.id in selected);
      users := seq(|users|, i requires 0 <= i < |users| reads this =>
        if users[i].id in selected then users[i].(isActive := active) else users[i]);
    }

    /** `activate_users`. */
    method ActivateUsers(selected: set<nat>) returns (updated: nat)
      modifies this`users
      ensures |users| == |old(users)|
      ensures forall i :: 0 <= i < |users| ==>
        users[i].isActive == (old(users)[i].id in selected || old(users)[i].isActive)
        && users[i].id == old(users)[i].id && users[i].username == old(users)[i].username
      ensures updated == Tables.Count(old(users), (u: AuthUser) => u.id in selected)
    {
      updated := SetActive(selected, true);
    }

    /** `deactivate_users`. */
    method DeactivateUsers(selected: set<nat>) returns (updated: nat)
      modifies this`users
      ensures |users| == |old(users)|
      ensures forall i :: 0 <= i < |users| ==>
        users[i].isActive == (old(users)[i].id !in selected && old(users)[i].isActive)
        && users[i].id == old(users)[i].id && users[i].username == old(users)[i].username
      ensures updated == Tables.Count(old(users), (u: AuthUser) => u.id in selected)
    {
      updated := SetActive(selected, false);
    }
  }
}
