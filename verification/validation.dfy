/**
 * Request validators. Each returns `Ok(value)` or `Err(message)`, the
 * `{ valid, value }` / `{ valid: false, error }` records of the API layer.
 * Integer inputs arrive already passed through `parseInt` (`None` is NaN).
 */
module Validation {
  import opened Wrappers
  import opened Strings
  import opened Constants
  import opened JsValues
  import opened ClockTime

  /** `validateZoneId`. */
  function ValidateZoneId(parsed: Option<int>): (r: Result<int, string>)
    ensures r.Ok? <==> parsed.Some? && parsed.value >= 1
    ensures r.Ok? ==> r.value == parsed.value
    ensures parsed.None? ==> r == Err("Zone ID must be a number")
    ensures parsed.Some? && parsed.value < 1 ==> r == Err("Zone ID must be a positive integer")
  {
    match parsed
    case None => Err("Zone ID must be a number")
    case Some(id) => if id < 1 then Err("Zone ID must be a positive integer") else Ok(id)
  }

  /** `validateDuration`: NaN, then too short, then too long. */
  function ValidateDuration(parsed: Option<int>): (r: Result<int, string>)
    ensures r.Ok? <==> parsed.Some? && MIN_DURATION_MINUTES <= parsed.value <= MAX_RUNTIME_MINUTES
    ensures r.Ok? ==> r.value == parsed.value
    ensures parsed.None? ==> r == Err("Duration must be a number")
    ensures parsed.Some? && parsed.value < MIN_DURATION_MINUTES ==> r == Err("Duration must be at least 1 minute")
    ensures parsed.Some? && parsed.value > MAX_RUNTIME_MINUTES ==> r == Err("Duration cannot exceed 60 minutes")
  {
    match parsed
    case None => Err("Duration must be a number")
    case Some(d) =>
      if d < MIN_DURATION_MINUTES then Err("Duration must be at least 1 minute")
      else if d > MAX_RUNTIME_MINUTES then Err("Duration cannot exceed 60 minutes")
      else Ok(d)
  }

  /** `validateTimeFormat`: a missing or empty value, then the HH:MM pattern; the text is kept as given. */
  function ValidateTimeFormat(time: Option<string>): (r: Result<string, string>)
    ensures r.Ok? <==> time.Some? && IsHHMM(time.value)
    ensures r.Ok? ==> (r.value == time.value
      && exists h: nat, m: nat | h < 24 && m < 60 :: r.value == ClockText(h, m))
    ensures (time.None? || time.value == "") ==> r == Err("Time is required and must be a string")
  {
    if time.None? || time.value == "" then Err("Time is required and must be a string")
    else if !IsHHMM(time.value) then Err("Invalid time format. Use HH:MM (24-hour format)")
    else
      IsHHMMIffClockText(time.value);
      Ok(time.value)
  }

  predicate StrictlyAscending(s: seq<int>) {
    forall i, j | 0 <= i < j < |s| :: s[i] < s[j]
  }

  /** Inserts `x` into an ascending list unless it is already there. */
  function InsertUnique(x: int, s: seq<int>): (r: seq<int>)
    requires StrictlyAscending(s)
    ensures StrictlyAscending(r)
    ensures forall y :: y in r <==> y == x || y in s
  {
    if s == [] then [x]
    else if x == s[0] then s
    else if x < s[0] then [x] + s
    else
      assert StrictlyAscending(s[1..]);
      var rest := InsertUnique(x, s[1..]);
      assert forall y | y in rest :: s[0] < y by {
        forall y | y in s[1..] ensures s[0] < y {
          var k :| 0 <= k < |s[1..]| && s[1..][k] == y;
          assert s[k + 1] == y;
        }
      }
      assert forall i | 0 <= i < |rest| :: rest[i] in rest;
      [s[0]] + rest
  }

  /** `[...new Set(xs)].sort((a, b) => a - b)`. */
  function SortedUnique(xs: seq<int>): (r: seq<int>)
    ensures StrictlyAscending(r)
    ensures forall y :: y in r <==> y in xs
  {
    if xs == [] then []
    else InsertUnique(xs[|xs| - 1], SortedUnique(xs[..|xs| - 1]))
  }

  /** An ascending duplicate-free list is determined by its elements, so `SortedUnique` is the only such answer. */
  lemma {:induction false} AscendingUnique(a: seq<int>, b: seq<int>)
    requires StrictlyAscending(a) && StrictlyAscending(b)
    requires forall y :: y in a <==> y in b
    ensures a == b
  {
    if a != [] { assert a[0] in a; }
    if b != [] { assert b[0] in b; }
    if a != [] && b != [] {
      // the least element of each list is the least element of the other
      assert a[0] in a && b[0] in b;
      assert a[0] == b[0] by {
        var i :| 0 <= i < |b| && b[i] == a[0];
        var j :| 0 <= j < |a| && a[j] == b[0];
        assert b[0] <= a[0] && a[0] <= b[0];
      }
      forall y ensures y in a[1..] <==> y in b[1..] {
        if y in a[1..] {
          var i :| 1 <= i < |a| && a[i] == y;
          assert y > a[0];
          assert y in b;
        }
        if y in b[1..] {
          var i :| 1 <= i < |b| && b[i] == y;
          assert y > b[0];
          assert y in a;
        }
      }
      AscendingUnique(a[1..], b[1..]);
      assert a == [a[0]] + a[1..] && b == [b[0]] + b[1..];
    }
  }

  /** Every element is a day number 0 (Sunday) .. 6 (Saturday). */
  predicate AllDayNumbers(days: seq<int>) {
    forall i | 0 <= i < |days| :: 0 <= days[i] <= 6
  }

  /** `validateDays`: the shape of the value, then non-empty, then every element a day number. */
  function ValidateDays(v: DaysValue): (r: Result<seq<int>, string>)
    ensures v == DaysOther ==> r == Err("Days must be an array")
    ensures v == DaysJson(Unparsable) ==> r == Err("Days must be a valid JSON array")
    ensures r.Ok? <==> exists xs :: (v == DaysArray(xs) || v == DaysJson(ParsedArray(xs))) && xs != [] && AllDayNumbers(xs)
    ensures r.Ok? ==> r.value != [] && StrictlyAscending(r.value) && AllDayNumbers(r.value)
    ensures forall xs | v == DaysArray(xs) || v == DaysJson(ParsedArray(xs)) ::
      r.Ok? ==> forall y :: y in r.value <==> y in xs
  {
    match v
    case DaysOther => Err("Days must be an array")
    case DaysJson(Unparsable) => Err("Days must be a valid JSON array")
    case DaysJson(ParsedArray(xs)) => CheckDayList(xs)
    case DaysArray(xs) => CheckDayList(xs)
  }

  function CheckDayList(xs: seq<int>): (r: Result<seq<int>, string>)
    ensures r.Ok? <==> xs != [] && AllDayNumbers(xs)
    ensures r.Ok? ==> (r.value != [] && StrictlyAscending(r.value) && AllDayNumbers(r.value)
      && forall y :: y in r.value <==> y in xs)
  {
    if xs == [] then Err("At least one day must be selected")
    else if !AllDayNumbers(xs) then Err("Days must be numbers between 0 (Sunday) and 6 (Saturday)")
    else
      var r := SortedUnique(xs);
      assert xs[0] in xs;
      assert forall y | y in xs :: 0 <= y <= 6;
      assert forall i | 0 <= i < |r| :: r[i] in r;
      Ok(r)
  }

  /**
   * `validateZoneName`: required, then non-blank after trimming, then at most 50
   * characters as JavaScript counts them (UTF-16 code units).
   */
  function ValidateZoneName(name: Option<string>): (r: Result<string, string>)
    ensures r.Ok? <==> name.Some? && Trim(name.value) != "" && Utf16Length(Trim(name.value)) <= 50
    ensures r.Ok? ==> r.value == Trim(name.value)
    ensures (name.None? || name.value == "") ==> r == Err("Zone name is required and must be a string")
  {
    if name.None? || name.value == "" then Err("Zone name is required and must be a string")
    else
      var trimmed := Trim(name.value);
      if |trimmed| == 0 then Err("Zone name cannot be empty")
      else if Utf16Length(trimmed) > 50 then Err("Zone name cannot exceed 50 characters")
      else Ok(trimmed)
  }

  /** A no-break space is white space to `trim`, and a name of 26 seedlings is 52 UTF-16 units long. */
  lemma ZoneNameEdgeCases()
    ensures ValidateZoneName(Some("\U{00A0}")) == Err("Zone name cannot be empty")
    ensures ValidateZoneName(Some(seq(26, _ => '\U{1F331}'))) == Err("Zone name cannot exceed 50 characters")
  {
    var seedlings := seq(26, _ => '\U{1F331}');
    assert Trim(seedlings) == seedlings;
    Utf16LengthBeyondPlane(seedlings);
  }

  /** An accepted name is accepted again unchanged. */
  lemma ValidateZoneNameIdempotent(name: Option<string>)
    requires ValidateZoneName(name).Ok?
    ensures ValidateZoneName(Some(ValidateZoneName(name).value)) == ValidateZoneName(name)
  {
    TrimIdempotent(name.value);
  }

  /** `validateScheduleId`. */
  function ValidateScheduleId(parsed: Option<int>): (r: Result<int, string>)
    ensures r.Ok? <==> parsed.Some? && parsed.value >= 1
    ensures r.Ok? ==> r.value == parsed.value
    ensures r.Err? ==> r.error == "Invalid schedule ID"
  {
    if parsed.None? || parsed.value < 1 then Err("Invalid schedule ID") else Ok(parsed.value)
  }

  /** `validatePositiveInt`, whose message names the field ("Value" by default). */
  function ValidatePositiveInt(parsed: Option<int>, fieldName: string := "Value"): (r: Result<int, string>)
    ensures r.Ok? <==> parsed.Some? && parsed.value >= 1
    ensures r.Ok? ==> r.value == parsed.value
    ensures r.Err? ==> r.error == fieldName + " must be a positive integer"
  {
    if parsed.None? || parsed.value < 1 then Err(fieldName + " must be a positive integer") else Ok(parsed.value)
  }

  /** The three id validators accept the same inputs and return the same value. */
  lemma IdValidatorsAgree(parsed: Option<int>, fieldName: string)
    ensures ValidateZoneId(parsed).Ok? == ValidateScheduleId(parsed).Ok? == ValidatePositiveInt(parsed, fieldName).Ok?
    ensures ValidateZoneId(parsed).Ok? ==>
      ValidateZoneId(parsed).value == ValidateScheduleId(parsed).value == ValidatePositiveInt(parsed, fieldName).value
  {
  }

  /** `validateBoolean`: booleans, and the spellings 'true'/'1'/1 and 'false'/'0'/0. */
  function ValidateBoolean(v: Scalar): (r: Result<bool, string>)
    ensures r == Ok(true) <==> v in {Bool(true), Str("true"), Str("1"), Num(1)}
    ensures r == Ok(false) <==> v in {Bool(false), Str("false"), Str("0"), Num(0)}
    ensures r.Err? ==> r.error == "Value must be a boolean (true/false)"
  {
    match v
    case Bool(b) => Ok(b)
    case _ =>
      if v == Str("true") || v == Str("1") || v == Num(1) then Ok(true)
      else if v == Str("false") || v == Str("0") || v == Num(0) then Ok(false)
      else Err("Value must be a boolean (true/false)")
  }
}
