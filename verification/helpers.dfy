/**
 * Backend helpers: duration and day-list labels, day-list parsing, minute
 * rounding, the next-run search, the run-today test and the cron trigger text.
 */
module Helpers {
  import opened Wrappers
  import opened Strings
  import opened Constants
  import opened Collections
  import opened JsValues
  import opened ClockTime
  import opened Validation

  /** `formatDuration`: "45m", "2h" or "1h 30m". */
  function FormatDuration(minutes: int): (s: string)
    ensures minutes < 60 ==> s == IntToString(minutes) + "m"
    ensures minutes >= 60 ==> StartsWith(s, NatToString(minutes / 60) + "h")
  {
    if minutes < 60 then IntToString(minutes) + "m"
    else
      var hours := minutes / 60;
      var mins := minutes % 60;
      if mins == 0 then NatToString(hours) + "h"
      else NatToString(hours) + "h " + NatToString(mins) + "m"
  }

  /** Reads "Nm" back as N. */
  function ParseMinutesText(t: string): Option<int> {
    if |t| >= 2 && t[|t| - 1] == 'm' && IsDigitString(t[..|t| - 1]) then Some(DigitsValue(t[..|t| - 1])) else None
  }

  /** Reads the hour digits and what follows the 'h': nothing, or " Mm". */
  function ParseHoursText(hoursText: string, rest: string): Option<int> {
    if !IsDigitString(hoursText) then None
    else if rest == "" then Some(DigitsValue(hoursText) * 60)
    else if rest[0] == ' ' && ParseMinutesText(rest[1..]).Some? then
      Some(DigitsValue(hoursText) * 60 + ParseMinutesText(rest[1..]).value)
    else None
  }

  /** Reads a duration label back: "Nm", "Nh" or "Nh Mm". */
  function ParseDuration(s: string): Option<int> {
    if 'h' in s then ParseHoursText(s[..IndexOf(s, 'h')], s[IndexOf(s, 'h') + 1..])
    else ParseMinutesText(s)
  }

  lemma NoLetterInDigits(d: string, c: char)
    requires IsDigitString(d) && !('0' <= c <= '9')
    ensures c !in d
  {
  }

  lemma ParseMinutesOfText(n: nat)
    ensures ParseMinutesText(NatToString(n) + "m") == Some(n)
  {
    var t := NatToString(n) + "m";
    DigitsValueOfNatToString(n);
    assert t[..|t| - 1] == NatToString(n);
  }

  /** The hour part of a label of an hour or more ends at its first 'h'. */
  lemma ParseHourPrefixed(hours: nat, rest: string)
    ensures ParseDuration(NatToString(hours) + "h" + rest) == ParseHoursText(NatToString(hours), rest)
  {
    var h := NatToString(hours);
    DigitsValueOfNatToString(hours);
    NoLetterInDigits(h, 'h');
    var s := h + "h" + rest;
    assert s[|h|] == 'h';
    var k := IndexOf(s, 'h');
    assert s[..|h|] == h;
    assert k == |h|;
    assert s[k + 1..] == rest;
  }

  lemma ParseMinutesLabel(minutes: nat)
    requires minutes < 60
    ensures ParseDuration(FormatDuration(minutes)) == Some(minutes)
  {
    var d := NatToString(minutes);
    DigitsValueOfNatToString(minutes);
    NoLetterInDigits(d, 'h');
    assert FormatDuration(minutes) == d + "m";
    ParseMinutesOfText(minutes);
  }

  lemma ParseWholeHoursLabel(minutes: nat)
    requires minutes >= 60 && minutes % 60 == 0
    ensures ParseDuration(FormatDuration(minutes)) == Some(minutes)
  {
    var hours := minutes / 60;
    assert FormatDuration(minutes) == NatToString(hours) + "h" + "";
    ParseHourPrefixed(hours, "");
    DigitsValueOfNatToString(hours);
  }

  lemma HoursMinutesShape(a: string, b: string)
    ensures a + "h " + b + "m" == a + "h" + (" " + (b + "m"))
  {
  }

  lemma ParseHoursSpaced(hoursText: string, minutesText: string)
    requires IsDigitString(hoursText) && ParseMinutesText(minutesText).Some?
    ensures ParseHoursText(hoursText, " " + minutesText)
         == Some(DigitsValue(hoursText) * 60 + ParseMinutesText(minutesText).value)
  {
    var rest := " " + minutesText;
    assert rest != "" && rest[0] == ' ' && rest[1..] == minutesText;
  }

  lemma ParseHoursMinutesLabel(minutes: nat)
    requires minutes >= 60 && minutes % 60 != 0
    ensures ParseDuration(FormatDuration(minutes)) == Some(minutes)
  {
    var hours, mins := minutes / 60, minutes % 60;
    HoursMinutesShape(NatToString(hours), NatToString(mins));
    assert FormatDuration(minutes) == NatToString(hours) + "h" + (" " + (NatToString(mins) + "m"));
    var h, mt := NatToString(hours), NatToString(mins) + "m";
    ParseHourPrefixed(hours, " " + mt);
    ParseMinutesOfText(mins);
    DigitsValueOfNatToString(hours);
    ParseHoursSpaced(h, mt);
  }

  /** The label of a non-negative duration reads back as that duration, so distinct durations get distinct labels. */
  lemma ParseFormatDuration(minutes: nat)
    ensures ParseDuration(FormatDuration(minutes)) == Some(minutes)
  {
    if minutes < 60 {
      ParseMinutesLabel(minutes);
    } else if minutes % 60 == 0 {
      ParseWholeHoursLabel(minutes);
    } else {
      ParseHoursMinutesLabel(minutes);
    }
  }

  /** The first three letters of a day's name. */
  function DayShortName(day: int): string
    requires 0 <= day <= 6
  {
    DAY_NAMES[day][..3]
  }

  function DayShortNames(days: seq<int>): (names: seq<string>)
    requires AllDayNumbers(days)
    ensures |names| == |days|
    ensures forall i | 0 <= i < |days| :: names[i] == DayShortName(days[i])
  {
    if days == [] then [] else [DayShortName(days[0])] + DayShortNames(days[1..])
  }

  /** `days.includes(day)` for every one of `wanted`. */
  predicate IncludesAll(days: seq<int>, wanted: set<int>) {
    forall d | d in wanted :: d in days
  }

  /** Which label a day list gets; both the API and the dashboard branch the same way. */
  datatype DaysLabel = NoDays | EveryDay | Weekdays | Weekends | Individual(days: seq<int>)

  function ClassifyDays(v: DaysValue): (kind: DaysLabel)
    ensures kind == NoDays <==> !v.DaysArray? || v.days == []
    ensures kind == EveryDay <==> v.DaysArray? && |v.days| == 7
    ensures kind == Weekdays <==> v.DaysArray? && |v.days| == 5 && IncludesAll(v.days, {1, 2, 3, 4, 5})
    ensures kind == Weekends <==> v.DaysArray? && |v.days| == 2 && IncludesAll(v.days, {0, 6})
    ensures kind.Individual? ==> v.DaysArray? && kind.days == v.days
  {
    if !v.DaysArray? || |v.days| == 0 then NoDays
    else if |v.days| == 7 then EveryDay
    else if |v.days| == 5 && IncludesAll(v.days, {1, 2, 3, 4, 5}) then Weekdays
    else if |v.days| == 2 && IncludesAll(v.days, {0, 6}) then Weekends
    else Individual(v.days)
  }

  /**
   * `formatDays`. `None` is the TypeError thrown when a listed value is not
   * a day number (`DAY_NAMES[day]` is undefined).
   */
  function FormatDays(v: DaysValue): (r: Option<string>)
    ensures ClassifyDays(v) == NoDays ==> r == Some("No days selected")
    ensures ClassifyDays(v) == EveryDay ==> r == Some("Every day")
    ensures ClassifyDays(v) == Weekdays ==> r == Some("Weekdays")
    ensures ClassifyDays(v) == Weekends ==> r == Some("Weekends")
    ensures ClassifyDays(v).Individual? ==>
      r == (if AllDayNumbers(v.days) then Some(Join(DayShortNames(v.days), ", ")) else None)
  {
    match ClassifyDays(v)
    case NoDays => Some("No days selected")
    case EveryDay => Some("Every day")
    case Weekdays => Some("Weekdays")
    case Weekends => Some("Weekends")
    case Individual(days) => if AllDayNumbers(days) then Some(Join(DayShortNames(days), ", ")) else None
  }

  /** The set of values in a list. */
  function Elements(days: seq<int>): set<int> {
    set d | d in days
  }

  lemma AscendingIsDistinct(days: seq<int>)
    requires StrictlyAscending(days)
    ensures Distinct(days)
    ensures |Elements(days)| == |days|
  {
    DistinctCardinality(days);
  }

  /** A list of distinct values that includes `wanted` has exactly those values iff it is as long as `wanted`. */
  lemma ExactlyWhenSameLength(days: seq<int>, wanted: set<int>)
    requires StrictlyAscending(days)
    ensures |days| == |wanted| && IncludesAll(days, wanted) <==> Elements(days) == wanted
  {
    AscendingIsDistinct(days);
    if |days| == |wanted| && IncludesAll(days, wanted) {
      assert forall d | d in wanted :: d in Elements(days);
      SubsetOfSameSize(wanted, Elements(days));
    }
    if Elements(days) == wanted {
      assert IncludesAll(days, wanted);
    }
  }

  /** On a list that passed `validateDays`, 'Every day' means exactly that all seven days are listed. */
  lemma EveryDayMeansWholeWeek(days: seq<int>)
    requires days != [] && StrictlyAscending(days) && AllDayNumbers(days)
    ensures ClassifyDays(DaysArray(days)) == EveryDay <==> Elements(days) == {0, 1, 2, 3, 4, 5, 6}
  {
    var week := {0, 1, 2, 3, 4, 5, 6};
    assert |week| == 7;
    assert Elements(days) <= week;
    if |days| == 7 {
      AscendingIsDistinct(days);
      SubsetOfSameSize(Elements(days), week);
    }
    ExactlyWhenSameLength(days, week);
  }

  /** On a validated list, 'Weekdays' means exactly Monday to Friday. */
  lemma WeekdaysMeansMondayToFriday(days: seq<int>)
    requires days != [] && StrictlyAscending(days) && AllDayNumbers(days)
    ensures ClassifyDays(DaysArray(days)) == Weekdays <==> Elements(days) == {1, 2, 3, 4, 5}
  {
    assert |{1, 2, 3, 4, 5}| == 5;
    ExactlyWhenSameLength(days, {1, 2, 3, 4, 5});
  }

  /** On a validated list, 'Weekends' means exactly Sunday and Saturday. */
  lemma WeekendsMeansSundayAndSaturday(days: seq<int>)
    requires days != [] && StrictlyAscending(days) && AllDayNumbers(days)
    ensures ClassifyDays(DaysArray(days)) == Weekends <==> Elements(days) == {0, 6}
  {
    assert |{0, 6}| == 2;
    ExactlyWhenSameLength(days, {0, 6});
  }

  /** A validated list always gets a label: the day-name lookup cannot fail on it. */
  lemma ValidatedDaysAlwaysFormat(days: seq<int>)
    requires days != [] && AllDayNumbers(days)
    ensures FormatDays(DaysArray(days)).Some?
  {
  }

  /** `parseDays`: arrays pass through, JSON text is parsed, anything else (or bad JSON) is `[]`. */
  function ParseDays(v: DaysValue): (days: seq<int>)
    ensures v.DaysArray? ==> days == v.days
    ensures v.DaysJson? && v.parsed.ParsedArray? ==> days == v.parsed.items
    ensures v == DaysOther || v == DaysJson(Unparsable) ==> days == []
  {
    match v
    case DaysArray(xs) => xs
    case DaysJson(ParsedArray(xs)) => xs
    case _ => []
  }

  /** Whatever `validateDays` accepts, `parseDays` reads as a list with the same days. */
  lemma ParseDaysAgreesWithValidation(v: DaysValue)
    requires ValidateDays(v).Ok?
    ensures forall d :: d in ParseDays(v) <==> d in ValidateDays(v).value
  {
  }

  /** `calculateMinutesBetween`: `Math.round` of the millisecond difference in minutes (halves round up). */
  function CalculateMinutesBetween(startMs: int, endMs: int): (minutes: int)
    ensures minutes * 60000 - 30000 <= endMs - startMs < minutes * 60000 + 30000
  {
    (endMs - startMs + 30000) / 60000
  }

  /** The nearest whole minute is unique, so the bound above pins the result down. */
  lemma MinutesBetweenUnique(startMs: int, endMs: int, m: int)
    requires m * 60000 - 30000 <= endMs - startMs < m * 60000 + 30000
    ensures m == CalculateMinutesBetween(startMs, endMs)
  {
  }

  /** The day and time `getNextScheduledRun` returns, as a day offset from today plus a clock time. */
  datatype NextRun = NextRun(daysAhead: nat, hours: int, minutes: int, seconds: int, milliseconds: int)

  /** Whether weekday `day` is listed. */
  predicate Listed(days: seq<int>, day: int) {
    day in days
  }

  /** Whether the weekday `j` days after `today` is listed. */
  predicate ListedAfter(days: seq<int>, today: int, j: int) {
    Listed(days, (today + j) % 7)
  }

  /**
   * `getNextScheduledRun` with the clock made explicit: `today` is
   * `getDay()` and `currentMinute` the minute of the day.
   */
  method GetNextScheduledRun(hours: int, minutes: int, days: seq<int>, today: int, currentMinute: int)
    returns (r: Option<NextRun>)
    requires 0 <= today <= 6
    ensures days == [] ==> r.None?
    ensures r.None? <==> forall j | 1 <= j <= 7 :: !ListedAfter(days, today, j)
    ensures r.Some? ==> (r.value.hours == hours && r.value.minutes == minutes
      && r.value.seconds == 0 && r.value.milliseconds == 0)
    ensures r.Some? && r.value.daysAhead == 0 <==> Listed(days, today) && hours * 60 + minutes > currentMinute
    ensures r.Some? && r.value.daysAhead > 0 ==>
      (r.value.daysAhead <= 7 && ListedAfter(days, today, r.value.daysAhead)
      && forall j | 1 <= j < r.value.daysAhead :: !ListedAfter(days, today, j))
  {
    if days == [] {
      return None;
    }
    var scheduleTime := hours * 60 + minutes;
    var daysUntilNext: Option<nat> := None;
    if today in days && scheduleTime > currentMinute {
      daysUntilNext := Some(0);
      assert (today + 7) % 7 == today;
      assert ListedAfter(days, today, 7);
    } else {
      var i := 1;
      while i <= 7
        invariant 1 <= i <= 8
        invariant daysUntilNext.None?
        invariant forall j | 1 <= j < i :: !ListedAfter(days, today, j)
      {
        if (today + i) % 7 in days {
          daysUntilNext := Some(i);
          assert ListedAfter(days, today, i);
          break;
        }
        i := i + 1;
      }
    }
    if daysUntilNext.None? {
      return None;
    }
    r := Some(NextRun(daysUntilNext.value, hours, minutes, 0, 0));
  }

  /** A listed day always yields a next run within a week, even when today's time has passed. */
  lemma SomeDayWithinAWeek(days: seq<int>, today: int)
    requires 0 <= today <= 6 && days != [] && AllDayNumbers(days)
    ensures exists j | 1 <= j <= 7 :: ListedAfter(days, today, j)
  {
    var d := days[0];
    var j := if d > today then d - today else d - today + 7;
    assert (today + j) % 7 == d;
    assert ListedAfter(days, today, j);
  }

  /** `shouldRunToday`: the value is an array that lists today. */
  function ShouldRunToday(v: DaysValue, today: int): (run: bool)
    ensures run <==> v.DaysArray? && Listed(v.days, today)
  {
    v.DaysArray? && today in v.days
  }

  function DayNumbersText(days: seq<int>): seq<string>
    ensures |DayNumbersText(days)| == |days|
    ensures forall i | 0 <= i < |days| :: DayNumbersText(days)[i] == IntToString(days[i])
  {
    if days == [] then [] else [IntToString(days[0])] + DayNumbersText(days[1..])
  }

  /** `generateCronExpression`: "MM HH * * d1,d2,...", the fields taken from splitting the time at ':'. */
  function GenerateCronExpression(startTime: string, days: seq<int>): (cron: string)
    ensures var parts := Split(startTime, ':');
      cron == (if |parts| > 1 then parts[1] else "undefined") + " " + parts[0] + " * * " + Join(DayNumbersText(days), ",")
  {
    var parts := Split(startTime, ':');
    var hours := parts[0];
    var minutes := if |parts| > 1 then parts[1] else "undefined";
    minutes + " " + hours + " * * " + Join(DayNumbersText(days), ",")
  }

  lemma JoinHasNoSpace(parts: seq<string>, sep: string)
    requires ' ' !in sep && forall i | 0 <= i < |parts| :: ' ' !in parts[i]
    ensures ' ' !in Join(parts, sep)
  {
    if |parts| > 1 {
      JoinHasNoSpace(parts[1..], sep);
    }
  }

  /** A clock text splits at its colon into the hour and minute fields. */
  lemma SplitClockText(h: nat, m: nat)
    requires h < 24 && m < 60
    ensures Split(ClockText(h, m), ':') == [Pad2(h), Pad2(m)]
  {
    Pad2Digits(h);
    Pad2Digits(m);
    assert ':' !in Pad2(h) && ':' !in Pad2(m);
    SplitFirst(Pad2(h), ':', Pad2(m));
    assert ClockText(h, m) == Pad2(h) + [':'] + Pad2(m);
  }

  lemma JoinFive(a: string, b: string, c: string, d: string, e: string)
    ensures Join([a, b, c, d, e], " ") == a + " " + b + " " + c + " " + d + " " + e
  {
    assert Join([d, e], " ") == d + " " + e by {
      assert [d, e][1..] == [e];
    }
    assert Join([c, d, e], " ") == c + " " + (d + " " + e) by {
      assert [c, d, e][1..] == [d, e];
    }
    assert Join([b, c, d, e], " ") == b + " " + (c + " " + (d + " " + e)) by {
      assert [b, c, d, e][1..] == [c, d, e];
    }
    assert Join([a, b, c, d, e], " ") == a + " " + (b + " " + (c + " " + (d + " " + e))) by {
      assert [a, b, c, d, e][1..] == [b, c, d, e];
    }
  }

  lemma DaysListHasNoSpace(days: seq<int>)
    ensures ' ' !in Join(DayNumbersText(days), ",")
  {
    forall i | 0 <= i < |days| ensures ' ' !in DayNumbersText(days)[i] {
      assert DayNumbersText(days)[i] == IntToString(days[i]);
    }
    JoinHasNoSpace(DayNumbersText(days), ",");
  }

  lemma CronOfClockText(h: nat, m: nat, days: seq<int>)
    requires h < 24 && m < 60
    ensures GenerateCronExpression(ClockText(h, m), days)
      == Pad2(m) + " " + Pad2(h) + " * * " + Join(DayNumbersText(days), ",")
  {
    SplitClockText(h, m);
  }

  /** The literal " * * " is two star fields between single spaces. */
  lemma StarFields(x: string, rest: string)
    ensures x + " " + "*" + " " + "*" + " " + rest == x + " * * " + rest
  {
    assert " " + "*" + " " + "*" + " " == " * * ";
  }

  /**
   * For a valid start time, the cron expression has exactly five
   * space-separated fields: minute, hour, '*', '*', and the day list.
   */
  lemma CronFields(h: nat, m: nat, days: seq<int>)
    requires h < 24 && m < 60
    ensures Split(GenerateCronExpression(ClockText(h, m), days), ' ')
      == [Pad2(m), Pad2(h), "*", "*", Join(DayNumbersText(days), ",")]
  {
    var list := Join(DayNumbersText(days), ",");
    CronOfClockText(h, m, days);
    StarFields(Pad2(m) + " " + Pad2(h), list);
    JoinFive(Pad2(m), Pad2(h), "*", "*", list);
    Pad2Digits(h);
    Pad2Digits(m);
    DaysListHasNoSpace(days);
    var fields := [Pad2(m), Pad2(h), "*", "*", list];
    assert forall i | 0 <= i < 5 :: ' ' !in fields[i];
    SplitJoin(fields, ' ');
  }
}
