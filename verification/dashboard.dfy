/**
 * The dashboard's display helpers. Timestamps arrive as milliseconds and the
 * current time is a parameter; the locale-formatted absolute date that some
 * helpers fall back to is represented by the `AbsoluteDate` label.
 */
module DashboardHelpers {
  import opened Wrappers
  import opened Strings
  import opened Constants
  import opened JsValues
  import opened ClockTime
  import opened Validation
  import Helpers

  const DAY_ABBREV: seq<string> := ["Sun", "Mon", "Tue", "Wed", "Thu", "Fri", "Sat"]

  /** What a relative-time helper shows: a fixed text, or the locale-formatted date of the timestamp. */
  datatype Label = Text(text: string) | AbsoluteDate(timestampMs: int)

  /** `formatDuration`: a missing or zero value shows '0m'; otherwise the backend's label. */
  function FormatDuration(minutes: Option<int>): (s: string)
    ensures minutes.None? || minutes.value == 0 ==> s == "0m"
    ensures minutes.Some? && minutes.value != 0 ==> s == Helpers.FormatDuration(minutes.value)
  {
    if minutes.None? || minutes.value == 0 then "0m" else Helpers.FormatDuration(minutes.value)
  }

  /** The dashboard and the API label every given number of minutes alike, zero included. */
  lemma FormatDurationMatchesBackend(minutes: int)
    ensures FormatDuration(Some(minutes)) == Helpers.FormatDuration(minutes)
  {
    if minutes == 0 {
      assert Helpers.FormatDuration(0) == IntToString(0) + "m";
      assert IntToString(0) == "0";
    }
  }

  /** `DAY_ABBREV[day]`, which `join` renders as '' when the index is out of range. */
  function DayAbbrev(day: int): string {
    if 0 <= day < 7 then DAY_ABBREV[day] else ""
  }

  function DayAbbrevs(days: seq<int>): (names: seq<string>)
    ensures |names| == |days|
    ensures forall i | 0 <= i < |days| :: names[i] == DayAbbrev(days[i])
  {
    if days == [] then [] else [DayAbbrev(days[0])] + DayAbbrevs(days[1..])
  }

  /** `formatDays`: the same branches as the API's, with 'No days' and never an error. */
  function FormatDays(v: DaysValue): (s: string)
    ensures Helpers.ClassifyDays(v) == Helpers.NoDays ==> s == "No days"
    ensures Helpers.ClassifyDays(v) == Helpers.EveryDay ==> s == "Every day"
    ensures Helpers.ClassifyDays(v) == Helpers.Weekdays ==> s == "Weekdays"
    ensures Helpers.ClassifyDays(v) == Helpers.Weekends ==> s == "Weekends"
    ensures Helpers.ClassifyDays(v).Individual? ==> s == Join(DayAbbrevs(v.days), ", ")
  {
    match Helpers.ClassifyDays(v)
    case NoDays => "No days"
    case EveryDay => "Every day"
    case Weekdays => "Weekdays"
    case Weekends => "Weekends"
    case Individual(days) => Join(DayAbbrevs(days), ", ")
  }

  /** The abbreviations are the first three letters of the day names. */
  lemma AbbrevIsShortName(day: int)
    requires 0 <= day <= 6
    ensures DayAbbrev(day) == Helpers.DayShortName(day)
  {
  }

  /** On any non-empty list of day numbers the dashboard shows what the API shows. */
  lemma FormatDaysMatchesBackend(days: seq<int>)
    requires days != [] && AllDayNumbers(days)
    ensures Helpers.FormatDays(DaysArray(days)) == Some(FormatDays(DaysArray(days)))
  {
    forall i | 0 <= i < |days|
      ensures DayAbbrevs(days)[i] == Helpers.DayShortNames(days)[i]
    {
      AbbrevIsShortName(days[i]);
    }
    assert DayAbbrevs(days) == Helpers.DayShortNames(days);
  }

  /** `formatTime12Hour` of a stored "HH:MM" start time ('' for an empty one). */
  function FormatTime12Hour(time: string): (s: string)
    requires time == "" || IsHHMM(time)
    ensures s == "" <==> time == ""
  {
    if time == "" then ""
    else
      var hours, minutes := ClockHours(time), ClockMinutes(time);
      var period := if hours >= 12 then "PM" else "AM";
      var hour12 := if hours == 0 then 12 else if hours > 12 then hours - 12 else hours;
      NatToString(hour12) + ":" + (Pad2(minutes) + " " + period)
  }

  /** The hour of the day that a 12-hour reading names. */
  function Hour24(hour12: nat, pm: bool): nat {
    if pm then (if hour12 == 12 then 12 else hour12 + 12) else (if hour12 == 12 then 0 else hour12)
  }

  /** Reads the "mm AM" / "mm PM" tail of a 12-hour text. */
  function ParseMinutesPeriod(rest: string): Option<(nat, bool)> {
    if |rest| == 5 && rest[2] == ' ' && IsDigitString(rest[..2]) && (rest[3..] == "AM" || rest[3..] == "PM")
    then Some((DigitsValue(rest[..2]), rest[3..] == "PM"))
    else None
  }

  /** Reads a 12-hour text "h:mm AM" / "h:mm PM" back to the hour of the day and the minute. */
  function Parse12Hour(s: string): Option<(nat, nat)> {
    if ':' in s then
      var k := IndexOf(s, ':');
      if IsDigitString(s[..k]) then
        match ParseMinutesPeriod(s[k + 1..])
        case Some((minutes, pm)) => Some((Hour24(DigitsValue(s[..k]), pm), minutes))
        case None => None
      else None
    else None
  }

  lemma SplitAtColon(h: string, rest: string)
    requires IsDigitString(h)
    ensures var s := h + ":" + rest;
      ':' in s && IndexOf(s, ':') == |h| && s[..|h|] == h && s[|h| + 1..] == rest
  {
    var s := h + ":" + rest;
    assert s[|h|] == ':';
    assert s[..|h|] == h;
    assert ':' !in h;
  }

  lemma MinutesPeriodShape(minutes: nat, period: string)
    requires minutes < 60 && (period == "AM" || period == "PM")
    ensures ParseMinutesPeriod(Pad2(minutes) + " " + period) == Some((minutes, period == "PM"))
  {
    var rest := Pad2(minutes) + " " + period;
    assert rest[..2] == Pad2(minutes);
    assert rest[3..] == period;
  }

  lemma Parse12HourOf(hour12: nat, minutes: nat, period: string)
    requires 1 <= hour12 <= 12 && minutes < 60 && (period == "AM" || period == "PM")
    ensures Parse12Hour(NatToString(hour12) + ":" + (Pad2(minutes) + " " + period))
      == Some((Hour24(hour12, period == "PM"), minutes))
  {
    DigitsValueOfNatToString(hour12);
    SplitAtColon(NatToString(hour12), Pad2(minutes) + " " + period);
    MinutesPeriodShape(minutes, period);
  }

  lemma FormatTime12HourOf(h: nat, m: nat)
    requires h < 24 && m < 60
    ensures IsHHMM(ClockText(h, m))
    ensures var hour12 := if h == 0 then 12 else if h > 12 then h - 12 else h;
      FormatTime12Hour(ClockText(h, m))
        == NatToString(hour12) + ":" + (Pad2(m) + " " + (if h >= 12 then "PM" else "AM"))
  {
    ClockTextIsHHMM(h, m);
    var t := ClockText(h, m);
    assert t != "";
    assert ClockHours(t) == h && ClockMinutes(t) == m;
  }

  /** The 12-hour text of a clock time reads back as that clock time: hour 0 is 12 AM, 12 is 12 PM, 13-23 are 1-11 PM. */
  lemma FormatTime12HourRoundTrip(h: nat, m: nat)
    requires h < 24 && m < 60
    ensures IsHHMM(ClockText(h, m))
    ensures Parse12Hour(FormatTime12Hour(ClockText(h, m))) == Some((h, m))
  {
    FormatTime12HourOf(h, m);
    var hour12 := if h == 0 then 12 else if h > 12 then h - 12 else h;
    var period := if h >= 12 then "PM" else "AM";
    Parse12HourOf(hour12, m, period);
  }

  /** `getZoneStatusText`. */
  function GetZoneStatusText(isRunning: bool, remainingTime: int): (s: string)
    ensures isRunning ==> s == "Running - " + IntToString(remainingTime) + " min left"
    ensures !isRunning ==> s == "Idle"
  {
    if isRunning then "Running - " + IntToString(remainingTime) + " min left" else "Idle"
  }

  /** The status text tells a running zone from an idle one. */
  lemma StatusTextDistinguishesRunning(isRunning: bool, remainingTime: int)
    ensures StartsWith(GetZoneStatusText(isRunning, remainingTime), "Running") <==> isRunning
  {
    if isRunning {
      assert GetZoneStatusText(isRunning, remainingTime)[..7] == "Running";
    } else {
      assert GetZoneStatusText(isRunning, remainingTime) == "Idle";
    }
  }

  /** `Math.floor(Math.floor(d / 60000) / 60)` is the number of whole hours in `d` milliseconds. */
  lemma MinutesToHours(d: int)
    ensures d / 60000 / 60 == d / 3600000
  {
    var q := d / 60000;
    var q2 := q / 60;
    assert d == 60000 * q + d % 60000;
    assert q == 60 * q2 + q % 60;
    assert d == 3600000 * q2 + (60000 * (q % 60) + d % 60000);
  }

  /** `Math.floor(hours / 24)` is the number of whole days in `d` milliseconds. */
  lemma HoursToDays(d: int)
    ensures d / 3600000 / 24 == d / 86400000
  {
    var q := d / 3600000;
    var q2 := q / 24;
    assert d == 3600000 * q + d % 3600000;
    assert q == 24 * q2 + q % 24;
    assert d == 86400000 * q2 + (3600000 * (q % 24) + d % 3600000);
  }

  /** `formatNextRun`: a missing time is 'Not scheduled'; otherwise the label follows from the time still to go. */
  function FormatNextRun(nextRunMs: Option<int>, nowMs: int): (l: Label)
    ensures nextRunMs.None? ==> l == Text("Not scheduled")
    ensures nextRunMs.Some? ==> var diff := nextRunMs.value - nowMs;
      (diff < 0 ==> l == Text("Overdue"))
      && (0 <= diff < 3600000 ==> l == Text("Soon"))
      && (3600000 <= diff < 86400000 ==> l == Text("In " + NatToString(diff / 3600000) + "h") && 1 <= diff / 3600000 <= 23)
      && (86400000 <= diff < 2 * 86400000 ==> l == Text("Tomorrow"))
      && (2 * 86400000 <= diff < 7 * 86400000 ==> l == Text("In " + NatToString(diff / 86400000) + " days") && 2 <= diff / 86400000 <= 6)
      && (diff >= 7 * 86400000 ==> l == AbsoluteDate(nextRunMs.value))
  {
    if nextRunMs.None? then Text("Not scheduled")
    else
      var diffMs := nextRunMs.value - nowMs;
      HoursToDays(diffMs);
      var diffHours := diffMs / 3600000;
      var diffDays := diffHours / 24;
      if diffMs < 0 then Text("Overdue")
      else if diffHours < 1 then Text("Soon")
      else if diffHours < 24 then Text("In " + IntToString(diffHours) + "h")
      else if diffDays == 1 then Text("Tomorrow")
      else if diffDays < 7 then Text("In " + IntToString(diffDays) + " days")
      else AbsoluteDate(nextRunMs.value)
  }

  /** `formatRelativeTime`: a missing time is 'Never'; otherwise the label follows from the time elapsed. */
  function FormatRelativeTime(timestampMs: Option<int>, nowMs: int): (l: Label)
    ensures timestampMs.None? ==> l == Text("Never")
    ensures timestampMs.Some? ==> var diff := nowMs - timestampMs.value;
      (diff < 60000 ==> l == Text("Just now"))
      && (60000 <= diff < 3600000 ==> l == Text(NatToString(diff / 60000) + "m ago") && 1 <= diff / 60000 <= 59)
      && (3600000 <= diff < 86400000 ==> l == Text(NatToString(diff / 3600000) + "h ago") && 1 <= diff / 3600000 <= 23)
      && (86400000 <= diff < 2 * 86400000 ==> l == Text("Yesterday"))
      && (2 * 86400000 <= diff < 7 * 86400000 ==> l == Text(NatToString(diff / 86400000) + "d ago") && 2 <= diff / 86400000 <= 6)
      && (diff >= 7 * 86400000 ==> l == AbsoluteDate(timestampMs.value))
  {
    if timestampMs.None? then Text("Never")
    else
      var diffMs := nowMs - timestampMs.value;
      MinutesToHours(diffMs);
      HoursToDays(diffMs);
      var diffMins := diffMs / 60000;
      var diffHours := diffMins / 60;
      var diffDays := diffHours / 24;
      if diffMins < 1 then Text("Just now")
      else if diffMins < 60 then Text(IntToString(diffMins) + "m ago")
      else if diffHours < 24 then Text(IntToString(diffHours) + "h ago")
      else if diffDays == 1 then Text("Yesterday")
      else if diffDays < 7 then Text(IntToString(diffDays) + "d ago")
      else AbsoluteDate(timestampMs.value)
  }

  /** `validateTimeFormat`: the same pattern as the API's validator, as a yes/no answer. */
  function ValidateTimeFormat(time: string): (ok: bool)
    ensures ok <==> exists h: nat, m: nat | h < 24 && m < 60 :: time == ClockText(h, m)
  {
    IsHHMMIffClockText(time);
    IsHHMM(time)
  }

  /** The dashboard accepts a start time exactly when the API does. */
  lemma TimeFormatMatchesBackend(time: string)
    ensures ValidateTimeFormat(time) <==> Validation.ValidateTimeFormat(Some(time)).Ok?
  {
  }
}
