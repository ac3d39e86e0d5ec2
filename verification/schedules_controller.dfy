/**
 * The schedule endpoints: creating a schedule through a chain of checks,
 * updating, deleting and toggling it, and the `next_run` field of a read.
 * Every change is mirrored into the cron scheduler. The schedules table is a
 * parameter (rows by id), and an operation that changes it returns the new
 * table; the zone and group tables are the sets of their ids.
 */
module SchedulesController {
  import opened Wrappers
  import opened Constants
  import opened JsValues
  import opened ClockTime
  import opened Validation
  import opened Helpers
  import opened GroupSequencer
  import opened Scheduler

  /**
   * A request's `zone_id` or `group_id`: whether its raw value is truthy in
   * JavaScript, and what `parseInt` makes of it (`None` for NaN). An absent
   * field is `IdField(false, None)`.
   */
  datatype IdField = IdField(truthy: bool, parsed: Option<int>)

  /** The body of `POST /schedules`; `enabled` is `None` when absent, else its truthiness. */
  datatype CreateRequest = CreateRequest(
    zoneId: IdField, groupId: IdField, startTime: Option<string>, duration: Option<int>,
    days: DaysValue, enabled: Option<bool>)

  /** The body of `PUT /schedules/:id`; each field is `None` when absent. */
  datatype UpdateRequest = UpdateRequest(
    startTime: Option<Option<string>>, duration: Option<Option<int>>, days: Option<DaysValue>, enabled: Option<Scalar>)

  /** `toggleSchedule`'s answer. */
  datatype Toggled = Toggled(id: int, enabled: bool, message: string)

  const NO_TARGET := "Either zone_id or group_id is required"
  const BOTH_TARGETS := "Cannot schedule both a zone and a group"
  const TARGET_ZONE_MISSING := "Zone not found"
  const TARGET_GROUP_MISSING := "Group not found"
  const SCHEDULE_NOT_FOUND := "Schedule not found"
  const NO_FIELDS := "No valid fields to update"

  /** The stored `enabled` of a new schedule: 1 unless the request gives a falsy value. */
  function EnabledValue(enabled: Option<bool>): (v: int)
    ensures v == 0 <==> enabled == Some(false)
    ensures v == 1 <==> enabled != Some(false)
  {
    if enabled.Some? then (if enabled.value then 1 else 0) else 1
  }

  /** The target checks of `createSchedule`: exactly one id, valid, naming an existing zone or group. */
  function TargetCheck(req: CreateRequest, zones: set<int>, groups: set<int>)
    : (r: Result<(Option<int>, Option<int>), Refusal>)
    ensures !req.zoneId.truthy && !req.groupId.truthy ==> r == Err(Refusal(HTTP_BAD_REQUEST, NO_TARGET))
    ensures req.zoneId.truthy && req.groupId.truthy ==> r == Err(Refusal(HTTP_BAD_REQUEST, BOTH_TARGETS))
    ensures req.zoneId.truthy && !req.groupId.truthy ==>
      (r.Ok? <==> ValidateZoneId(req.zoneId.parsed).Ok? && req.zoneId.parsed.value in zones)
      && (ValidateZoneId(req.zoneId.parsed).Err? ==>
            r == Err(Refusal(HTTP_BAD_REQUEST, ValidateZoneId(req.zoneId.parsed).error)))
      && (ValidateZoneId(req.zoneId.parsed).Ok? && req.zoneId.parsed.value !in zones ==>
            r == Err(Refusal(HTTP_NOT_FOUND, TARGET_ZONE_MISSING)))
      && (r.Ok? ==> r.value == (Some(req.zoneId.parsed.value), None))
    ensures !req.zoneId.truthy && req.groupId.truthy ==>
      (r.Ok? <==> ValidateZoneId(req.groupId.parsed).Ok? && req.groupId.parsed.value in groups)
      && (ValidateZoneId(req.groupId.parsed).Err? ==>
            r == Err(Refusal(HTTP_BAD_REQUEST, ValidateZoneId(req.groupId.parsed).error)))
      && (ValidateZoneId(req.groupId.parsed).Ok? && req.groupId.parsed.value !in groups ==>
            r == Err(Refusal(HTTP_NOT_FOUND, TARGET_GROUP_MISSING)))
      && (r.Ok? ==> r.value == (None, Some(req.groupId.parsed.value)))
  {
    if !req.zoneId.truthy && !req.groupId.truthy then Err(Refusal(HTTP_BAD_REQUEST, NO_TARGET))
    else if req.zoneId.truthy && req.groupId.truthy then Err(Refusal(HTTP_BAD_REQUEST, BOTH_TARGETS))
    else if req.zoneId.truthy then
      match ValidateZoneId(req.zoneId.parsed)
      case Err(e) => Err(Refusal(HTTP_BAD_REQUEST, e))
      case Ok(id) => if id !in zones then Err(Refusal(HTTP_NOT_FOUND, TARGET_ZONE_MISSING)) else Ok((Some(id), None))
    else
      match ValidateZoneId(req.groupId.parsed)
      case Err(e) => Err(Refusal(HTTP_BAD_REQUEST, e))
      case Ok(id) => if id !in groups then Err(Refusal(HTTP_NOT_FOUND, TARGET_GROUP_MISSING)) else Ok((None, Some(id)))
  }

  /**
   * The checks of `createSchedule` in code order (target, time, duration,
   * days), the first failure winning, and the row it inserts under `newId`.
   */
  function CreateCheck(req: CreateRequest, zones: set<int>, groups: set<int>, newId: int)
    : (r: Result<ScheduleRow, Refusal>)
    ensures TargetCheck(req, zones, groups).Err? ==> r == Err(TargetCheck(req, zones, groups).error)
    ensures TargetCheck(req, zones, groups).Ok? && ValidateTimeFormat(req.startTime).Err? ==>
      r == Err(Refusal(HTTP_BAD_REQUEST, ValidateTimeFormat(req.startTime).error))
    ensures TargetCheck(req, zones, groups).Ok? && ValidateTimeFormat(req.startTime).Ok?
            && ValidateDuration(req.duration).Err? ==>
      r == Err(Refusal(HTTP_BAD_REQUEST, ValidateDuration(req.duration).error))
    ensures TargetCheck(req, zones, groups).Ok? && ValidateTimeFormat(req.startTime).Ok?
            && ValidateDuration(req.duration).Ok? && ValidateDays(req.days).Err? ==>
      r == Err(Refusal(HTTP_BAD_REQUEST, ValidateDays(req.days).error))
    ensures r.Ok? <==>
      TargetCheck(req, zones, groups).Ok? && ValidateTimeFormat(req.startTime).Ok?
      && ValidateDuration(req.duration).Ok? && ValidateDays(req.days).Ok?
    // an accepted schedule targets exactly one existing zone or group, at a valid time, for a valid
    // duration, on at least one day
    ensures r.Ok? ==>
      r.value.id == newId
      && (r.value.zoneId.Some? != r.value.groupId.Some?)
      && (r.value.zoneId.Some? ==> r.value.zoneId.value in zones)
      && (r.value.groupId.Some? ==> r.value.groupId.value in groups)
      && IsHHMM(r.value.startTime) && r.value.startTime == req.startTime.value
      && MIN_DURATION_MINUTES <= r.value.duration <= MAX_RUNTIME_MINUTES
      && r.value.days == DaysJson(ParsedArray(ValidateDays(req.days).value))
      && ParseDays(r.value.days) != []
      && r.value.enabled == EnabledValue(req.enabled)
  {
    match TargetCheck(req, zones, groups)
    case Err(refusal) => Err(refusal)
    case Ok(target) =>
      match ValidateTimeFormat(req.startTime)
      case Err(e) => Err(Refusal(HTTP_BAD_REQUEST, e))
      case Ok(time) =>
        match ValidateDuration(req.duration)
        case Err(e) => Err(Refusal(HTTP_BAD_REQUEST, e))
        case Ok(duration) =>
          match ValidateDays(req.days)
          case Err(e) => Err(Refusal(HTTP_BAD_REQUEST, e))
          case Ok(days) =>
            Ok(ScheduleRow(newId, target.0, target.1, time, duration, DaysJson(ParsedArray(days)), EnabledValue(req.enabled)))
  }

  /** The row as `addScheduleToCron` receives it after creation: the days column parsed back to an array. */
  function ArmedRow(row: ScheduleRow): (armed: ScheduleRow)
    ensures ParseDays(armed.days) == ParseDays(row.days)
    ensures armed.id == row.id && armed.enabled == row.enabled
  {
    row.(days := DaysArray(ParseDays(row.days)))
  }

  /** The schedules table stores each row under its own id. */
  predicate KeyedTable(table: map<int, ScheduleRow>) {
    forall k | k in table :: table[k].id == k
  }

  /**
   * The checks of `updateSchedule` in code order (id, existence, then the
   * present fields in the order time, duration, days, enabled, then "at least
   * one field"), and the updated row.
   */
  function UpdateCheck(id: Option<int>, table: map<int, ScheduleRow>, req: UpdateRequest)
    : (r: Result<ScheduleRow, Refusal>)
    ensures ValidateScheduleId(id).Err? ==> r == Err(Refusal(HTTP_BAD_REQUEST, ValidateScheduleId(id).error))
    ensures ValidateScheduleId(id).Ok? && id.value !in table ==> r == Err(Refusal(HTTP_NOT_FOUND, SCHEDULE_NOT_FOUND))
    // a request that names no field is refused, and nothing else is refused once the row is found
    ensures ValidateScheduleId(id).Ok? && id.value in table
            && req.startTime.None? && req.duration.None? && req.days.None? && req.enabled.None? ==>
      r == Err(Refusal(HTTP_BAD_REQUEST, NO_FIELDS))
    ensures r.Ok? <==>
      ValidateScheduleId(id).Ok? && id.value in table
      && (req.startTime.Some? || req.duration.Some? || req.days.Some? || req.enabled.Some?)
      && (req.startTime.Some? ==> ValidateTimeFormat(req.startTime.value).Ok?)
      && (req.duration.Some? ==> ValidateDuration(req.duration.value).Ok?)
      && (req.days.Some? ==> ValidateDays(req.days.value).Ok?)
      && (req.enabled.Some? ==> ValidateBoolean(req.enabled.value).Ok?)
    // fields that are absent keep their stored value; the target and id never change
    ensures r.Ok? ==>
      var old_ := table[id.value];
      r.value.id == old_.id && r.value.zoneId == old_.zoneId && r.value.groupId == old_.groupId
      && r.value.startTime == (if req.startTime.Some? then ValidateTimeFormat(req.startTime.value).value else old_.startTime)
      && r.value.duration == (if req.duration.Some? then ValidateDuration(req.duration.value).value else old_.duration)
      && r.value.days == (if req.days.Some? then DaysJson(ParsedArray(ValidateDays(req.days.value).value)) else old_.days)
      && r.value.enabled == (if req.enabled.Some? then (if ValidateBoolean(req.enabled.value).value then 1 else 0)
                             else old_.enabled)
  {
    match ValidateScheduleId(id)
    case Err(e) => Err(Refusal(HTTP_BAD_REQUEST, e))
    case Ok(scheduleId) =>
      if scheduleId !in table then Err(Refusal(HTTP_NOT_FOUND, SCHEDULE_NOT_FOUND))
      else
        var row := table[scheduleId];
        var time := if req.startTime.Some? then ValidateTimeFormat(req.startTime.value) else Ok(row.startTime);
        var duration := if req.duration.Some? then ValidateDuration(req.duration.value) else Ok(row.duration);
        var days: Result<DaysValue, string> :=
          if req.days.Some? then
            match ValidateDays(req.days.value)
            case Ok(d) => Ok(DaysJson(ParsedArray(d)))
            case Err(e) => Err(e)
          else Ok(row.days);
        var enabled: Result<int, string> :=
          if req.enabled.Some? then
            match ValidateBoolean(req.enabled.value)
            case Ok(b) => Ok(if b then 1 else 0)
            case Err(e) => Err(e)
          else Ok(row.enabled);
        if time.Err? then Err(Refusal(HTTP_BAD_REQUEST, time.error))
        else if duration.Err? then Err(Refusal(HTTP_BAD_REQUEST, duration.error))
        else if days.Err? then Err(Refusal(HTTP_BAD_REQUEST, days.error))
        else if enabled.Err? then Err(Refusal(HTTP_BAD_REQUEST, enabled.error))
        else if req.startTime.None? && req.duration.None? && req.days.None? && req.enabled.None? then
          Err(Refusal(HTTP_BAD_REQUEST, NO_FIELDS))
        else Ok(row.(startTime := time.value, duration := duration.value, days := days.value, enabled := enabled.value))
  }

  /** `toggleSchedule`'s new flag: 0 for a truthy stored value, else 1. */
  function Flip(enabled: int): (v: int)
    ensures v == 0 <==> enabled != 0
    ensures v == 1 <==> enabled == 0
  {
    if enabled != 0 then 0 else 1
  }

  /** Toggling twice restores a 0/1 flag. */
  lemma FlipTwice(enabled: int)
    requires enabled == 0 || enabled == 1
    ensures Flip(Flip(enabled)) == enabled
  {
  }

  /**
   * `createSchedule`: the checks, then the row under `newId` (the
   * database's next id), armed only when enabled. `created` is the table after.
   */
  method CreateSchedule(sched: CronScheduler, table: map<int, ScheduleRow>, req: CreateRequest,
                        zones: set<int>, groups: set<int>, newId: int)
    returns (r: Result<ScheduleRow, Refusal>, created: map<int, ScheduleRow>)
    requires sched.Valid() && newId !in table
    modifies sched
    ensures sched.Valid()
    ensures r == CreateCheck(req, zones, groups, newId)
    ensures r.Err? ==> created == table && sched.activeCronJobs == old(sched.activeCronJobs)
    ensures r.Ok? ==> created == table[newId := r.value]
    ensures r.Ok? && r.value.enabled == 1 ==>
      sched.activeCronJobs == Register(old(sched.activeCronJobs), ArmedRow(r.value)) && sched.IsScheduleActive(newId)
    ensures r.Ok? && r.value.enabled == 0 ==> sched.activeCronJobs == old(sched.activeCronJobs)
    ensures sched.pending == old(sched.pending) && sched.nextTimer == old(sched.nextTimer)
  {
    r := CreateCheck(req, zones, groups, newId);
    if r.Err? {
      return r, table;
    }
    created := table[newId := r.value];
    if r.value.enabled == 1 {
      sched.AddScheduleToCron(ArmedRow(r.value));
    }
  }

  /** `updateSchedule`: the checks, then the row rewritten and the schedule re-armed from it. */
  method UpdateSchedule(sched: CronScheduler, table: map<int, ScheduleRow>, id: Option<int>, req: UpdateRequest)
    returns (r: Result<ScheduleRow, Refusal>, updated: map<int, ScheduleRow>)
    requires sched.Valid() && KeyedTable(table)
    modifies sched
    ensures sched.Valid() && KeyedTable(updated)
    ensures r == UpdateCheck(id, table, req)
    ensures r.Err? ==> updated == table && sched.activeCronJobs == old(sched.activeCronJobs)
    ensures r.Ok? ==>
      updated == table[id.value := r.value]
      && sched.activeCronJobs == Refresh(old(sched.activeCronJobs), id.value, Some(r.value))
      && (sched.IsScheduleActive(id.value) <==> r.value.enabled == 1 && ParseDays(r.value.days) != [])
    ensures sched.pending == old(sched.pending) && sched.nextTimer == old(sched.nextTimer)
  {
    r := UpdateCheck(id, table, req);
    if r.Err? {
      return r, table;
    }
    updated := table[id.value := r.value];
    sched.UpdateScheduleInCron(id.value, Some(r.value));
  }

  /** `deleteSchedule`: a valid, existing id is disarmed first, then its row deleted. */
  method DeleteSchedule(sched: CronScheduler, table: map<int, ScheduleRow>, id: Option<int>)
    returns (r: Result<int, Refusal>, remaining: map<int, ScheduleRow>)
    requires sched.Valid()
    modifies sched
    ensures sched.Valid()
    ensures ValidateScheduleId(id).Err? ==>
      r == Err(Refusal(HTTP_BAD_REQUEST, ValidateScheduleId(id).error))
      && remaining == table && sched.activeCronJobs == old(sched.activeCronJobs)
    ensures ValidateScheduleId(id).Ok? && id.value !in table ==>
      r == Err(Refusal(HTTP_NOT_FOUND, SCHEDULE_NOT_FOUND))
      && remaining == table && sched.activeCronJobs == old(sched.activeCronJobs)
    ensures ValidateScheduleId(id).Ok? && id.value in table ==>
      r == Ok(id.value) && remaining == table - {id.value}
      && sched.activeCronJobs == old(sched.activeCronJobs).Delete(id.value) && !sched.IsScheduleActive(id.value)
    ensures sched.pending == old(sched.pending) && sched.nextTimer == old(sched.nextTimer)
  {
    var valid := ValidateScheduleId(id);
    if valid.Err? {
      return Err(Refusal(HTTP_BAD_REQUEST, valid.error)), table;
    }
    if valid.value !in table {
      return Err(Refusal(HTTP_NOT_FOUND, SCHEDULE_NOT_FOUND)), table;
    }
    sched.RemoveScheduleFromCron(valid.value);
    r, remaining := Ok(valid.value), table - {valid.value};
  }

  /** `toggleSchedule`: the flag flips, and the scheduler re-reads the row. */
  method ToggleSchedule(sched: CronScheduler, table: map<int, ScheduleRow>, id: Option<int>)
    returns (r: Result<Toggled, Refusal>, toggled: map<int, ScheduleRow>)
    requires sched.Valid() && KeyedTable(table)
    modifies sched
    ensures sched.Valid() && KeyedTable(toggled)
    ensures ValidateScheduleId(id).Err? ==>
      r == Err(Refusal(HTTP_BAD_REQUEST, ValidateScheduleId(id).error))
      && toggled == table && sched.activeCronJobs == old(sched.activeCronJobs)
    ensures ValidateScheduleId(id).Ok? && id.value !in table ==>
      r == Err(Refusal(HTTP_NOT_FOUND, SCHEDULE_NOT_FOUND))
      && toggled == table && sched.activeCronJobs == old(sched.activeCronJobs)
    ensures ValidateScheduleId(id).Ok? && id.value in table ==>
      var row := table[id.value];
      var flag := Flip(row.enabled);
      toggled == table[id.value := row.(enabled := flag)]
      && r == Ok(Toggled(id.value, flag == 1, if flag == 1 then "Schedule enabled" else "Schedule disabled"))
      // a schedule turned on runs again when it lists a day; one turned off stops
      && (sched.IsScheduleActive(id.value) <==> flag == 1 && ParseDays(row.days) != [])
      && sched.activeCronJobs == Refresh(old(sched.activeCronJobs), id.value, Some(row.(enabled := flag)))
    ensures sched.pending == old(sched.pending) && sched.nextTimer == old(sched.nextTimer)
  {
    var valid := ValidateScheduleId(id);
    if valid.Err? {
      return Err(Refusal(HTTP_BAD_REQUEST, valid.error)), table;
    }
    if valid.value !in table {
      return Err(Refusal(HTTP_NOT_FOUND, SCHEDULE_NOT_FOUND)), table;
    }
    var row := table[valid.value];
    var flag := Flip(row.enabled);
    var newRow := row.(enabled := flag);
    toggled := table[valid.value := newRow];
    sched.UpdateScheduleInCron(valid.value, Some(newRow));
    r := Ok(Toggled(valid.value, flag == 1, if flag == 1 then "Schedule enabled" else "Schedule disabled"));
  }

  /**
   * The `days` and `next_run` fields of a read, at weekday `today` and minute
   * of the day `currentMinute`: the days column parsed, or `[]` when it does
   * not parse; no next run for a disabled schedule.
   */
  method NextRunOf(row: ScheduleRow, today: int, currentMinute: int)
    returns (days: seq<int>, next: Option<NextRun>)
    requires IsHHMM(row.startTime) && 0 <= today <= 6
    ensures days == ParseDays(row.days)
    ensures row.days == DaysJson(Unparsable) ==> days == []
    ensures row.enabled == 0 ==> next.None?
    ensures row.enabled != 0 ==>
      (next.None? <==> forall j | 1 <= j <= 7 :: !ListedAfter(days, today, j))
      && (next.Some? ==> next.value.hours == ClockHours(row.startTime) && next.value.minutes == ClockMinutes(row.startTime))
      && (next.Some? && next.value.daysAhead == 0 <==>
            Listed(days, today) && ClockHours(row.startTime) * 60 + ClockMinutes(row.startTime) > currentMinute)
  {
    days := ParseDays(row.days);
    if row.enabled == 0 {
      return days, None;
    }
    next := GetNextScheduledRun(ClockHours(row.startTime), ClockMinutes(row.startTime), days, today, currentMinute);
  }
}
