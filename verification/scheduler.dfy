/**
 * The schedule runner: one cron job per enabled schedule that lists at least
 * one day, kept in `activeCronJobs` by schedule id. When a job fires it runs
 * the schedule it was registered with: a zone schedule starts its zone, a
 * group schedule starts the group's first zone now and gives every later zone
 * a timer of its own.
 *
 * The cron library's clock is left out: a job firing is the call `FireCronJob`,
 * and a pending group start firing is `FireScheduledStart`. The schedule rows
 * the database returns are parameters.
 */
module Scheduler {
  import opened Wrappers
  import opened Constants
  import opened JsMaps
  import opened JsValues
  import opened Helpers
  import opened Gpio
  import opened ZoneManagerService
  import opened GroupSequencer

  /** A `schedules` row. `zoneId` and `groupId` are nullable columns; `enabled` is 0 or 1. */
  datatype ScheduleRow = ScheduleRow(
    id: int, zoneId: Option<int>, groupId: Option<int>, startTime: string,
    duration: int, days: DaysValue, enabled: int)

  /** A registered cron job: its expression, and the schedule row it captured when it was created. */
  datatype CronJob = CronJob(expression: string, schedule: ScheduleRow)

  /** A group member's pending start, armed by a group schedule. */
  datatype ScheduledStart = ScheduledStart(zoneId: int, duration: int, scheduleId: int, dueAt: int)

  /** What running a schedule did. */
  datatype Execution =
    | NoTarget
    | ZoneSkipped
    | ZoneAttempted(result: Result<StartInfo, string>)
    | GroupSkippedEmpty
    | GroupSkippedRunning(runningZone: int)
    | GroupAborted(error: string)
    | GroupStarted(first: StartInfo, later: nat)

  /** JavaScript truthiness of a nullable integer column: present and not zero. */
  predicate Truthy(v: Option<int>) {
    v.Some? && v.value != 0
  }

  /** The cron job `addScheduleToCron` creates for `s`, or none when `s` lists no day. */
  function JobFor(s: ScheduleRow): (job: Option<CronJob>)
    ensures job.None? <==> ParseDays(s.days) == []
    ensures job.Some? ==> job.value.schedule == s
  {
    var days := ParseDays(s.days);
    if days == [] then None else Some(CronJob(GenerateCronExpression(s.startTime, days), s))
  }

  /** The job table after `addScheduleToCron(s)`: the new job replaces any job under the same id. */
  function Register(jobs: JsMap<int, CronJob>, s: ScheduleRow): (r: JsMap<int, CronJob>)
    requires jobs.Valid()
    ensures r.Valid()
  {
    match JobFor(s)
    case None => jobs
    case Some(job) => jobs.Set(s.id, job)
  }

  /** Every job sits under the id of the schedule it captured. */
  ghost predicate Keyed(jobs: JsMap<int, CronJob>) {
    forall id | id in jobs.entries :: jobs.entries[id].schedule.id == id
  }

  /** The rows `WHERE s.enabled = 1` selects, in table order. */
  function EnabledRows(table: seq<ScheduleRow>): (rows: seq<ScheduleRow>)
    ensures forall s :: s in rows <==> s in table && s.enabled == 1
  {
    if table == [] then []
    else if table[0].enabled == 1 then [table[0]] + EnabledRows(table[1..])
    else EnabledRows(table[1..])
  }

  /** Schedule ids are the table's primary key. */
  predicate DistinctScheduleIds(rows: seq<ScheduleRow>) {
    forall i, j | 0 <= i < j < |rows| :: rows[i].id != rows[j].id
  }

  /** Selecting rows keeps ids distinct. */
  lemma {:induction false} EnabledRowsDistinct(table: seq<ScheduleRow>)
    requires DistinctScheduleIds(table)
    ensures DistinctScheduleIds(EnabledRows(table))
  {
    if table != [] {
      var rest := table[1..];
      assert DistinctScheduleIds(rest) by {
        forall i, j | 0 <= i < j < |rest| ensures rest[i].id != rest[j].id {
          assert rest[i] == table[i + 1] && rest[j] == table[j + 1];
        }
      }
      EnabledRowsDistinct(rest);
      if table[0].enabled == 1 {
        var tail := EnabledRows(rest);
        forall k | 0 <= k < |tail| ensures tail[k].id != table[0].id {
          assert tail[k] in rest;
          var m :| 0 <= m < |rest| && rest[m] == tail[k];
          assert rest[m] == table[m + 1];
        }
        assert EnabledRows(table) == [table[0]] + tail;
      }
    }
  }

  /** The job table after adding the first `n` rows, in order, on top of `jobs`. */
  function RegisterAll(jobs: JsMap<int, CronJob>, rows: seq<ScheduleRow>, n: nat): (r: JsMap<int, CronJob>)
    requires jobs.Valid() && n <= |rows|
    ensures r.Valid()
    decreases n
  {
    if n == 0 then jobs else Register(RegisterAll(jobs, rows, n - 1), rows[n - 1])
  }

  /** Adding one row: its id joins the table when it lists a day, under a job that captured it; no other entry changes. */
  lemma RegisterEffect(jobs: JsMap<int, CronJob>, s: ScheduleRow)
    requires jobs.Valid()
    ensures Register(jobs, s).entries.Keys ==
      if ParseDays(s.days) != [] then jobs.entries.Keys + {s.id} else jobs.entries.Keys
    ensures ParseDays(s.days) != [] ==> Register(jobs, s).entries[s.id].schedule == s
    ensures forall k | k in jobs.entries && k != s.id :: Register(jobs, s).entries[k] == jobs.entries[k]
  {
  }

  /** The ids of the first `n` rows that list a day. */
  function ListedIds(rows: seq<ScheduleRow>, n: nat): set<int>
    requires n <= |rows|
  {
    set i | 0 <= i < n && ParseDays(rows[i].days) != [] :: rows[i].id
  }

  /** The ids listed by one more row. */
  lemma ListedIdsStep(rows: seq<ScheduleRow>, n: nat)
    requires 0 < n <= |rows|
    ensures ListedIds(rows, n) ==
      if ParseDays(rows[n - 1].days) != [] then ListedIds(rows, n - 1) + {rows[n - 1].id} else ListedIds(rows, n - 1)
  {
    var s := rows[n - 1];
    forall id | id in ListedIds(rows, n)
      ensures id in ListedIds(rows, n - 1) || (ParseDays(s.days) != [] && id == s.id)
    {
      var i :| 0 <= i < n && ParseDays(rows[i].days) != [] && rows[i].id == id;
      if i < n - 1 {
        assert id in ListedIds(rows, n - 1);
      }
    }
    if ParseDays(s.days) != [] {
      assert s.id in ListedIds(rows, n);
    }
  }

  /** Loading rows into an empty table: the active schedules are those of the rows that list a day. */
  lemma {:induction false} RegisterAllActive(rows: seq<ScheduleRow>, n: nat)
    requires n <= |rows|
    ensures RegisterAll(Empty(), rows, n).entries.Keys == ListedIds(rows, n)
  {
    if n > 0 {
      RegisterAllActive(rows, n - 1);
      RegisterEffect(RegisterAll(Empty(), rows, n - 1), rows[n - 1]);
      ListedIdsStep(rows, n);
    }
  }

  /** With distinct ids, each row that lists a day keeps a job that captured it. */
  lemma {:induction false} RegisterAllJobs(rows: seq<ScheduleRow>, n: nat)
    requires n <= |rows| && DistinctScheduleIds(rows)
    ensures forall i | 0 <= i < n && ParseDays(rows[i].days) != [] ::
      rows[i].id in RegisterAll(Empty(), rows, n).entries
      && RegisterAll(Empty(), rows, n).entries[rows[i].id].schedule == rows[i]
  {
    if n > 0 {
      RegisterAllJobs(rows, n - 1);
      var prev := RegisterAll(Empty(), rows, n - 1);
      var next := RegisterAll(Empty(), rows, n);
      var s := rows[n - 1];
      RegisterEffect(prev, s);
      forall i | 0 <= i < n && ParseDays(rows[i].days) != []
        ensures rows[i].id in next.entries && next.entries[rows[i].id].schedule == rows[i]
      {
        if i < n - 1 {
          assert rows[i].id != s.id;
          assert rows[i].id in prev.entries && prev.entries[rows[i].id].schedule == rows[i];
        }
      }
    }
  }

  /** A table built by adding rows is keyed by schedule id. */
  lemma {:induction false} RegisterAllKeyed(jobs: JsMap<int, CronJob>, rows: seq<ScheduleRow>, n: nat)
    requires jobs.Valid() && n <= |rows| && Keyed(jobs)
    ensures Keyed(RegisterAll(jobs, rows, n))
  {
    if n > 0 {
      RegisterAllKeyed(jobs, rows, n - 1);
    }
  }

  /** The ids of enabled rows that list a day. */
  function DueIds(table: seq<ScheduleRow>): set<int> {
    set s | s in table && s.enabled == 1 && ParseDays(s.days) != [] :: s.id
  }

  /** Loading a table registers exactly the enabled schedules that list a day. */
  lemma LoadedIds(table: seq<ScheduleRow>)
    ensures RegisterAll(Empty(), EnabledRows(table), |EnabledRows(table)|).entries.Keys == DueIds(table)
  {
    var rows := EnabledRows(table);
    RegisterAllActive(rows, |rows|);
    forall id | id in ListedIds(rows, |rows|) ensures id in DueIds(table) {
      var i :| 0 <= i < |rows| && ParseDays(rows[i].days) != [] && rows[i].id == id;
      assert rows[i] in rows;
    }
    forall id | id in DueIds(table) ensures id in ListedIds(rows, |rows|) {
      var s :| s in table && s.enabled == 1 && ParseDays(s.days) != [] && s.id == id;
      assert s in rows;
      var i :| 0 <= i < |rows| && rows[i] == s;
    }
  }

  /** With ids as the primary key, each loaded job captured its own enabled row. */
  lemma LoadedJobs(table: seq<ScheduleRow>)
    requires DistinctScheduleIds(table)
    ensures forall s | s in table && s.enabled == 1 && ParseDays(s.days) != [] ::
      s.id in RegisterAll(Empty(), EnabledRows(table), |EnabledRows(table)|).entries
      && RegisterAll(Empty(), EnabledRows(table), |EnabledRows(table)|).entries[s.id].schedule == s
  {
    var rows := EnabledRows(table);
    EnabledRowsDistinct(table);
    RegisterAllJobs(rows, |rows|);
    forall s | s in table && s.enabled == 1 && ParseDays(s.days) != []
      ensures s.id in RegisterAll(Empty(), rows, |rows|).entries
              && RegisterAll(Empty(), rows, |rows|).entries[s.id].schedule == s
    {
      assert s in rows;
      var i :| 0 <= i < |rows| && rows[i] == s;
    }
  }

  /** The job table after `updateScheduleInCron(id)`, given the row under `id` (enabled or not), if any. */
  function Refresh(jobs: JsMap<int, CronJob>, id: int, stored: Option<ScheduleRow>): (r: JsMap<int, CronJob>)
    requires jobs.Valid()
    ensures r.Valid()
  {
    var removed := jobs.Delete(id);
    if stored.Some? && stored.value.enabled == 1 then Register(removed, stored.value) else removed
  }

  /** Refreshing one schedule: it is active afterwards exactly when its row exists, is enabled and lists a day; no other entry changes. */
  lemma RefreshEffect(jobs: JsMap<int, CronJob>, id: int, stored: Option<ScheduleRow>)
    requires jobs.Valid() && (stored.Some? ==> stored.value.id == id)
    ensures Refresh(jobs, id, stored).Has(id) <==>
      stored.Some? && stored.value.enabled == 1 && ParseDays(stored.value.days) != []
    ensures Refresh(jobs, id, stored).Has(id) ==>
      Refresh(jobs, id, stored).entries[id] == JobFor(stored.value).value
    ensures forall k | k != id :: Refresh(jobs, id, stored).Has(k) == jobs.Has(k)
    ensures forall k | k != id && jobs.Has(k) :: Refresh(jobs, id, stored).entries[k] == jobs.entries[k]
  {
  }

  /** What `startZoneManaged` answers for a start of `zoneId` when the pins in `pins` exist. */
  function StartOutcome(running: JsMap<int, RunningZone>, zoneId: int, duration: int, maxSetting: Option<int>,
                        zones: map<int, string>, pins: set<int>, now: int): (r: Result<StartInfo, string>)
    ensures r.Ok? <==> StartCheck(running, zoneId, duration, maxSetting, zones).None? && zoneId in pins
    ensures r.Ok? ==> !running.Has(zoneId) && running.Size() < ConcurrencyLimit(maxSetting)
                      && MIN_DURATION_MINUTES <= duration <= MAX_RUNTIME_MINUTES
                      && r.value.zoneId == zoneId && r.value.willStopAt == now + Minutes(duration)
  {
    var failure := StartCheck(running, zoneId, duration, maxSetting, zones);
    if failure.Some? then Err(failure.value)
    else if zoneId !in pins then Err(NotInitializedMessage(zoneId))
    else Ok(StartInfo(zoneId, zones[zoneId], duration, now, now + Minutes(duration)))
  }

  /**
   * What running schedule `s` does, given the group's members in sequence
   * order, the running zones and the existing pins.
   */
  function Outcome(s: ScheduleRow, members: seq<Member>, running: JsMap<int, RunningZone>, maxSetting: Option<int>,
                   zones: map<int, string>, pins: set<int>, now: int): (e: Execution)
    // a zone schedule never touches a zone that is already running
    ensures Truthy(s.zoneId) ==> (e == ZoneSkipped <==> running.Has(s.zoneId.value))
    ensures e.ZoneAttempted? ==> Truthy(s.zoneId) && (e.result.Ok? ==> e.result.value.zoneId == s.zoneId.value)
    // a group schedule starts only when none of its zones runs, and starts the first
    ensures e.GroupStarted? ==>
      !Truthy(s.zoneId) && Truthy(s.groupId) && members != []
      && (forall k | 0 <= k < |members| :: !running.Has(members[k].id))
      && e.first.zoneId == members[0].id && e.later == |members| - 1
    ensures e.GroupSkippedRunning? ==>
      exists k | 0 <= k < |members| :: members[k].id == e.runningZone && running.Has(e.runningZone)
    ensures e == NoTarget <==> !Truthy(s.zoneId) && !Truthy(s.groupId)
  {
    if Truthy(s.zoneId) then
      if running.Has(s.zoneId.value) then ZoneSkipped
      else ZoneAttempted(StartOutcome(running, s.zoneId.value, s.duration, maxSetting, zones, pins, now))
    else if Truthy(s.groupId) then
      if members == [] then GroupSkippedEmpty
      else match FirstRunning(members, running)
        case Some(k) => GroupSkippedRunning(members[k].id)
        case None =>
          match StartOutcome(running, members[0].id, s.duration, maxSetting, zones, pins, now)
          case Err(error) => GroupAborted(error)
          case Ok(info) => GroupStarted(info, |members| - 1)
    else NoTarget
  }

  /** The zone an execution started, if it started one. */
  function StartedZone(e: Execution): Option<int> {
    match e
    case ZoneAttempted(Ok(info)) => Some(info.zoneId)
    case GroupStarted(info, _) => Some(info.zoneId)
    case _ => None
  }

  /** The pending starts after members 1 .. n-1 were given timers `base`, `base + 1`, ... on top of `p`. */
  function ArmedUpTo(p: map<nat, ScheduledStart>, base: nat, members: seq<Member>, s: ScheduleRow, now: int, n: nat)
    : map<nat, ScheduledStart>
    requires 1 <= n <= |members|
    decreases n
  {
    if n == 1 then p
    else ArmedUpTo(p, base, members, s, now, n - 1)[base + n - 2 :=
      ScheduledStart(members[n - 1].id, s.duration, s.id, now + Delay(s.duration, n - 1))]
  }

  /**
   * Arming on fresh handles keeps every earlier pending start, gives member
   * `i` a start of the schedule's duration due `Delay(duration, i)` after
   * `now` under handle `base + i - 1`, and adds no other handle.
   */
  lemma {:induction false} ArmedUpToEntries(p: map<nat, ScheduledStart>, base: nat, members: seq<Member>,
                                           s: ScheduleRow, now: int, n: nat)
    requires 1 <= n <= |members|
    requires forall h | h in p :: h < base
    ensures forall h | h in p :: h in ArmedUpTo(p, base, members, s, now, n) && ArmedUpTo(p, base, members, s, now, n)[h] == p[h]
    ensures forall h | base <= h < base + n - 1 ::
      h in ArmedUpTo(p, base, members, s, now, n)
      && ArmedUpTo(p, base, members, s, now, n)[h]
         == ScheduledStart(members[h - base + 1].id, s.duration, s.id, now + Delay(s.duration, h - base + 1))
    ensures forall h | h in ArmedUpTo(p, base, members, s, now, n) :: h in p || base <= h < base + n - 1
  {
    if n > 1 {
      ArmedUpToEntries(p, base, members, s, now, n - 1);
      var prev := ArmedUpTo(p, base, members, s, now, n - 1);
      assert ArmedUpTo(p, base, members, s, now, n)
          == prev[base + n - 2 := ScheduledStart(members[n - 1].id, s.duration, s.id, now + Delay(s.duration, n - 1))];
    }
  }

  class CronScheduler {
    const zm: ZoneManager
    /** Schedule id to its cron job, in registration order. */
    var activeCronJobs: JsMap<int, CronJob>
    /** Jobs a later job under the same id replaced without stopping them: still scheduled, no longer reachable. */
    var strayJobs: seq<CronJob>
    /** Pending group member starts by timer handle. */
    var pending: map<nat, ScheduledStart>
    var nextTimer: nat

    ghost predicate Valid()
      reads this, zm, zm.gpio, zm.gpio.Repr
    {
      zm.Valid() && this !in zm.gpio.Repr && activeCronJobs.Valid() && Keyed(activeCronJobs)
      && forall h | h in pending :: h < nextTimer
    }

    /** The scheduler at module load: no job, no pending start. */
    constructor(zm: ZoneManager)
      requires zm.Valid()
      ensures Valid() && this.zm == zm
      ensures activeCronJobs == Empty() && strayJobs == [] && pending == map[] && nextTimer == 0
    {
      this.zm := zm;
      activeCronJobs := Empty();
      strayJobs := [];
      pending := map[];
      nextTimer := 0;
    }

    /** `getActiveScheduleCount`: the number of registered jobs. */
    function GetActiveScheduleCount(): (count: nat)
      requires activeCronJobs.Valid()
      reads this
      ensures count == |activeCronJobs.entries|
    {
      SizeIsEntryCount(activeCronJobs);
      activeCronJobs.Size()
    }

    /** `isScheduleActive`. */
    predicate IsScheduleActive(scheduleId: int)
      reads this
    {
      activeCronJobs.Has(scheduleId)
    }

    /**
     * `addScheduleToCron(s)`: a schedule without days is skipped; otherwise its
     * job is stored under its id, and a job already stored there is left
     * running, unreachable.
     */
    method AddScheduleToCron(s: ScheduleRow)
      requires Valid()
      modifies this
      ensures Valid()
      ensures activeCronJobs == Register(old(activeCronJobs), s)
      ensures strayJobs == old(strayJobs) +
        (if JobFor(s).Some? && old(activeCronJobs).Has(s.id) then [old(activeCronJobs).entries[s.id]] else [])
      ensures pending == old(pending) && nextTimer == old(nextTimer)
    {
      var days := ParseDays(s.days);
      if days == [] {
        return;
      }
      var job := CronJob(GenerateCronExpression(s.startTime, days), s);
      if activeCronJobs.Has(s.id) {
        strayJobs := strayJobs + [activeCronJobs.entries[s.id]];
      }
      activeCronJobs := activeCronJobs.Set(s.id, job);
    }

    /** `removeScheduleFromCron(id)`: the job is stopped and forgotten; an unknown id changes nothing. */
    method RemoveScheduleFromCron(scheduleId: int)
      requires Valid()
      modifies this
      ensures Valid()
      ensures activeCronJobs == old(activeCronJobs).Delete(scheduleId)
      ensures !IsScheduleActive(scheduleId)
      ensures !old(IsScheduleActive(scheduleId)) ==> activeCronJobs == old(activeCronJobs)
      ensures strayJobs == old(strayJobs) && pending == old(pending) && nextTimer == old(nextTimer)
    {
      if activeCronJobs.Has(scheduleId) {
        activeCronJobs := activeCronJobs.Delete(scheduleId);
      }
    }

    /**
     * `updateScheduleInCron(id)`, where `stored` is the schedules row with
     * that id, if one exists: the old job goes, and the row is added again
     * when it is enabled.
     */
    method UpdateScheduleInCron(scheduleId: int, stored: Option<ScheduleRow>)
      requires Valid() && (stored.Some? ==> stored.value.id == scheduleId)
      modifies this
      ensures Valid()
      ensures activeCronJobs == Refresh(old(activeCronJobs), scheduleId, stored)
      ensures IsScheduleActive(scheduleId) <==>
        stored.Some? && stored.value.enabled == 1 && ParseDays(stored.value.days) != []
      ensures forall k | k != scheduleId :: IsScheduleActive(k) == old(IsScheduleActive(k))
      ensures strayJobs == old(strayJobs) && pending == old(pending) && nextTimer == old(nextTimer)
    {
      RemoveScheduleFromCron(scheduleId);
      if stored.Some? && stored.value.enabled == 1 {
        AddScheduleToCron(stored.value);
      }
      RefreshEffect(old(activeCronJobs), scheduleId, stored);
    }

    /** `stopScheduler`: every registered job is stopped and the table cleared; replaced jobs keep running. */
    method StopScheduler()
      requires Valid()
      modifies this
      ensures Valid()
      ensures activeCronJobs == Empty() && GetActiveScheduleCount() == 0
      ensures strayJobs == old(strayJobs) && pending == old(pending) && nextTimer == old(nextTimer)
    {
      activeCronJobs := Empty();
    }

    /** The loop of `loadSchedules`: each row added in turn. */
    method AddEach(rows: seq<ScheduleRow>)
      requires Valid()
      modifies this
      ensures Valid()
      ensures activeCronJobs == RegisterAll(old(activeCronJobs), rows, |rows|)
      ensures activeCronJobs.entries.Keys <= old(activeCronJobs).entries.Keys + (set j | 0 <= j < |rows| :: rows[j].id)
      ensures DistinctScheduleIds(rows) && (forall j | 0 <= j < |rows| :: !old(activeCronJobs).Has(rows[j].id)) ==>
        strayJobs == old(strayJobs)
      ensures pending == old(pending) && nextTimer == old(nextTimer)
    {
      var i := 0;
      while i < |rows|
        invariant 0 <= i <= |rows|
        invariant Valid()
        invariant activeCronJobs == RegisterAll(old(activeCronJobs), rows, i)
        invariant activeCronJobs.entries.Keys <= old(activeCronJobs).entries.Keys + (set j | 0 <= j < i :: rows[j].id)
        invariant DistinctScheduleIds(rows) && (forall j | 0 <= j < |rows| :: !old(activeCronJobs).Has(rows[j].id)) ==>
          strayJobs == old(strayJobs)
        invariant pending == old(pending) && nextTimer == old(nextTimer)
      {
        AddScheduleToCron(rows[i]);
        i := i + 1;
      }
    }

    /**
     * `loadSchedules`, over the whole schedules table: the registered jobs are
     * stopped and dropped, then every enabled row is added, in table order.
     */
    method LoadSchedules(table: seq<ScheduleRow>)
      requires Valid()
      modifies this
      ensures Valid()
      ensures activeCronJobs == RegisterAll(Empty(), EnabledRows(table), |EnabledRows(table)|)
      // a schedule is active exactly when its row is enabled and lists a day
      ensures activeCronJobs.entries.Keys == DueIds(table)
      // with ids as the primary key, each job runs its own row, and no job is replaced
      ensures DistinctScheduleIds(table) ==>
        forall s | s in table && s.enabled == 1 && ParseDays(s.days) != [] :: activeCronJobs.entries[s.id].schedule == s
      ensures DistinctScheduleIds(table) ==> strayJobs == old(strayJobs)
      ensures pending == old(pending) && nextTimer == old(nextTimer)
    {
      var rows := EnabledRows(table);
      activeCronJobs := Empty();
      AddEach(rows);
      LoadedIds(table);
      if DistinctScheduleIds(table) {
        EnabledRowsDistinct(table);
        LoadedJobs(table);
      }
    }

    /** A zone schedule: skipped when the zone runs, otherwise a scheduled start tagged with the schedule. */
    method ExecuteZone(s: ScheduleRow, maxSetting: Option<int>, zones: map<int, string>, historyId: int, now: int)
      returns (e: Execution)
      requires Valid() && Truthy(s.zoneId)
      modifies zm, zm.gpio.Repr
      ensures Valid() && zm.gpio.gpioPins == old(zm.gpio.gpioPins) && zm.queuedZones == old(zm.queuedZones)
      ensures e == Outcome(s, [], old(zm.runningZones), maxSetting, zones, zm.gpio.gpioPins.Keys, now)
      ensures StartedZone(e).Some? ==>
        zm.runningZones == old(zm.runningZones).Set(StartedZone(e).value,
          RunningZone(now, s.duration, old(zm.nextHandle), historyId, TRIGGER_SCHEDULED, Some(s.id)))
      ensures StartedZone(e).None? ==> zm.runningZones == old(zm.runningZones)
      ensures old(zm.Armed()) ==> zm.Armed()
      ensures old(zm.RelaysAgree()) ==> zm.RelaysAgree()
    {
      var zoneId := s.zoneId.value;
      if zm.IsZoneRunning(zoneId) {
        return ZoneSkipped;
      }
      var r := zm.StartZoneManaged(zoneId, s.duration, TRIGGER_SCHEDULED, Some(s.id), maxSetting, zones, historyId, now);
      e := ZoneAttempted(r);
    }

    /** The timer loop of a group schedule: members 1 .. n-1 get a pending start each. */
    method ArmScheduled(members: seq<Member>, s: ScheduleRow, now: int)
      requires Valid() && |members| >= 1
      modifies this
      ensures Valid()
      ensures pending == ArmedUpTo(old(pending), old(nextTimer), members, s, now, |members|)
      ensures nextTimer == old(nextTimer) + |members| - 1
      ensures activeCronJobs == old(activeCronJobs) && strayJobs == old(strayJobs)
    {
      var i := 1;
      while i < |members|
        invariant 1 <= i <= |members|
        invariant pending == ArmedUpTo(old(pending), old(nextTimer), members, s, now, i)
        invariant nextTimer == old(nextTimer) + i - 1
        invariant activeCronJobs == old(activeCronJobs) && strayJobs == old(strayJobs)
        invariant Valid()
      {
        pending := pending[nextTimer := ScheduledStart(members[i].id, s.duration, s.id, now + Delay(s.duration, i))];
        nextTimer := nextTimer + 1;
        i := i + 1;
      }
    }

    /**
     * A group schedule past its checks: the first member starts now; a failed
     * start throws past the timer loop, so only a successful one arms the rest.
     */
    method LaunchScheduled(s: ScheduleRow, members: seq<Member>, maxSetting: Option<int>, zones: map<int, string>,
                           historyId: int, now: int)
      returns (r: Result<StartInfo, string>)
      requires Valid() && |members| >= 1
      modifies this, zm, zm.gpio.Repr
      ensures Valid() && zm.gpio.gpioPins == old(zm.gpio.gpioPins) && zm.queuedZones == old(zm.queuedZones)
      ensures r == StartOutcome(old(zm.runningZones), members[0].id, s.duration, maxSetting, zones,
                                zm.gpio.gpioPins.Keys, now)
      ensures r.Ok? ==>
        zm.runningZones == old(zm.runningZones).Set(members[0].id,
          RunningZone(now, s.duration, old(zm.nextHandle), historyId, TRIGGER_SCHEDULED, Some(s.id)))
        && pending == ArmedUpTo(old(pending), old(nextTimer), members, s, now, |members|)
        && nextTimer == old(nextTimer) + |members| - 1
      ensures r.Err? ==>
        zm.runningZones == old(zm.runningZones) && pending == old(pending) && nextTimer == old(nextTimer)
      ensures activeCronJobs == old(activeCronJobs) && strayJobs == old(strayJobs)
      ensures old(zm.Armed()) ==> zm.Armed()
      ensures old(zm.RelaysAgree()) ==> zm.RelaysAgree()
    {
      r := zm.StartZoneManaged(members[0].id, s.duration, TRIGGER_SCHEDULED, Some(s.id),
                               maxSetting, zones, historyId, now);
      if r.Ok? {
        ArmScheduled(members, s, now);
      }
    }

    /**
     * A group schedule over the group's members: skipped when the group is
     * empty or one of its zones runs; otherwise the first member starts now,
     * and only when that start succeeds do the later members get timers.
     */
    method ExecuteGroup(s: ScheduleRow, members: seq<Member>, maxSetting: Option<int>, zones: map<int, string>,
                        historyId: int, now: int)
      returns (e: Execution)
      requires Valid() && !Truthy(s.zoneId) && Truthy(s.groupId)
      modifies this, zm, zm.gpio.Repr
      ensures Valid() && zm.gpio.gpioPins == old(zm.gpio.gpioPins) && zm.queuedZones == old(zm.queuedZones)
      ensures e == Outcome(s, members, old(zm.runningZones), maxSetting, zones, zm.gpio.gpioPins.Keys, now)
      ensures StartedZone(e).Some? ==>
        zm.runningZones == old(zm.runningZones).Set(StartedZone(e).value,
          RunningZone(now, s.duration, old(zm.nextHandle), historyId, TRIGGER_SCHEDULED, Some(s.id)))
      ensures StartedZone(e).None? ==> zm.runningZones == old(zm.runningZones)
      ensures e.GroupStarted? ==>
        pending == ArmedUpTo(old(pending), old(nextTimer), members, s, now, |members|)
        && nextTimer == old(nextTimer) + |members| - 1
      ensures !e.GroupStarted? ==> pending == old(pending) && nextTimer == old(nextTimer)
      ensures activeCronJobs == old(activeCronJobs) && strayJobs == old(strayJobs)
      ensures old(zm.Armed()) ==> zm.Armed()
      ensures old(zm.RelaysAgree()) ==> zm.RelaysAgree()
    {
      if members == [] {
        return GroupSkippedEmpty;
      }
      var running := FirstRunning(members, zm.runningZones);
      if running.Some? {
        return GroupSkippedRunning(members[running.value].id);
      }
      var r := LaunchScheduled(s, members, maxSetting, zones, historyId, now);
      e := if r.Ok? then GroupStarted(r.value, |members| - 1) else GroupAborted(r.error);
    }

    /**
     * `executeSchedule(s)`, where `members` are the zones of `s`'s group in
     * sequence order. Every failure is caught and logged, so the caller sees
     * nothing; the execution says what happened.
     */
    method ExecuteSchedule(s: ScheduleRow, members: seq<Member>, maxSetting: Option<int>, zones: map<int, string>,
                           historyId: int, now: int)
      returns (e: Execution)
      requires Valid()
      modifies this, zm, zm.gpio.Repr
      ensures Valid() && zm.gpio.gpioPins == old(zm.gpio.gpioPins) && zm.queuedZones == old(zm.queuedZones)
      ensures e == Outcome(s, members, old(zm.runningZones), maxSetting, zones, zm.gpio.gpioPins.Keys, now)
      ensures StartedZone(e).Some? ==>
        zm.runningZones == old(zm.runningZones).Set(StartedZone(e).value,
          RunningZone(now, s.duration, old(zm.nextHandle), historyId, TRIGGER_SCHEDULED, Some(s.id)))
      ensures StartedZone(e).None? ==> zm.runningZones == old(zm.runningZones)
      ensures e.GroupStarted? ==>
        pending == ArmedUpTo(old(pending), old(nextTimer), members, s, now, |members|)
        && nextTimer == old(nextTimer) + |members| - 1
      ensures !e.GroupStarted? ==> pending == old(pending) && nextTimer == old(nextTimer)
      ensures activeCronJobs == old(activeCronJobs) && strayJobs == old(strayJobs)
      ensures old(zm.Armed()) ==> zm.Armed()
      ensures old(zm.RelaysAgree()) ==> zm.RelaysAgree()
    {
      if Truthy(s.zoneId) {
        e := ExecuteZone(s, maxSetting, zones, historyId, now);
      } else if Truthy(s.groupId) {
        e := ExecuteGroup(s, members, maxSetting, zones, historyId, now);
      } else {
        e := NoTarget;
      }
    }

    /** The cron job of schedule `scheduleId` fires: it runs the row it captured when it was registered. */
    method FireCronJob(scheduleId: int, members: seq<Member>, maxSetting: Option<int>, zones: map<int, string>,
                       historyId: int, now: int)
      returns (e: Execution)
      requires Valid() && IsScheduleActive(scheduleId)
      modifies this, zm, zm.gpio.Repr
      ensures Valid() && zm.gpio.gpioPins == old(zm.gpio.gpioPins)
      ensures var s := old(activeCronJobs.entries[scheduleId].schedule);
        s.id == scheduleId
        && e == Outcome(s, members, old(zm.runningZones), maxSetting, zones, zm.gpio.gpioPins.Keys, now)
        && (StartedZone(e).Some? ==>
              zm.runningZones == old(zm.runningZones).Set(StartedZone(e).value,
                RunningZone(now, s.duration, old(zm.nextHandle), historyId, TRIGGER_SCHEDULED, Some(scheduleId))))
        && (StartedZone(e).None? ==> zm.runningZones == old(zm.runningZones))
      ensures activeCronJobs == old(activeCronJobs) && strayJobs == old(strayJobs)
      ensures old(zm.Armed()) ==> zm.Armed()
      ensures old(zm.RelaysAgree()) ==> zm.RelaysAgree()
    {
      var s := activeCronJobs.entries[scheduleId].schedule;
      e := ExecuteSchedule(s, members, maxSetting, zones, historyId, now);
    }

    /**
     * Group timer `handle` fires at time `now`: the member is started with the
     * schedule's tag, with no check of the group beyond the start's own;
     * a failure is caught and logged.
     */
    method FireScheduledStart(handle: nat, maxSetting: Option<int>, zones: map<int, string>, historyId: int, now: int)
      returns (r: Result<StartInfo, string>)
      requires Valid() && handle in pending && pending[handle].dueAt <= now
      modifies this, zm, zm.gpio.Repr
      ensures Valid() && zm.gpio.gpioPins == old(zm.gpio.gpioPins) && zm.queuedZones == old(zm.queuedZones)
      ensures pending == old(pending) - {handle} && nextTimer == old(nextTimer)
      ensures var p := old(pending[handle]);
        r == StartOutcome(old(zm.runningZones), p.zoneId, p.duration, maxSetting, zones, zm.gpio.gpioPins.Keys, now)
        && (r.Ok? ==>
              zm.runningZones == old(zm.runningZones).Set(p.zoneId,
                RunningZone(now, p.duration, old(zm.nextHandle), historyId, TRIGGER_SCHEDULED, Some(p.scheduleId))))
        && (r.Err? ==> zm.runningZones == old(zm.runningZones))
      ensures activeCronJobs == old(activeCronJobs) && strayJobs == old(strayJobs)
      ensures old(zm.Armed()) ==> zm.Armed()
      ensures old(zm.RelaysAgree()) ==> zm.RelaysAgree()
    {
      var p := pending[handle];
      r := zm.StartZoneManaged(p.zoneId, p.duration, TRIGGER_SCHEDULED, Some(p.scheduleId),
                               maxSetting, zones, historyId, now);
      pending := pending - {handle};
    }
  }
}
