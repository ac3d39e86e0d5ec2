/**
 * The zone runtime registry and safety coordinator. It tracks which zones are
 * running (and until when), which zones wait in a group queue, and the
 * auto-stop timers it has armed, and it drives the relays through the GPIO
 * controller.
 *
 * The settings row, the zone rows and the history row id are parameters of the
 * operations that read them; the clock is the `now` parameter, in milliseconds;
 * a pending timer is an entry of `timers`, and its firing is `FireAutoStop`.
 */
module ZoneManagerService {
  import opened Wrappers
  import opened Strings
  import opened Constants
  import opened Collections
  import opened JsMaps
  import opened Gpio
  import opened ErrorHandler
  import Helpers

  /** A `runningZones` entry; `timeout` is the handle of its auto-stop timer. */
  datatype RunningZone = RunningZone(
    startTime: int, duration: int, timeout: nat, historyId: int, trigger: string, scheduleId: Option<int>)

  /** A `queuedZones` entry: the zone's place in a group run. */
  datatype QueueEntry = QueueEntry(
    groupId: int, groupName: string, position: int, totalInGroup: int, scheduledStartMs: int)

  /** A pending auto-stop: `stopZoneManaged(zoneId)` once the clock reaches `dueAt`. */
  datatype AutoStop = AutoStop(zoneId: int, dueAt: int)

  /** `getZoneState`'s answer; the start time and duration only for a running zone. */
  datatype ZoneState = ZoneState(isRunning: bool, remainingTime: int, startTime: Option<int>, duration: Option<int>)

  /** An element of `getRunningZones`'s array. */
  datatype RunningZoneView = RunningZoneView(
    zoneId: int, startTime: int, duration: int, elapsedMinutes: int, remainingMinutes: int, trigger: string)

  /** An element of `getAllQueuedZones`'s array. */
  datatype QueuedZoneView = QueuedZoneView(zoneId: int, entry: QueueEntry)

  /** What a successful start reports; `willStopAt` is in milliseconds. */
  datatype StartInfo = StartInfo(zoneId: int, zoneName: string, duration: int, startTime: int, willStopAt: int)

  /** What a successful stop reports; `runtime` in whole minutes. */
  datatype StopInfo = StopInfo(zoneId: int, zoneName: string, runtime: int)

  const ALREADY_RUNNING := "Zone is already running"
  const BAD_DURATION := "Duration must be between 1 and 60 minutes"
  const ZONE_NOT_FOUND := "Zone not found"
  const NOT_RUNNING := "Zone is not running"
  /** The TypeError of reading `zone.name` when the zone row is gone. */
  const ZONE_ROW_MISSING := "Cannot read properties of undefined (reading 'name')"

  function MaximumMessage(limit: int): string {
    "Maximum " + IntToString(limit) + " zones can run concurrently"
  }

  /** The concurrency ceiling: the settings row's value, or `SAFETY.MAX_CONCURRENT_ZONES` without one. */
  function ConcurrencyLimit(maxSetting: Option<int>): (limit: int)
    ensures maxSetting.Some? ==> limit == maxSetting.value
    ensures maxSetting.None? ==> limit == MAX_CONCURRENT_ZONES
  {
    maxSetting.GetOr(MAX_CONCURRENT_ZONES)
  }

  /** The milliseconds of a duration in minutes. */
  function Minutes(duration: int): int {
    duration * 60000
  }

  /**
   * The checks of `startZoneManaged`, in code order: the message of the first
   * one that fails, or `None` when the start may go ahead. `zones` maps each
   * existing zone id to its name.
   */
  function StartCheck(running: JsMap<int, RunningZone>, zoneId: int, duration: int,
                      maxSetting: Option<int>, zones: map<int, string>): (failure: Option<string>)
    ensures failure.None? <==>
      (!running.Has(zoneId) && running.Size() < ConcurrencyLimit(maxSetting)
       && MIN_DURATION_MINUTES <= duration <= MAX_RUNTIME_MINUTES && zoneId in zones)
    ensures running.Has(zoneId) ==> failure == Some(ALREADY_RUNNING)
    ensures !running.Has(zoneId) && running.Size() >= ConcurrencyLimit(maxSetting) ==>
      failure == Some(MaximumMessage(ConcurrencyLimit(maxSetting)))
    ensures (!running.Has(zoneId) && running.Size() < ConcurrencyLimit(maxSetting)
             && !(MIN_DURATION_MINUTES <= duration <= MAX_RUNTIME_MINUTES)) ==> failure == Some(BAD_DURATION)
    ensures (!running.Has(zoneId) && running.Size() < ConcurrencyLimit(maxSetting)
             && MIN_DURATION_MINUTES <= duration <= MAX_RUNTIME_MINUTES && zoneId !in zones) ==>
      failure == Some(ZONE_NOT_FOUND)
  {
    var limit := ConcurrencyLimit(maxSetting);
    if running.Has(zoneId) then Some(ALREADY_RUNNING)
    else if running.Size() >= limit then Some(MaximumMessage(limit))
    else if duration < MIN_DURATION_MINUTES || duration > MAX_RUNTIME_MINUTES then Some(BAD_DURATION)
    else if zoneId !in zones then Some(ZONE_NOT_FOUND)
    else None
  }

  /** A start that passes the checks leaves the running count within the limit read for it. */
  lemma AdmittedStartStaysWithinLimit(running: JsMap<int, RunningZone>, zoneId: int, duration: int,
                                      maxSetting: Option<int>, zones: map<int, string>, entry: RunningZone)
    requires running.Valid()
    requires StartCheck(running, zoneId, duration, maxSetting, zones).None?
    ensures running.Set(zoneId, entry).Size() == running.Size() + 1
    ensures running.Set(zoneId, entry).Size() <= ConcurrencyLimit(maxSetting)
  {
    SetSize(running, zoneId, entry);
  }

  /** A message that matches a client-error pattern but not 'not found' is answered with 400. */
  lemma ClientErrorWhenMatched(msg: string)
    requires !Contains(msg, "not found") && IsBadRequestMessage(msg)
    ensures HandleError(PlainError(msg)).status == HTTP_BAD_REQUEST
  {
  }

  /** A message that matches no pattern of the error middleware, and carries no status, is answered with 500. */
  lemma ServerErrorWhenUnmatched(msg: string)
    requires !Contains(msg, "not found") && !IsBadRequestMessage(msg)
    ensures HandleError(PlainError(msg)).status == HTTP_INTERNAL_SERVER_ERROR
  {
  }

  lemma AlreadyRunningSaysSo()
    ensures !Contains(ALREADY_RUNNING, "not found") && Contains(ALREADY_RUNNING, "already running")
  {
    AbsentChar(ALREADY_RUNNING, "not found", 'f');
    ContainsMiddle("Zone is ", "already running", "");
    assert ALREADY_RUNNING == "Zone is " + "already running" + "";
  }

  /** 'Zone is already running' is a client error. */
  lemma AlreadyRunningIsBadRequest()
    ensures HandleError(PlainError(ALREADY_RUNNING)).status == HTTP_BAD_REQUEST
  {
    AlreadyRunningSaysSo();
    ClientErrorWhenMatched(ALREADY_RUNNING);
  }

  lemma MaximumSaysSo(limit: int)
    ensures !Contains(MaximumMessage(limit), "not found") && Contains(MaximumMessage(limit), "Maximum")
  {
    var tail := " " + IntToString(limit) + " zones can run concurrently";
    IntToStringChars(limit);
    AbsentChar(MaximumMessage(limit), "not found", 'f');
    ContainsMiddle("", "Maximum", tail);
    assert MaximumMessage(limit) == "" + "Maximum" + tail;
  }

  /** The concurrency refusal is a client error, whatever the limit. */
  lemma MaximumIsBadRequest(limit: int)
    ensures HandleError(PlainError(MaximumMessage(limit))).status == HTTP_BAD_REQUEST
  {
    MaximumSaysSo(limit);
    ClientErrorWhenMatched(MaximumMessage(limit));
  }

  lemma BadDurationLacksNotFound()
    ensures !Contains(BAD_DURATION, "not found")
  {
    AbsentChar(BAD_DURATION, "not found", 'f');
  }

  lemma BadDurationSaysMustBe()
    ensures Contains(BAD_DURATION, "must be")
  {
    ContainsMiddle("Duration ", "must be", " between 1 and 60 minutes");
    assert BAD_DURATION == "Duration " + "must be" + " between 1 and 60 minutes";
  }

  /** The duration refusal is a client error. */
  lemma BadDurationIsBadRequest()
    ensures HandleError(PlainError(BAD_DURATION)).status == HTTP_BAD_REQUEST
  {
    BadDurationLacksNotFound();
    BadDurationSaysMustBe();
    ClientErrorWhenMatched(BAD_DURATION);
  }

  /** 'Zone not found' is answered with 404. */
  lemma ZoneNotFoundIsNotFound()
    ensures HandleError(PlainError(ZONE_NOT_FOUND)).status == HTTP_NOT_FOUND
  {
    ContainsMiddle("Zone ", "not found", "");
    assert ZONE_NOT_FOUND == "Zone " + "not found" + "";
  }

  /** The error middleware answers every refused start with 400, except a missing zone row with 404. */
  lemma StartErrorsClassified(running: JsMap<int, RunningZone>, zoneId: int, duration: int,
                              maxSetting: Option<int>, zones: map<int, string>)
    ensures var failure := StartCheck(running, zoneId, duration, maxSetting, zones);
      failure.Some? ==>
        HandleError(PlainError(failure.value)).status
          == (if failure.value == ZONE_NOT_FOUND then HTTP_NOT_FOUND else HTTP_BAD_REQUEST)
  {
    var failure := StartCheck(running, zoneId, duration, maxSetting, zones);
    if failure == Some(ALREADY_RUNNING) {
      AlreadyRunningIsBadRequest();
    } else if failure == Some(BAD_DURATION) {
      BadDurationIsBadRequest();
    } else if failure == Some(ZONE_NOT_FOUND) {
      ZoneNotFoundIsNotFound();
    } else if failure.Some? {
      MaximumIsBadRequest(ConcurrencyLimit(maxSetting));
      assert failure.value != ZONE_NOT_FOUND by {
        assert failure.value[0] == 'M';
      }
    }
  }

  /** `IntToString` writes only digits and a minus sign. */
  lemma IntToStringChars(i: int)
    ensures forall k | 0 <= k < |IntToString(i)| :: IntToString(i)[k] == '-' || '0' <= IntToString(i)[k] <= '9'
  {
  }

  /** The GPIO error holds neither 'u' nor 'v': its fixed text lacks them, and the zone id is digits. */
  lemma NotInitializedLacks(zoneId: int)
    ensures 'u' !in NotInitializedMessage(zoneId) && 'v' !in NotInitializedMessage(zoneId)
  {
    var digits := IntToString(zoneId);
    IntToStringChars(zoneId);
    assert 'u' !in digits && 'v' !in digits;
    var head, tail := "GPIO pin for zone ", " not initialized";
    assert 'u' !in head && 'v' !in head;
    assert 'u' !in tail && 'v' !in tail;
    AbsentFromPieces(head, digits, tail, 'u');
    AbsentFromPieces(head, digits, tail, 'v');
  }

  lemma AbsentFromPieces(a: string, b: string, c: string, ch: char)
    requires ch !in a && ch !in b && ch !in c
    ensures ch !in a + b + c
  {
  }

  /** A text without 'u' and 'v' matches none of the error middleware's patterns. */
  lemma UnmatchedWithout(msg: string)
    requires 'u' !in msg && 'v' !in msg
    ensures !Contains(msg, "not found") && !IsBadRequestMessage(msg)
  {
    AbsentChar(msg, "not found", 'u');
    AbsentChar(msg, "already running", 'u');
    AbsentChar(msg, "not running", 'u');
    AbsentChar(msg, "Maximum", 'u');
    AbsentChar(msg, "Invalid", 'v');
    AbsentChar(msg, "must be", 'u');
  }

  lemma ServerErrorWithout(msg: string)
    requires 'u' !in msg && 'v' !in msg
    ensures HandleError(PlainError(msg)).status == HTTP_INTERNAL_SERVER_ERROR
  {
    UnmatchedWithout(msg);
    ServerErrorWhenUnmatched(msg);
  }

  /** "GPIO pin for zone N not initialized" matches none of the client-error patterns, so it is a 500. */
  lemma NotInitializedIsServerError(zoneId: int)
    ensures HandleError(PlainError(NotInitializedMessage(zoneId))).status == HTTP_INTERNAL_SERVER_ERROR
  {
    NotInitializedLacks(zoneId);
    ServerErrorWithout(NotInitializedMessage(zoneId));
  }

  /** 'Zone is not running' is a client error. */
  lemma NotRunningIsBadRequest()
    ensures HandleError(PlainError(NOT_RUNNING)).status == HTTP_BAD_REQUEST
  {
    AbsentChar(NOT_RUNNING, "not found", 'f');
    ContainsMiddle("Zone is ", "not running", "");
    assert NOT_RUNNING == "Zone is " + "not running" + "";
  }

  /** `Math.max(0, duration - elapsed)`. */
  function Remaining(entry: RunningZone, now: int): (minutes: int)
    ensures minutes >= 0
    ensures minutes >= entry.duration - Helpers.CalculateMinutesBetween(entry.startTime, now)
    ensures minutes == 0 || minutes == entry.duration - Helpers.CalculateMinutesBetween(entry.startTime, now)
  {
    var elapsed := Helpers.CalculateMinutesBetween(entry.startTime, now);
    if entry.duration - elapsed > 0 then entry.duration - elapsed else 0
  }

  /** The remaining time never exceeds the duration once the run has begun, and is the full duration at its start. */
  lemma RemainingBounds(entry: RunningZone, now: int)
    requires entry.duration >= 0
    ensures now >= entry.startTime ==> Remaining(entry, now) <= entry.duration
    ensures Remaining(entry, entry.startTime) == entry.duration
    ensures now >= entry.startTime + Minutes(entry.duration) ==> Remaining(entry, now) == 0
  {
  }

  /** The handles of the auto-stop timers of the zones in `zs`. */
  ghost function Handles(entries: map<int, RunningZone>, zs: set<int>): set<nat> {
    set z | z in zs && z in entries :: entries[z].timeout
  }

  /** Every handle in use is below the next one to be handed out. */
  ghost predicate HandlesBelow(entries: map<int, RunningZone>, timers: map<nat, AutoStop>, next: nat) {
    (forall h | h in timers :: h < next) && (forall z | z in entries :: entries[z].timeout < next)
  }

  /** Each run has its own timer handle. */
  ghost predicate DistinctTimeouts(entries: map<int, RunningZone>) {
    forall z1, z2 | z1 in entries && z2 in entries && z1 != z2 :: entries[z1].timeout != entries[z2].timeout
  }

  /** Every run's auto-stop timer is pending, for that zone, due `duration` minutes after its start. */
  ghost predicate ArmedOn(entries: map<int, RunningZone>, timers: map<nat, AutoStop>) {
    forall z | z in entries ::
      entries[z].timeout in timers
      && timers[entries[z].timeout] == AutoStop(z, entries[z].startTime + Minutes(entries[z].duration))
  }

  /** A zone has a run exactly when its relay reads ON. */
  ghost predicate AgreeOn(entries: map<int, RunningZone>, levels: map<int, int>) {
    forall z :: z in entries <==> (z in levels && levels[z] == RELAY_ON)
  }

  /** Recording a run under a fresh handle keeps the handle bookkeeping. */
  lemma FreshHandle(entries: map<int, RunningZone>, timers: map<nat, AutoStop>, next: nat, z: int, e: RunningZone)
    requires HandlesBelow(entries, timers, next) && DistinctTimeouts(entries)
    requires e.timeout == next
    ensures HandlesBelow(entries[z := e], timers[next := AutoStop(z, e.startTime + Minutes(e.duration))], next + 1)
    ensures DistinctTimeouts(entries[z := e])
  {
  }

  /** Arming the new run's timer under a fresh handle keeps every run armed. */
  lemma ArmedAfterStart(entries: map<int, RunningZone>, timers: map<nat, AutoStop>, next: nat, z: int, e: RunningZone)
    requires HandlesBelow(entries, timers, next)
    requires e.timeout == next
    ensures ArmedOn(entries, timers) ==>
      ArmedOn(entries[z := e], timers[next := AutoStop(z, e.startTime + Minutes(e.duration))])
  {
  }

  /** Forgetting a run together with its timer keeps the others armed. */
  lemma ArmedAfterStop(entries: map<int, RunningZone>, timers: map<nat, AutoStop>, z: int)
    requires z in entries && DistinctTimeouts(entries)
    ensures ArmedOn(entries, timers) ==> ArmedOn(entries - {z}, timers - {entries[z].timeout})
  {
  }

  lemma AgreeAfterStart(entries: map<int, RunningZone>, levels: map<int, int>, z: int, e: RunningZone)
    ensures AgreeOn(entries, levels) ==> AgreeOn(entries[z := e], levels[z := RELAY_ON])
  {
  }

  lemma AgreeAfterStop(entries: map<int, RunningZone>, levels: map<int, int>, z: int)
    ensures AgreeOn(entries, levels) ==> AgreeOn(entries - {z}, levels[z := RELAY_OFF])
  {
  }

  /** The relay levels after the zones in `gone` were switched off. */
  ghost function OffFor(levels: map<int, int>, gone: set<int>): map<int, int> {
    map z | z in levels :: if z in gone then RELAY_OFF else levels[z]
  }

  /** One more successful relay stop during a stop-all, as it shows in every part of the state. */
  lemma StopAllStep<Q>(snapshot: seq<int>, queued: JsMap<int, Q>, entries: map<int, RunningZone>,
                       timers: map<nat, AutoStop>, levels: map<int, int>, gone: set<int>, z: int)
    requires z in entries
    ensures Remove(Without(snapshot, gone), z) == Without(snapshot, gone + {z})
    ensures Remove(Without(queued.keys, gone), z) == Without(queued.keys, gone + {z})
    ensures (entries - gone) - {z} == entries - (gone + {z})
    ensures (queued.entries - gone) - {z} == queued.entries - (gone + {z})
    ensures (timers - Handles(entries, gone)) - {entries[z].timeout} == timers - Handles(entries, gone + {z})
    ensures z in levels ==> OffFor(levels, gone)[z := RELAY_OFF] == OffFor(levels, gone + {z})
  {
    RemoveWithout(snapshot, gone, z);
    RemoveWithout(queued.keys, gone, z);
    assert Handles(entries, gone + {z}) == Handles(entries, gone) + {entries[z].timeout};
  }

  /**
   * A timer that fires for zone `z` is spent: with every run armed, the other
   * runs keep their timers, and so does `z` unless it is running.
   */
  lemma ArmedAfterFire(entries: map<int, RunningZone>, timers: map<nat, AutoStop>, handle: nat)
    requires handle in timers && DistinctTimeouts(entries)
    ensures var z := timers[handle].zoneId;
      ArmedOn(entries, timers) && z !in entries ==> ArmedOn(entries, timers - {handle})
    ensures var z := timers[handle].zoneId;
      ArmedOn(entries, timers) && z in entries ==>
        ArmedOn(entries - {z}, (timers - {handle}) - {entries[z].timeout})
  {
  }

  /** Forgetting several runs together with their timers keeps the others armed. */
  lemma ArmedAfterStopAll(entries: map<int, RunningZone>, timers: map<nat, AutoStop>, gone: set<int>)
    requires DistinctTimeouts(entries)
    ensures ArmedOn(entries, timers) ==> ArmedOn(entries - gone, timers - Handles(entries, gone))
  {
    if ArmedOn(entries, timers) {
      forall z | z in entries - gone
        ensures entries[z].timeout !in Handles(entries, gone)
      {
      }
    }
  }

  /** Switching off the relays of the forgotten runs keeps the relays in step. */
  lemma AgreeAfterStopAll(entries: map<int, RunningZone>, levels: map<int, int>, gone: set<int>)
    ensures AgreeOn(entries, levels) ==> AgreeOn(entries - gone, OffFor(levels, gone))
  {
  }

  /** With the relays in step, every running zone has a pin, so a stop-all forgets them all. */
  lemma RelaysAgreeCoversRunning(entries: map<int, RunningZone>, levels: map<int, int>)
    ensures AgreeOn(entries, levels) ==> entries - (set z | z in entries && z in levels) == map[]
  {
    if AgreeOn(entries, levels) {
      var gone := set z | z in entries && z in levels;
      assert forall z | z in entries :: z in gone;
      assert (entries - gone).Keys == {};
    }
  }

  /** Before a stop-all has stopped anything, every part of the state is as it was. */
  lemma StopAllStart<Q>(snapshot: seq<int>, queued: JsMap<int, Q>, entries: map<int, RunningZone>,
                        timers: map<nat, AutoStop>, levels: map<int, int>)
    ensures Without(snapshot, {}) == snapshot && Without(queued.keys, {}) == queued.keys
    ensures entries - {} == entries && queued.entries - {} == queued.entries
    ensures timers - Handles(entries, {}) == timers
    ensures OffFor(levels, {}) == levels
  {
    WithoutNothing(snapshot);
    WithoutNothing(queued.keys);
  }

  class ZoneManager {
    var runningZones: JsMap<int, RunningZone>
    var queuedZones: JsMap<int, QueueEntry>
    /** Pending auto-stop timers by handle. */
    var timers: map<nat, AutoStop>
    /** The handle the next armed timer gets. */
    var nextHandle: nat
    const gpio: GpioController

    ghost predicate Valid()
      reads this, gpio, gpio.Repr
    {
      gpio.Valid() && this !in gpio.Repr
      && runningZones.Valid() && queuedZones.Valid()
      && HandlesBelow(runningZones.entries, timers, nextHandle)
      && DistinctTimeouts(runningZones.entries)
    }

    /** Every running zone's auto-stop timer is pending. */
    ghost predicate Armed()
      reads this`runningZones, this`timers
    {
      ArmedOn(runningZones.entries, timers)
    }

    /** A zone is in `runningZones` exactly when its relay is on. */
    ghost predicate RelaysAgree()
      requires gpio.Valid()
      reads this`runningZones, gpio, gpio.Repr
    {
      AgreeOn(runningZones.entries, gpio.Levels())
    }

    /** The zone manager at module load, over a GPIO controller. */
    constructor(g: GpioController)
      requires g.Valid()
      ensures Valid() && gpio == g
      ensures runningZones == Empty() && queuedZones == Empty() && timers == map[] && nextHandle == 0
    {
      gpio := g;
      runningZones := Empty();
      queuedZones := Empty();
      timers := map[];
      nextHandle := 0;
    }

    /** `isZoneRunning`. */
    predicate IsZoneRunning(zoneId: int)
      reads this
    {
      runningZones.Has(zoneId)
    }

    /** With the relays in step, a running zone's relay is on (and only then). */
    lemma RunningMeansRelayOn(zoneId: int)
      requires Valid() && RelaysAgree()
      ensures IsZoneRunning(zoneId) <==> gpio.GetZoneState(zoneId)
    {
    }

    /** `getRunningZoneCount`. */
    function GetRunningZoneCount(): (count: nat)
      requires Valid()
      reads this, gpio, gpio.Repr
      ensures count == |runningZones.entries|
    {
      SizeIsEntryCount(runningZones);
      runningZones.Size()
    }

    /** `getZoneState` at time `now`. */
    function GetZoneState(zoneId: int, now: int): (s: ZoneState)
      reads this
      ensures !runningZones.Has(zoneId) ==> s == ZoneState(false, 0, None, None)
      ensures runningZones.Has(zoneId) ==>
        var e := runningZones.entries[zoneId];
        s.isRunning && s.remainingTime == Remaining(e, now)
        && s.startTime == Some(e.startTime) && s.duration == Some(e.duration)
    {
      if !runningZones.Has(zoneId) then ZoneState(false, 0, None, None)
      else
        var e := runningZones.entries[zoneId];
        ZoneState(true, Remaining(e, now), Some(e.startTime), Some(e.duration))
    }

    /** `getRunningZones` at time `now`: one view per running zone, in insertion order. */
    method GetRunningZones(now: int) returns (views: seq<RunningZoneView>)
      requires Valid()
      ensures |views| == runningZones.Size()
      ensures forall i | 0 <= i < |views| ::
        var z := runningZones.keys[i];
        var e := runningZones.entries[z];
        views[i] == RunningZoneView(z, e.startTime, e.duration,
          Helpers.CalculateMinutesBetween(e.startTime, now), Remaining(e, now), e.trigger)
      ensures forall i | 0 <= i < |views| ::
        GetZoneState(views[i].zoneId, now).isRunning
        && GetZoneState(views[i].zoneId, now).remainingTime == views[i].remainingMinutes
    {
      views := [];
      var i := 0;
      while i < |runningZones.keys|
        invariant 0 <= i <= |runningZones.keys|
        invariant |views| == i
        invariant forall k | 0 <= k < i ::
          var z := runningZones.keys[k];
          var e := runningZones.entries[z];
          views[k] == RunningZoneView(z, e.startTime, e.duration,
            Helpers.CalculateMinutesBetween(e.startTime, now), Remaining(e, now), e.trigger)
      {
        var zoneId := runningZones.keys[i];
        assert zoneId in runningZones.entries;
        var data := runningZones.entries[zoneId];
        var elapsed := Helpers.CalculateMinutesBetween(data.startTime, now);
        var remaining := if data.duration - elapsed > 0 then data.duration - elapsed else 0;
        views := views + [RunningZoneView(zoneId, data.startTime, data.duration, elapsed, remaining, data.trigger)];
        i := i + 1;
      }
    }

    /** `queueZone`. */
    method QueueZone(zoneId: int, entry: QueueEntry)
      requires Valid()
      modifies this
      ensures Valid()
      ensures queuedZones == old(queuedZones).Set(zoneId, entry)
      ensures runningZones == old(runningZones) && timers == old(timers) && nextHandle == old(nextHandle)
    {
      queuedZones := queuedZones.Set(zoneId, entry);
    }

    /** `dequeueZone`. */
    method DequeueZone(zoneId: int)
      requires Valid()
      modifies this
      ensures Valid()
      ensures queuedZones == old(queuedZones).Delete(zoneId)
      ensures runningZones == old(runningZones) && timers == old(timers) && nextHandle == old(nextHandle)
    {
      queuedZones := queuedZones.Delete(zoneId);
    }

    /** `isZoneQueued`. */
    predicate IsZoneQueued(zoneId: int)
      reads this
    {
      queuedZones.Has(zoneId)
    }

    /** `getQueuedZone`: the entry, or null. */
    function GetQueuedZone(zoneId: int): (r: Option<QueueEntry>)
      reads this
      ensures r.Some? <==> IsZoneQueued(zoneId)
      ensures r.Some? ==> r.value == queuedZones.entries[zoneId]
    {
      if zoneId in queuedZones.entries then Some(queuedZones.entries[zoneId]) else None
    }

    /** `getAllQueuedZones`: one view per queued zone, in insertion order. */
    method GetAllQueuedZones() returns (views: seq<QueuedZoneView>)
      requires Valid()
      ensures |views| == queuedZones.Size()
      ensures forall i | 0 <= i < |views| ::
        views[i].zoneId == queuedZones.keys[i] && GetQueuedZone(views[i].zoneId) == Some(views[i].entry)
    {
      views := [];
      var i := 0;
      while i < |queuedZones.keys|
        invariant 0 <= i <= |queuedZones.keys|
        invariant |views| == i
        invariant forall k | 0 <= k < i ::
          views[k] == QueuedZoneView(queuedZones.keys[k], queuedZones.entries[queuedZones.keys[k]])
      {
        var zoneId := queuedZones.keys[i];
        assert zoneId in queuedZones.entries;
        views := views + [QueuedZoneView(zoneId, queuedZones.entries[zoneId])];
        i := i + 1;
      }
    }

    /**
     * `startZoneManaged`: runs the checks, drives the relay on, arms the
     * auto-stop timer and records the run. `zones` maps each existing zone id to
     * its name, `maxSetting` is the settings row's ceiling (None without a row)
     * and `historyId` the id of the history row the start inserts.
     */
    method StartZoneManaged(zoneId: int, duration: int, trigger: string, scheduleId: Option<int>,
                            maxSetting: Option<int>, zones: map<int, string>, historyId: int, now: int)
      returns (r: Result<StartInfo, string>)
      requires Valid()
      modifies this, gpio.Repr
      ensures Valid() && gpio.Repr == old(gpio.Repr) && gpio.gpioPins == old(gpio.gpioPins)
      ensures queuedZones == old(queuedZones)
      ensures var failure := StartCheck(old(runningZones), zoneId, duration, maxSetting, zones);
        failure.Some? ==>
          r == Err(failure.value)
          && runningZones == old(runningZones) && timers == old(timers) && nextHandle == old(nextHandle)
          && gpio.Levels() == old(gpio.Levels())
      // a hardware failure adds nothing
      ensures (StartCheck(old(runningZones), zoneId, duration, maxSetting, zones).None?
               && zoneId !in gpio.gpioPins) ==>
          r == Err(NotInitializedMessage(zoneId))
          && runningZones == old(runningZones) && timers == old(timers) && nextHandle == old(nextHandle)
          && gpio.Levels() == old(gpio.Levels())
      ensures (StartCheck(old(runningZones), zoneId, duration, maxSetting, zones).None?
               && zoneId in gpio.gpioPins) ==>
          r == Ok(StartInfo(zoneId, zones[zoneId], duration, now, now + Minutes(duration)))
          && runningZones == old(runningZones).Set(zoneId,
               RunningZone(now, duration, old(nextHandle), historyId, trigger, scheduleId))
          && timers == old(timers)[old(nextHandle) := AutoStop(zoneId, now + Minutes(duration))]
          && nextHandle == old(nextHandle) + 1
          && gpio.Levels() == old(gpio.Levels())[zoneId := RELAY_ON]
      // a zone is never started twice, and a start never takes the count past the limit read for it
      ensures r.Ok? ==> !old(runningZones).Has(zoneId) && runningZones.Has(zoneId)
      ensures r.Ok? ==> (runningZones.Size() == old(runningZones).Size() + 1
                         && runningZones.Size() <= ConcurrencyLimit(maxSetting))
      ensures old(Armed()) ==> Armed()
      ensures old(RelaysAgree()) ==> RelaysAgree()
    {
      var failure := StartCheck(runningZones, zoneId, duration, maxSetting, zones);
      if failure.Some? {
        return Err(failure.value);
      }
      ghost var oldLevels := gpio.Levels();
      var started := gpio.StartZone(zoneId);
      if started.Err? {
        return Err(started.error);
      }
      var entry := RunningZone(now, duration, nextHandle, historyId, trigger, scheduleId);
      AgreeAfterStart(runningZones.entries, oldLevels, zoneId, entry);
      AdmittedStartStaysWithinLimit(runningZones, zoneId, duration, maxSetting, zones, entry);
      RecordStart(zoneId, entry);
      r := Ok(StartInfo(zoneId, zones[zoneId], duration, now, now + Minutes(duration)));
    }

    /** The bookkeeping of a start whose relay is on: the run under a fresh handle, and its auto-stop timer. */
    method RecordStart(zoneId: int, entry: RunningZone)
      requires Valid() && entry.timeout == nextHandle
      modifies this
      ensures Valid()
      ensures runningZones == old(runningZones).Set(zoneId, entry) && queuedZones == old(queuedZones)
      ensures timers == old(timers)[entry.timeout := AutoStop(zoneId, entry.startTime + Minutes(entry.duration))]
      ensures nextHandle == old(nextHandle) + 1
      ensures old(Armed()) ==> Armed()
    {
      FreshHandle(runningZones.entries, timers, nextHandle, zoneId, entry);
      ArmedAfterStart(runningZones.entries, timers, nextHandle, zoneId, entry);
      timers, nextHandle, runningZones :=
        timers[nextHandle := AutoStop(zoneId, entry.startTime + Minutes(entry.duration))], nextHandle + 1,
        runningZones.Set(zoneId, entry);
    }

    /**
     * `stopZoneManaged` at time `now`: drives the relay off, clears the
     * auto-stop timer and forgets the zone in both maps. `zones` maps each
     * existing zone id to its name, which the stop reads after the fact.
     */
    method StopZoneManaged(zoneId: int, now: int, zones: map<int, string>) returns (r: Result<StopInfo, string>)
      requires Valid()
      modifies this, gpio.Repr
      ensures Valid() && gpio.Repr == old(gpio.Repr) && gpio.gpioPins == old(gpio.gpioPins)
      ensures nextHandle == old(nextHandle)
      ensures !old(runningZones).Has(zoneId) ==>
        r == Err(NOT_RUNNING)
        && runningZones == old(runningZones) && queuedZones == old(queuedZones) && timers == old(timers)
        && gpio.Levels() == old(gpio.Levels())
      // a hardware failure leaves the entry (and its timer) in place
      ensures (old(runningZones).Has(zoneId) && zoneId !in gpio.gpioPins) ==>
        r == Err(NotInitializedMessage(zoneId))
        && runningZones == old(runningZones) && queuedZones == old(queuedZones) && timers == old(timers)
        && gpio.Levels() == old(gpio.Levels())
      ensures (old(runningZones).Has(zoneId) && zoneId in gpio.gpioPins) ==>
        var e := old(runningZones).entries[zoneId];
        runningZones == old(runningZones).Delete(zoneId)
        && queuedZones == old(queuedZones).Delete(zoneId)
        && timers == old(timers) - {e.timeout}
        && gpio.Levels() == old(gpio.Levels())[zoneId := RELAY_OFF]
        && r == (if zoneId in zones
                 then Ok(StopInfo(zoneId, zones[zoneId], Helpers.CalculateMinutesBetween(e.startTime, now)))
                 else Err(ZONE_ROW_MISSING))
      ensures old(Armed()) ==> Armed()
      ensures old(RelaysAgree()) ==> RelaysAgree()
      // with the relays in step, stopping a running zone never meets a missing pin
      ensures old(RelaysAgree()) && old(runningZones).Has(zoneId) ==> r.Ok? || r == Err(ZONE_ROW_MISSING)
    {
      if !runningZones.Has(zoneId) {
        return Err(NOT_RUNNING);
      }
      var data := runningZones.entries[zoneId];
      var actualDuration := Helpers.CalculateMinutesBetween(data.startTime, now);
      ghost var oldLevels := gpio.Levels();
      var stopped := gpio.StopZone(zoneId);
      if stopped.Err? {
        return Err(stopped.error);
      }
      AgreeAfterStop(runningZones.entries, oldLevels, zoneId);
      RecordStop(zoneId);
      if zoneId !in zones {
        return Err(ZONE_ROW_MISSING);
      }
      r := Ok(StopInfo(zoneId, zones[zoneId], actualDuration));
    }

    /** The bookkeeping of a stop whose relay is off: the run, its timer and its queue entry are forgotten. */
    method RecordStop(zoneId: int)
      requires Valid() && runningZones.Has(zoneId)
      modifies this
      ensures Valid() && nextHandle == old(nextHandle)
      ensures runningZones == old(runningZones).Delete(zoneId) && queuedZones == old(queuedZones).Delete(zoneId)
      ensures timers == old(timers) - {old(runningZones).entries[zoneId].timeout}
      ensures old(Armed()) ==> Armed()
    {
      ArmedAfterStop(runningZones.entries, timers, zoneId);
      timers, runningZones, queuedZones :=
        timers - {runningZones.entries[zoneId].timeout}, runningZones.Delete(zoneId), queuedZones.Delete(zoneId);
    }

    /**
     * `stopAllZonesManaged` at time `now`: stops each zone of a snapshot of the
     * running keys, ignoring the stops that fail, and reports the ones that succeeded.
     */
    method StopAllZonesManaged(now: int, zones: map<int, string>) returns (stopped: seq<int>, count: nat)
      requires Valid()
      modifies this, gpio.Repr
      ensures Valid() && gpio.Repr == old(gpio.Repr) && gpio.gpioPins == old(gpio.gpioPins)
      ensures nextHandle == old(nextHandle)
      // the zones whose relay could be switched off are forgotten; the others stay
      ensures var gone := set z | z in old(runningZones.entries) && z in gpio.gpioPins;
        runningZones.keys == Without(old(runningZones.keys), gone)
        && runningZones.entries == old(runningZones.entries) - gone
        && queuedZones.keys == Without(old(queuedZones.keys), gone)
        && queuedZones.entries == old(queuedZones.entries) - gone
        && timers == old(timers) - Handles(old(runningZones.entries), gone)
        && gpio.Levels() == OffFor(old(gpio.Levels()), gone)
      // the report lists, in snapshot order, the zones whose stop returned normally
      ensures stopped == Only(old(runningZones.keys), gpio.gpioPins.Keys * zones.Keys)
      ensures count == |stopped|
      ensures old(Armed()) ==> Armed()
      ensures old(RelaysAgree()) ==> RelaysAgree() && runningZones.entries == map[]
    {
      var snapshot := runningZones.keys;
      ghost var oldEntries := runningZones.entries;
      ghost var oldQueued := queuedZones;
      ghost var oldTimers := timers;
      ghost var oldLevels := gpio.Levels();
      StopAllStart(snapshot, oldQueued, oldEntries, oldTimers, oldLevels);
      stopped := StopEachOf(snapshot, now, zones, oldEntries, oldQueued, oldTimers, oldLevels);
      var i := |snapshot|;
      ghost var gone := MembersUpTo(snapshot, i, gpio.gpioPins.Keys);
      assert gone == set z | z in oldEntries && z in gpio.gpioPins by {
        assert snapshot[..i] == snapshot;
        MembersUpToIsSet(snapshot, i, gpio.gpioPins.Keys);
      }
      assert old(Armed()) ==> Armed() by {
        ArmedAfterStopAll(oldEntries, oldTimers, gone);
      }
      assert old(RelaysAgree()) ==> RelaysAgree() && runningZones.entries == map[] by {
        AgreeAfterStopAll(oldEntries, oldLevels, gone);
        RelaysAgreeCoversRunning(oldEntries, oldLevels);
      }
      count := |stopped|;
    }

    /** The loop of `stopAllZonesManaged` over the snapshot of running zones. */
    method StopEachOf(snapshot: seq<int>, now: int, zones: map<int, string>,
                      ghost oldEntries: map<int, RunningZone>, ghost oldQueued: JsMap<int, QueueEntry>,
                      ghost oldTimers: map<nat, AutoStop>, ghost oldLevels: map<int, int>)
      returns (stopped: seq<int>)
      requires Valid()
      requires Distinct(snapshot) && oldEntries.Keys == set k | k in snapshot
      requires StopAllProgress(snapshot, 0, oldEntries, oldQueued, oldTimers, oldLevels)
      modifies this, gpio.Repr
      ensures Valid() && gpio.Repr == old(gpio.Repr) && gpio.gpioPins == old(gpio.gpioPins)
      ensures nextHandle == old(nextHandle)
      ensures StopAllProgress(snapshot, |snapshot|, oldEntries, oldQueued, oldTimers, oldLevels)
      ensures stopped == Only(snapshot, gpio.gpioPins.Keys * zones.Keys)
    {
      stopped := [];
      var i := 0;
      while i < |snapshot|
        invariant 0 <= i <= |snapshot|
        invariant Valid() && gpio.Repr == old(gpio.Repr) && gpio.gpioPins == old(gpio.gpioPins)
        invariant nextHandle == old(nextHandle)
        invariant StopAllProgress(snapshot, i, oldEntries, oldQueued, oldTimers, oldLevels)
        invariant stopped == OnlyUpTo(snapshot, i, gpio.gpioPins.Keys * zones.Keys)
      {
        var r := StopAllRound(snapshot, i, now, zones, oldEntries, oldQueued, oldTimers, oldLevels);
        if r.Ok? {
          stopped := stopped + [snapshot[i]];
        }
        i := i + 1;
      }
    }

    /**
     * How far a stop-all has got after the first `n` zones of its snapshot:
     * the ones among them with a pin are forgotten and their relays are off.
     */
    ghost predicate StopAllProgress(snapshot: seq<int>, n: nat, oldEntries: map<int, RunningZone>,
                                    oldQueued: JsMap<int, QueueEntry>, oldTimers: map<nat, AutoStop>,
                                    oldLevels: map<int, int>)
      requires Valid() && n <= |snapshot|
      reads this, gpio, gpio.Repr
    {
      var gone := MembersUpTo(snapshot, n, gpio.gpioPins.Keys);
      runningZones.keys == Without(snapshot, gone) && runningZones.entries == oldEntries - gone
      && queuedZones.keys == Without(oldQueued.keys, gone) && queuedZones.entries == oldQueued.entries - gone
      && timers == oldTimers - Handles(oldEntries, gone)
      && gpio.Levels() == OffFor(oldLevels, gone)
    }

    /** One round of the stop-all loop: the stop of `snapshot[i]`. */
    method StopAllRound(snapshot: seq<int>, i: nat, now: int, zones: map<int, string>,
                        ghost oldEntries: map<int, RunningZone>, ghost oldQueued: JsMap<int, QueueEntry>,
                        ghost oldTimers: map<nat, AutoStop>, ghost oldLevels: map<int, int>)
      returns (r: Result<StopInfo, string>)
      requires Valid() && i < |snapshot|
      requires Distinct(snapshot) && oldEntries.Keys == set k | k in snapshot
      requires StopAllProgress(snapshot, i, oldEntries, oldQueued, oldTimers, oldLevels)
      modifies this, gpio.Repr
      ensures Valid() && gpio.Repr == old(gpio.Repr) && gpio.gpioPins == old(gpio.gpioPins)
      ensures nextHandle == old(nextHandle)
      ensures StopAllProgress(snapshot, i + 1, oldEntries, oldQueued, oldTimers, oldLevels)
      ensures r.Ok? <==> snapshot[i] in gpio.gpioPins.Keys * zones.Keys
    {
      var zoneId := snapshot[i];
      ghost var pins := gpio.gpioPins.Keys;
      ghost var gone := MembersUpTo(snapshot, i, pins);
      assert zoneId !in gone by {
        MembersUpToIsSet(snapshot, i, pins);
        assert zoneId !in snapshot[..i] by {
          assert forall k | 0 <= k < i :: snapshot[k] != zoneId;
        }
      }
      StopAllStep(snapshot, oldQueued, oldEntries, oldTimers, oldLevels, gone, zoneId);
      assert runningZones.Has(zoneId);
      ghost var entry := runningZones.entries[zoneId];
      ghost var before := (runningZones, queuedZones, timers, gpio.Levels());
      r := StopZoneManaged(zoneId, now, zones);
      ghost var gone' := MembersUpTo(snapshot, i + 1, pins);
      if zoneId in pins {
        assert gone' == gone + {zoneId};
        assert runningZones == before.0.Delete(zoneId);
        assert queuedZones == before.1.Delete(zoneId);
        assert timers == before.2 - {entry.timeout};
        assert gpio.Levels() == before.3[zoneId := RELAY_OFF];
      } else {
        assert gone' == gone;
        assert runningZones == before.0 && queuedZones == before.1;
        assert timers == before.2 && gpio.Levels() == before.3;
      }
    }

    /**
     * The auto-stop timer `handle` fires at time `now`: the timer is spent and
     * `stopZoneManaged` runs for the zone it was armed for.
     */
    method FireAutoStop(handle: nat, now: int, zones: map<int, string>) returns (r: Result<StopInfo, string>)
      requires Valid()
      requires handle in timers && timers[handle].dueAt <= now
      modifies this, gpio.Repr
      ensures Valid() && gpio.Repr == old(gpio.Repr) && gpio.gpioPins == old(gpio.gpioPins)
      ensures nextHandle == old(nextHandle)
      ensures var z := old(timers[handle].zoneId);
        !old(runningZones).Has(z) ==>
          r == Err(NOT_RUNNING)
          && runningZones == old(runningZones) && queuedZones == old(queuedZones)
          && timers == old(timers) - {handle} && gpio.Levels() == old(gpio.Levels())
      ensures var z := old(timers[handle].zoneId);
        (old(runningZones).Has(z) && z !in gpio.gpioPins) ==>
          r == Err(NotInitializedMessage(z))
          && runningZones == old(runningZones) && queuedZones == old(queuedZones)
          && timers == old(timers) - {handle} && gpio.Levels() == old(gpio.Levels())
      ensures var z := old(timers[handle].zoneId);
        (old(runningZones).Has(z) && z in gpio.gpioPins) ==>
          runningZones == old(runningZones).Delete(z) && queuedZones == old(queuedZones).Delete(z)
          && timers == (old(timers) - {handle}) - {old(runningZones.entries[z].timeout)}
          && gpio.Levels() == old(gpio.Levels())[z := RELAY_OFF]
          && (r.Ok? || r == Err(ZONE_ROW_MISSING))
      ensures handle !in timers
      ensures old(RelaysAgree()) ==> RelaysAgree()
      // a zone that keeps running after its own timer fired has lost its auto-stop
      ensures old(Armed()) && (old(timers[handle].zoneId) in gpio.gpioPins || !old(runningZones).Has(old(timers[handle].zoneId)))
        ==> Armed()
    {
      var zoneId := timers[handle].zoneId;
      ghost var levels := gpio.Levels();
      ArmedAfterFire(runningZones.entries, timers, handle);
      timers := timers - {handle};
      assert gpio.Levels() == levels;
      r := StopZoneManaged(zoneId, now, zones);
    }

    /** `initializeZoneManager`: forgets every running zone, and nothing else. */
    method InitializeZoneManager()
      requires Valid()
      modifies this
      ensures Valid()
      ensures runningZones == Empty()
      ensures queuedZones == old(queuedZones) && timers == old(timers) && nextHandle == old(nextHandle)
      ensures Armed()
    {
      runningZones := Empty();
    }
  }
}
