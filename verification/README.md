# SprinkSync irrigation core, modelled in Dafny

SprinkSync drives the valves of a home irrigation system from a Raspberry Pi:
each zone is a relay on a GPIO pin (active-low), a zone manager keeps the set of
zones currently watering and refuses starts that would exceed the concurrency
ceiling, a cron scheduler fires stored schedules (single zones or groups run
in sequence), and HTTP controllers read and write the schedules and the system
settings against catalogs of controller models, manufacturers and use-case
profiles. A web dashboard formats times, durations and day lists.

This project models that core:

- `zone_manager.dfy` — the zone manager service: starting, stopping and
  stopping all zones, the running-zone map, auto-stop timers and the
  concurrency ceiling read from the settings row.
- `gpio.dfy`, `mock_gpio.dfy` — the GPIO controller over relay pins and the
  mock pin used off the Pi.
- `scheduler.dfy` — the cron scheduler: cron expressions built from stored
  schedules, loading, adding, removing and executing jobs.
- `group_sequencer.dfy` — running a zone group member after member.
- `schedules_controller.dfy`, `settings_controller.dfy` — the schedule and
  settings HTTP handlers, as decisions over the rows they read.
- `validation.dfy`, `helpers.dfy`, `dashboard.dfy`, `clock.dfy` — request
  validation, backend helpers and the dashboard's formatting helpers.
- `catalog.dfy`, `controllers_catalog.dfy`, `rainbird_catalog.dfy`,
  `manufacturers.dfy`, `use_case_profiles.dfy`, `zone_configs.dfy` — the
  constant tables and their lookups.
- `constants.dfy`, `error_handler.dfy`, `js_values.dfy`, `jsmap.dfy`,
  `strings.dfy`, `collections.dfy`, `wrappers.dfy` — constants, the mapping of
  error messages to HTTP statuses, JavaScript values and maps, and shared
  helpers.

The database and the clock are parameters of the operations that use them.
Pins are the development mock pin, whose writes always succeed.

## Model

| member | source | states |
|---|---|---|
| ZoneManagerService.ConcurrencyLimit | backend/src/services/zone-manager.js:156-158 | the ceiling is the settings row's `max_concurrent_zones`, or `SAFETY.MAX_CONCURRENT_ZONES` (2) when there is no row |
| ZoneManagerService.StartCheck | backend/src/services/zone-manager.js:151-172 | the start is refused with the message of the first failing check, in the order already running, count at the ceiling, duration outside [1,60], zone missing; it passes exactly when none fails |
| ZoneManagerService.AdmittedStartStaysWithinLimit | backend/src/services/zone-manager.js:160-162 | after an admitted start the running map holds exactly one more entry and its size does not exceed the ceiling read for that start |
| ZoneManagerService.AlreadyRunningSaysSo | backend/src/services/zone-manager.js:152-154 | the "already running" refusal contains 'already running' and not 'not found' |
| ZoneManagerService.AlreadyRunningIsBadRequest | backend/src/middleware/error-handler.js:29-30 | the "already running" refusal is answered with 400 |
| ZoneManagerService.MaximumSaysSo | backend/src/services/zone-manager.js:160-162 | the concurrency refusal contains 'Maximum' and not 'not found', for every ceiling |
| ZoneManagerService.MaximumIsBadRequest | backend/src/middleware/error-handler.js:31-32 | the concurrency refusal is answered with 400, for every ceiling |
| ZoneManagerService.BadDurationLacksNotFound | backend/src/services/zone-manager.js:164-166 | the duration refusal does not contain 'not found' |
| ZoneManagerService.BadDurationSaysMustBe | backend/src/services/zone-manager.js:164-166 | the duration refusal contains 'must be' |
| ZoneManagerService.BadDurationIsBadRequest | backend/src/middleware/error-handler.js:33-34 | the duration refusal is answered with 400 |
| ZoneManagerService.ZoneNotFoundIsNotFound | backend/src/middleware/error-handler.js:27-28 | 'Zone not found' is answered with 404 |
| ZoneManagerService.StartErrorsClassified | backend/src/services/zone-manager.js:151-172 | every refusal of a start is answered with 404 when the zone is missing and with 400 otherwise |
| ZoneManagerService.ClientErrorWhenMatched | backend/src/middleware/error-handler.js:29-35 | a message with a client-error pattern and without 'not found' is answered with 400 |
| ZoneManagerService.ServerErrorWhenUnmatched | backend/src/middleware/error-handler.js:23-35 | a plain error whose message matches no pattern is answered with 500 |
| ZoneManagerService.NotInitializedLacks | backend/src/hardware/gpio.js:68-70 | the missing-pin message contains neither 'u' nor 'v', for every zone id |
| ZoneManagerService.UnmatchedWithout | backend/src/middleware/error-handler.js:27-35 | a text without 'u' and 'v' matches none of the handler's patterns |
| ZoneManagerService.ServerErrorWithout | backend/src/middleware/error-handler.js:23-35 | a plain error whose text lacks 'u' and 'v' is answered with 500 |
| ZoneManagerService.NotInitializedIsServerError | backend/src/middleware/error-handler.js:23 | a missing-pin failure from the relay layer is answered with 500 |
| ZoneManagerService.NotRunningIsBadRequest | backend/src/middleware/error-handler.js:29-30 | 'Zone is not running' is answered with 400 |
| ZoneManagerService.Remaining | backend/src/services/zone-manager.js:80-81 | the remaining minutes are `max(0, duration - elapsed)`: never negative, and either 0 or `duration - elapsed` |
| ZoneManagerService.RemainingBounds | backend/src/services/zone-manager.js:80-81 | the remaining time is the full duration at the start, at most the duration afterwards, and 0 once the duration has passed |
| ZoneManagerService.ArmedAfterStart | backend/src/services/zone-manager.js:189-202 | recording a run together with its new timer keeps every run's auto-stop timer pending |
| ZoneManagerService.ArmedAfterStop | backend/src/services/zone-manager.js:240-263 | forgetting a run together with its timer keeps the other runs' timers pending |
| ZoneManagerService.AgreeAfterStart | backend/src/services/zone-manager.js:186-202 | a recorded run whose relay was switched on keeps "running iff relay ON" |
| ZoneManagerService.AgreeAfterStop | backend/src/services/zone-manager.js:237-263 | a forgotten run whose relay was switched off keeps "running iff relay ON" |
| ZoneManagerService.StopAllStep | backend/src/services/zone-manager.js:297-305 | one more successful stop during a stop-all extends the forgotten set by that zone in every part of the state |
| ZoneManagerService.ArmedAfterFire | backend/src/services/zone-manager.js:189-192 | a fired timer is spent; the other runs keep their timers |
| ZoneManagerService.ArmedAfterStopAll | backend/src/services/zone-manager.js:295-305 | forgetting a set of runs with their timers keeps the rest armed |
| ZoneManagerService.AgreeAfterStopAll | backend/src/services/zone-manager.js:295-305 | forgetting a set of runs with their relays switched off keeps "running iff relay ON" |
| ZoneManagerService.RelaysAgreeCoversRunning | backend/src/services/zone-manager.js:295-305 | while "running iff relay ON" holds, every running zone has a pin, so a stop-all forgets all of them |
| ZoneManagerService.ZoneManager.constructor | backend/src/services/zone-manager.js:19-23 | both maps start empty, with no pending timer |
| ZoneManagerService.ZoneManager.IsZoneRunning | backend/src/services/zone-manager.js:30-32 | `runningZones.has`; RunningMeansRelayOn ties it to the relay reading |
| ZoneManagerService.ZoneManager.RunningMeansRelayOn | backend/src/services/zone-manager.js:30-32 | while the relays agree, a zone is in the running map iff its relay reads ON |
| ZoneManagerService.ZoneManager.GetRunningZoneCount | backend/src/services/zone-manager.js:38-40 | the count is the number of running entries |
| ZoneManagerService.ZoneManager.GetZoneState | backend/src/services/zone-manager.js:71-89 | a zone that is not running reports not running with 0 minutes left; a running one reports its start, duration and remaining minutes |
| ZoneManagerService.ZoneManager.GetRunningZones | backend/src/services/zone-manager.js:46-64 | one view per running zone, in insertion order, carrying its start, duration, elapsed and remaining minutes and trigger, and agreeing with `GetZoneState` |
| ZoneManagerService.ZoneManager.QueueZone | backend/src/services/zone-manager.js:96-98 | the queue gets the entry for that zone and nothing else changes |
| ZoneManagerService.ZoneManager.DequeueZone | backend/src/services/zone-manager.js:104-106 | the zone leaves the queue and nothing else changes |
| ZoneManagerService.ZoneManager.IsZoneQueued | backend/src/services/zone-manager.js:113-115 | `queuedZones.has`; GetQueuedZone finds an entry exactly for the zones it accepts |
| ZoneManagerService.ZoneManager.GetQueuedZone | backend/src/services/zone-manager.js:122-124 | the queue entry of a queued zone, and nothing for any other zone |
| ZoneManagerService.ZoneManager.GetAllQueuedZones | backend/src/services/zone-manager.js:130-139 | one view per queued zone, in insertion order, with its entry |
| ZoneManagerService.ZoneManager.StartZoneManaged | backend/src/services/zone-manager.js:149-219 | a refused start changes nothing; a missing pin adds no entry; an accepted start switches that relay on, adds exactly that entry, arms its timer for `duration*60000` ms later, never starts a zone twice and never exceeds the ceiling; both invariants are kept |
| ZoneManagerService.ZoneManager.RecordStart | backend/src/services/zone-manager.js:189-202 | the run is recorded and its timer armed under the next handle; the queue is untouched |
| ZoneManagerService.ZoneManager.StopZoneManaged | backend/src/services/zone-manager.js:226-284 | stopping a zone that is not running changes nothing; a missing pin leaves the entry and its timer in place; otherwise the relay goes off, the timer is cleared, and the zone leaves both maps and nothing else changes |
| ZoneManagerService.ZoneManager.RecordStop | backend/src/services/zone-manager.js:240-266 | the run, its queue entry and its timer are forgotten |
| ZoneManagerService.ZoneManager.StopAllZonesManaged | backend/src/services/zone-manager.js:290-319 | over a snapshot of the running keys: the zones with a pin are forgotten and switched off, the rest stay; the report lists in snapshot order exactly the zones whose stop returned normally, with its length as count |
| ZoneManagerService.ZoneManager.StopEachOf | backend/src/services/zone-manager.js:297-305 | the loop over the snapshot stops each zone in turn, swallowing failures, and collects the stops that returned normally |
| ZoneManagerService.ZoneManager.StopAllRound | backend/src/services/zone-manager.js:298-304 | one round of that loop advances the stop-all progress by one zone; it succeeds iff the zone has a pin and a row |
| ZoneManagerService.ZoneManager.FireAutoStop | backend/src/services/zone-manager.js:189-192 | a due auto-stop timer is spent and runs the stop for its zone, with that stop's three outcomes |
| ZoneManagerService.ZoneManager.InitializeZoneManager | backend/src/services/zone-manager.js:325-328 | only the running map is cleared; the queue and the timers are untouched |
| Gpio.NewOutputPins | backend/src/hardware/gpio.js:45-48 | one fresh output pin per wired zone, on that zone's pin number, each written OFF |
| Gpio.GpioController.Levels | backend/src/hardware/gpio.js:124-130 | the level of every initialised zone is what its pin reads |
| Gpio.GpioController.GetZoneState | backend/src/hardware/gpio.js:124-130 | a zone is ON iff it has a pin and the pin reads `RELAY.ON`; a zone outside `GPIO_PINS` is never ON |
| Gpio.GpioController.constructor | backend/src/hardware/gpio.js:32 | no zone has a pin before initialisation |
| Gpio.GpioController.InitializeGpio | backend/src/hardware/gpio.js:41-59 | afterwards exactly the zones of `GPIO_PINS` have fresh output pins, all reading OFF |
| Gpio.GpioController.StartZone | backend/src/hardware/gpio.js:66-78 | a zone without a pin fails with 'GPIO pin for zone N not initialized' and changes nothing; otherwise only that zone's level becomes ON (0) |
| Gpio.GpioController.StopZone | backend/src/hardware/gpio.js:85-97 | a zone without a pin fails and changes nothing; otherwise only that zone's level becomes OFF (1) |
| Gpio.GpioController.StopAllZones | backend/src/hardware/gpio.js:103-117 | every initialised pin reads OFF afterwards, so no zone is ON |
| MockGpioPin.MockGpio.constructor | backend/src/hardware/mock-gpio.js:20-25 | a new pin keeps its number and direction and starts at 1 (HIGH, relay OFF) |
| MockGpioPin.MockGpio.ReadSync | backend/src/hardware/mock-gpio.js:41-43 | the level last written (WriteSync), or 1 before any write (the constructor) |
| MockGpioPin.MockGpio.WriteSync | backend/src/hardware/mock-gpio.js:31-35 | the value read next is the value written, and number and direction do not change |
| Constants.GpioTableShape | backend/src/config/constants.js:10-19 | zones 1-8 are wired, each to its own pin |
| ErrorHandler.HandleError | backend/src/middleware/error-handler.js:18-43 | the body echoes the message; the code is `err.code` or 'VALIDATION_ERROR'; 'not found' gives 404 ahead of every other pattern, the client-error patterns give 400, and anything else gives `err.statusCode` or 500 |
| JsMaps.JsMap.Set | backend/src/services/zone-manager.js:195 | `map.set`: the entry is stored, an existing key keeps its place and a new key goes last |
| JsMaps.JsMap.Delete | backend/src/services/zone-manager.js:263 | `map.delete`: the key and its entry are gone, the other keys keep their order, and deleting an absent key changes nothing |
| JsMaps.SetSize | backend/src/services/zone-manager.js:38-40 | `set` grows the size by one exactly for a new key |
| JsMaps.DeleteSize | backend/src/services/zone-manager.js:38-40 | `delete` shrinks the size by one exactly for a present key |
| Validation.ValidateZoneId | backend/src/utils/validation.js:15-27 | valid iff the parsed integer exists and is at least 1, returning it; otherwise the not-a-number or not-positive message |
| Validation.ValidateDuration | backend/src/utils/validation.js:34-50 | valid iff 1 <= d <= 60, returning d; the errors come in the order not a number, too small, too large |
| Validation.ValidateTimeFormat | backend/src/utils/validation.js:57-69 | valid iff the text is two-digit hours 00-23, ':', two-digit minutes 00-59, returning it unchanged; a missing or empty value gets the "required" message |
| Validation.InsertUnique | backend/src/utils/validation.js:107 | inserting into a strictly ascending list keeps it strictly ascending and adds exactly the one element |
| Validation.SortedUnique | backend/src/utils/validation.js:107 | `[...new Set(xs)].sort(...)` is strictly ascending with exactly the elements of xs |
| Validation.AscendingUnique | backend/src/utils/validation.js:107 | two strictly ascending lists with the same elements are equal, so the result is determined by the element set |
| Validation.CheckDayList | backend/src/utils/validation.js:92-109 | a list is accepted iff it is non-empty and every element is in 0..6; the result is non-empty, strictly ascending, within 0..6 and has the same element set |
| Validation.ValidateDays | backend/src/utils/validation.js:76-110 | a value that is neither array nor text is refused as not an array, unparsable text as bad JSON; an array (given or parsed) is accepted iff non-empty with every element in 0..6, and yields its elements ascending without duplicates |
| Validation.ValidateZoneName | backend/src/utils/validation.js:117-133 | valid iff the name with ECMAScript white space and line terminators trimmed from both ends is non-empty and at most 50 UTF-16 code units long, returning the trimmed name |
| Validation.ZoneNameEdgeCases | backend/src/utils/validation.js:122-130 | a lone no-break space is refused as empty, and 26 seedling emoji (52 code units) are refused as too long |
| Strings.Utf16Length | backend/src/utils/validation.js:128 | `length` counts one unit per character, two beyond the Basic Multilingual Plane, so it lies between the character count and twice it, equal to it iff no character lies beyond that plane |
| Validation.ValidateZoneNameIdempotent | backend/src/utils/validation.js:117-133 | validating an accepted name again returns the same name |
| Validation.ValidateScheduleId | backend/src/utils/validation.js:140-148 | valid iff the parsed integer is at least 1, else 'Invalid schedule ID' |
| Validation.ValidatePositiveInt | backend/src/utils/validation.js:196-204 | valid iff the parsed integer is at least 1, else "{fieldName} must be a positive integer" |
| Validation.IdValidatorsAgree | backend/src/utils/validation.js:140-204 | the zone-id, schedule-id and positive-integer validators accept the same inputs with the same values |
| Validation.ValidateBoolean | backend/src/utils/validation.js:155-169 | exactly true, 'true', '1', 1 give true; exactly false, 'false', '0', 0 give false; anything else is refused |
| ClockTime.ClockText | backend/src/utils/validation.js:60 | the text of a clock time is five characters long |
| ClockTime.ClockHours | backend/src/utils/helpers.js:111 | the hours read from an HH:MM text are below 24 |
| ClockTime.ClockMinutes | backend/src/utils/helpers.js:111 | the minutes read from an HH:MM text are below 60 |
| ClockTime.ClockTextIsHHMM | backend/src/utils/validation.js:60 | every clock time's text is accepted and reads back as that hour and minute |
| ClockTime.HHMMIsClockText | backend/src/utils/validation.js:60 | every accepted text is the text of the clock time it reads as |
| ClockTime.IsHHMMIffClockText | backend/src/utils/validation.js:60 | the accepted texts are exactly the texts of clock times 00:00-23:59 |
| Helpers.FormatDuration | backend/src/utils/helpers.js:14-27 | under an hour the label is the minutes followed by 'm'; from an hour on it starts with the whole hours followed by 'h' |
| Helpers.ParseFormatDuration | backend/src/utils/helpers.js:14-27 | every non-negative duration label reads back as the same number of minutes, so no two durations share a label |
| Helpers.ParseMinutesLabel | backend/src/utils/helpers.js:15-17 | a label under an hour ("45m") reads back as its minutes |
| Helpers.ParseWholeHoursLabel | backend/src/utils/helpers.js:22-24 | a whole-hours label ("2h") reads back as its minutes |
| Helpers.ParseHoursMinutesLabel | backend/src/utils/helpers.js:19-26 | a mixed label ("1h 30m") reads back as its minutes |
| Helpers.DayShortNames | backend/src/utils/helpers.js:57-58 | one three-letter name per day, position by position |
| Helpers.FormatDays | backend/src/utils/helpers.js:34-60 | 'No days selected' for a missing or empty list, 'Every day' for seven entries, 'Weekdays' and 'Weekends' for the five and two entry lists covering those days, else the short names joined by ', ' (nothing when a day number has no name) |
| Helpers.ExactlyWhenSameLength | backend/src/utils/helpers.js:46-53 | for a list without repeats, having the right length and containing every wanted day is the same as having exactly the wanted days |
| Helpers.EveryDayMeansWholeWeek | backend/src/utils/helpers.js:40-42 | a validated day list is labelled 'Every day' iff it holds all seven days |
| Helpers.WeekdaysMeansMondayToFriday | backend/src/utils/helpers.js:45-48 | a validated day list is labelled 'Weekdays' iff it is exactly Monday to Friday |
| Helpers.WeekendsMeansSundayAndSaturday | backend/src/utils/helpers.js:51-54 | a validated day list is labelled 'Weekends' iff it is exactly Sunday and Saturday |
| Helpers.ValidatedDaysAlwaysFormat | backend/src/utils/helpers.js:34-60 | every non-empty list of day numbers 0-6 gets a label |
| Helpers.ParseDays | backend/src/utils/helpers.js:67-81 | an array is returned as is, JSON text as its parsed array, and anything else or unparsable text as the empty list |
| Helpers.ParseDaysAgreesWithValidation | backend/src/utils/helpers.js:67-81 | for any value the day validator accepts, the parsed days and the validated days hold the same day numbers |
| Helpers.CalculateMinutesBetween | backend/src/utils/helpers.js:97-102 | the result is the elapsed milliseconds divided by 60000, rounded to nearest with halves up: within half a minute below and strictly under half a minute above |
| Helpers.MinutesBetweenUnique | backend/src/utils/helpers.js:97-102 | only one whole number of minutes is that close, so the rounding is determined |
| Helpers.GetNextScheduledRun | backend/src/utils/helpers.js:110-148 | no run for an empty list or when no listed day falls in the coming week; today when listed and the start minute is still ahead; otherwise the first of the next seven days that is listed; always at the schedule's hour and minute with zero seconds |
| Helpers.SomeDayWithinAWeek | backend/src/utils/helpers.js:129-135 | a non-empty list of day numbers always has a listed day within the next seven days, so a validated schedule always has a next run |
| Helpers.ShouldRunToday | backend/src/utils/helpers.js:185-188 | true iff the value is an array listing today |
| Helpers.DayNumbersText | backend/src/utils/helpers.js:198 | each day number written in decimal, position by position |
| Helpers.GenerateCronExpression | backend/src/utils/helpers.js:196-200 | the minutes field, the hours field, two stars and the comma-joined days, split from the start time at ':' ('undefined' when there is no minute part) |
| Helpers.SplitClockText | backend/src/utils/helpers.js:197 | an HH:MM text splits at ':' into its two padded fields |
| Helpers.CronOfClockText | backend/src/utils/helpers.js:196-200 | for a valid start time the expression is "MM HH * * days" with the padded fields |
| Helpers.CronFields | backend/src/utils/helpers.js:196-200 | for a valid start time the expression has exactly five space-separated fields: minutes, hours, '*', '*', the day list |
| DashboardHelpers.FormatDuration | web-dashboard/src/utils/helpers.js:13-28 | a missing or zero duration shows '0m'; any other value gets the same label as the backend's formatter |
| DashboardHelpers.FormatDurationMatchesBackend | web-dashboard/src/utils/helpers.js:13-28 | for every given duration the dashboard and the backend print the same label |
| DashboardHelpers.FormatDays | web-dashboard/src/utils/helpers.js:33-56 | 'No days' for a missing or empty list, 'Every day', 'Weekdays' and 'Weekends' on the same tests as the backend, else the abbreviations joined by ', ' (empty for a number without one) |
| DashboardHelpers.AbbrevIsShortName | web-dashboard/src/utils/helpers.js:8 | the dashboard's abbreviation of a day is the backend's three-letter name |
| DashboardHelpers.FormatDaysMatchesBackend | web-dashboard/src/utils/helpers.js:33-56 | for every non-empty list of day numbers 0-6 the dashboard and the backend show the same label |
| DashboardHelpers.FormatTime12Hour | web-dashboard/src/utils/helpers.js:99-107 | '' exactly for an empty time; FormatTime12HourOf and FormatTime12HourRoundTrip give the label of every HH:MM time |
| DashboardHelpers.FormatTime12HourOf | web-dashboard/src/utils/helpers.js:99-107 | an HH:MM time is shown as the 12-hour clock hour (12 for midnight and noon), ':', the padded minutes and AM before noon, PM from noon |
| DashboardHelpers.FormatTime12HourRoundTrip | web-dashboard/src/utils/helpers.js:99-107 | the 12-hour label reads back as the same hour and minute, so no two times share a label |
| DashboardHelpers.GetZoneStatusText | web-dashboard/src/utils/helpers.js:119-124 | a running zone shows 'Running - N min left' with its remaining time, an idle one 'Idle' |
| DashboardHelpers.StatusTextDistinguishesRunning | web-dashboard/src/utils/helpers.js:119-124 | the status starts with 'Running' iff the zone is running |
| DashboardHelpers.FormatNextRun | web-dashboard/src/utils/helpers.js:129-145 | by the time left: 'Not scheduled', 'Overdue', 'Soon' under an hour, 'In Nh' with N between 1 and 23, 'Tomorrow', 'In N days' with N between 2 and 6, and the absolute date from a week on |
| DashboardHelpers.FormatRelativeTime | web-dashboard/src/utils/helpers.js:61-78 | by the time elapsed: 'Never', 'Just now' under a minute, 'Nm ago' with N between 1 and 59, 'Nh ago' with N between 1 and 23, 'Yesterday', 'Nd ago' with N between 2 and 6, and the absolute date from a week on |
| DashboardHelpers.MinutesToHours | web-dashboard/src/utils/helpers.js:67-68 | flooring milliseconds to minutes and then to hours equals flooring straight to hours |
| DashboardHelpers.HoursToDays | web-dashboard/src/utils/helpers.js:68-69 | flooring hours to days equals flooring milliseconds straight to days |
| DashboardHelpers.ValidateTimeFormat | web-dashboard/src/utils/helpers.js:150-153 | true iff the text is a clock time 00:00-23:59 in HH:MM form |
| DashboardHelpers.TimeFormatMatchesBackend | web-dashboard/src/utils/helpers.js:150-153 | the dashboard accepts exactly the start times the backend accepts |
| GroupSequencer.RunDuration | backend/src/controllers/groupsController.js:349 | a given non-zero duration is used, a missing or zero one falls back to the group's default |
| GroupSequencer.DelayIsLinear | backend/src/controllers/groupsController.js:369 | member i is due i times one full run plus the five-second gap after the run starts |
| GroupSequencer.DelayStep | backend/src/controllers/groupsController.js:398 | each member is due exactly one run plus the gap after the member before it |
| GroupSequencer.DelaysIncrease | backend/src/controllers/groupsController.js:396-399 | with a non-negative duration the members are due strictly in sequence order |
| GroupSequencer.StartInMinutesValue | backend/src/controllers/groupsController.js:425 | the roster's start_in_minutes for member i is d times i plus one minute per twelve gaps |
| GroupSequencer.FirstRunning | backend/src/controllers/groupsController.js:352-356 | the index of the first member, in sequence order, whose zone is running, and none iff no member's zone runs |
| GroupSequencer.RunGroupCheck | backend/src/controllers/groupsController.js:324-358 | 404 'Zone group not found' for a missing group, 400 'No zones in this group' for an empty one, otherwise refused iff some member runs, naming the first running member |
| GroupSequencer.QueuedUpToMembers | backend/src/controllers/groupsController.js:367-378 | with distinct member zones every member is queued with its group, position i+1 of n and due time now plus its delay |
| GroupSequencer.QueuedUpToOthers | backend/src/controllers/groupsController.js:367-378 | queueing the members leaves every other zone's queue entry as it was and adds no other zone |
| GroupSequencer.LaterRoster | backend/src/controllers/groupsController.js:420-426 | one queued roster entry per later member, in order, with its start in whole minutes |
| GroupSequencer.PendingUpToEntries | backend/src/controllers/groupsController.js:396-418 | every later member gets its own timer due at now plus its delay; earlier timers are untouched and nothing else is added |
| GroupSequencer.ZoneIds | backend/src/controllers/groupsController.js:148-154 | the zone ids of membership rows in row order |
| GroupSequencer.CreateGroupCheck | backend/src/controllers/groupsController.js:124-136 | accepted iff the name is present and not blank (white space as `trim` knows it, Unicode spaces included) and at least one zone is given; a blank name is refused first, then an empty zone list |
| GroupSequencer.InsertMembers | backend/src/controllers/groupsController.js:148-154 | one membership row per zone, in the given order, each with the group id and its index as sequence order |
| GroupSequencer.CreateGroupMembers | backend/src/controllers/groupsController.js:111-154 | a refused request inserts nothing; an accepted one stores exactly the given zones in order |
| GroupSequencer.UpdateGroupMembers | backend/src/controllers/groupsController.js:208-245 | 404 for a missing group; without a zone list the members stay as they were; with one they become exactly those zones in order |
| GroupSequencer.GroupRunner.constructor | backend/src/controllers/groupsController.js:319 | a runner over a valid zone manager starts with no pending timers |
| GroupSequencer.GroupRunner.QueueMembers | backend/src/controllers/groupsController.js:367-378 | the queue becomes the old queue with every member queued in order; running zones, timers, relay agreement and the no-stray-timer invariant are kept |
| GroupSequencer.GroupRunner.StartFirst | backend/src/controllers/groupsController.js:381-392 | the first member is started iff the zone manager's start checks pass and its relay exists; otherwise it is only dequeued |
| GroupSequencer.GroupRunner.ArmLater | backend/src/controllers/groupsController.js:396-427 | every later member gets a pending timer and a queued roster entry, in order |
| GroupSequencer.GroupRunner.Launch | backend/src/controllers/groupsController.js:360-439 | queue all members, try the first, arm the rest whatever became of the first; the answer lists the first as running only when it started |
| GroupSequencer.GroupRunner.RunGroup | backend/src/controllers/groupsController.js:319-447 | a refused run queues, starts and arms nothing; an accepted one answers with the group, the duration, the member count and the roster, and leaves the zone manager in the launched state |
| GroupSequencer.GroupRunner.StartMember | backend/src/controllers/groupsController.js:400-418 | a member whose timer fires while the concurrency limit is reached is abandoned and dequeued; one that fails a start check or has no relay is dequeued; otherwise it runs, and never beyond the limit |
| GroupSequencer.GroupRunner.FireMemberStart | backend/src/controllers/groupsController.js:400-418 | firing a due timer removes it and starts its member as StartMember does |
| Scheduler.JobFor | backend/src/services/scheduler.js:112-128 | a schedule gets a cron job iff its parsed day list is non-empty, and the job captures the schedule row itself |
| Scheduler.Register | backend/src/services/scheduler.js:109-141 | adding a schedule keeps the job table well formed |
| Scheduler.RegisterEffect | backend/src/services/scheduler.js:109-141 | adding a schedule puts its id in the table iff it lists a day, under a job that captured it, and changes no other entry |
| Scheduler.EnabledRows | backend/src/services/scheduler.js:195-203 | the loaded rows are exactly the enabled rows of the table |
| Scheduler.EnabledRowsDistinct | backend/src/services/scheduler.js:195-203 | selecting the enabled rows keeps schedule ids distinct |
| Scheduler.RegisterAll | backend/src/services/scheduler.js:210-212 | adding rows one after another keeps the job table well formed |
| Scheduler.ListedIdsStep | backend/src/services/scheduler.js:210-212 | one more row adds its id to the active ids iff it lists a day |
| Scheduler.RegisterAllActive | backend/src/services/scheduler.js:210-212 | after adding rows to an empty table the active schedules are exactly the rows that list a day |
| Scheduler.RegisterAllJobs | backend/src/services/scheduler.js:210-212 | with distinct ids every row that lists a day keeps a job that captured that row |
| Scheduler.RegisterAllKeyed | backend/src/services/scheduler.js:131 | a table built by adding rows keeps every job under the id of the schedule it captured |
| Scheduler.LoadedIds | backend/src/services/scheduler.js:190-219 | loading a table registers exactly the enabled schedules that list a day |
| Scheduler.LoadedJobs | backend/src/services/scheduler.js:190-219 | with ids as primary key each loaded job captured its own enabled row |
| Scheduler.Refresh | backend/src/services/scheduler.js:160-185 | re-reading one schedule keeps the job table well formed |
| Scheduler.RefreshEffect | backend/src/services/scheduler.js:160-185 | after an update a schedule is active iff its row exists, is enabled and lists a day, with the job built from the stored row; no other schedule changes |
| Scheduler.StartOutcome | backend/src/services/scheduler.js:36-41 | a start succeeds iff the zone manager's checks pass and the relay exists, and then the zone was idle, the limit not reached, the duration in range and the stop due after the duration |
| Scheduler.Outcome | backend/src/services/scheduler.js:23-103 | a zone schedule skips a running zone and otherwise attempts exactly that zone; a group schedule starts its first member only when it has members and none of them runs, else it names a running member; a row with neither target does nothing |
| Scheduler.ArmedUpToEntries | backend/src/services/scheduler.js:83-95 | every later group member gets its own timer with the schedule's duration, due at now plus its delay; earlier timers are kept and nothing else is added |
| Scheduler.CronScheduler.constructor | backend/src/services/scheduler.js:17 | the scheduler starts with no job and no pending start |
| Scheduler.CronScheduler.GetActiveScheduleCount | backend/src/services/scheduler.js:247-249 | the number of registered jobs |
| Scheduler.CronScheduler.IsScheduleActive | backend/src/services/scheduler.js:256-258 | `activeCronJobs.has`; RemoveScheduleFromCron and UpdateScheduleInCron state when it holds afterwards |
| Scheduler.CronScheduler.AddScheduleToCron | backend/src/services/scheduler.js:109-141 | the table becomes the old one with the schedule registered; a job it replaces without stopping is kept running as a stray job |
| Scheduler.CronScheduler.RemoveScheduleFromCron | backend/src/services/scheduler.js:147-154 | the schedule is no longer active, its job is stopped, and an unknown id changes nothing |
| Scheduler.CronScheduler.UpdateScheduleInCron | backend/src/services/scheduler.js:160-185 | the schedule is active afterwards iff its stored row exists, is enabled and lists a day; no other schedule changes |
| Scheduler.CronScheduler.StopScheduler | backend/src/services/scheduler.js:234-241 | every registered job is stopped and the table emptied |
| Scheduler.CronScheduler.AddEach | backend/src/services/scheduler.js:210-212 | the table becomes the old one with every row added in order |
| Scheduler.CronScheduler.LoadSchedules | backend/src/services/scheduler.js:190-219 | the table is cleared and refilled with exactly the enabled schedules that list a day, each under a job that captured its row |
| Scheduler.CronScheduler.ExecuteZone | backend/src/services/scheduler.js:26-44 | a zone schedule starts its zone, tagged as scheduled with the schedule id, iff the zone is idle and the start checks pass; otherwise nothing runs |
| Scheduler.CronScheduler.ArmScheduled | backend/src/services/scheduler.js:83-95 | members 1 .. n-1 each get a pending start of the schedule's duration at their delay |
| Scheduler.CronScheduler.LaunchScheduled | backend/src/services/scheduler.js:74-95 | the first member's start outcome decides: on success the later members are armed, on failure nothing more happens |
| Scheduler.CronScheduler.ExecuteGroup | backend/src/services/scheduler.js:46-98 | a group schedule starts its first member and arms the rest only when it has members, none runs and the first start succeeds; otherwise nothing runs or is armed |
| Scheduler.CronScheduler.ExecuteSchedule | backend/src/services/scheduler.js:23-103 | running a schedule does what Outcome says, on the zone manager's state, and touches no queue entry |
| Scheduler.CronScheduler.FireCronJob | backend/src/services/scheduler.js:123-125 | a firing job runs the row it captured at registration, not the current row |
| Scheduler.CronScheduler.FireScheduledStart | backend/src/services/scheduler.js:87-94 | a due member timer is consumed and its member started with the schedule's tag, a failure leaving the running zones as they were |
| SettingsController.MaskApiKey | backend/src/controllers/settingsController.js:56 | a stored key reads as '***', an unset (falsy) one as null |
| SettingsController.ProfileOfColumn | backend/src/controllers/settingsController.js:31 | the stored profile id's profile, or the fallback profile for anything else; always a listed profile |
| SettingsController.ViewOf | backend/src/controllers/settingsController.js:30-60 | the read echoes the stored profile and model, summarises a listed profile, reports the flags' truthiness and shows the key only as '***', exactly when one is stored |
| SettingsController.GetSettings | backend/src/controllers/settingsController.js:19-68 | 404 'System settings not found' iff there is no settings row, else the masked view of the row |
| SettingsController.ControllerType | backend/src/controllers/settingsController.js:376 | 'WiFi' iff the features include wifi, 'Bluetooth' iff they include bluetooth but not wifi, 'Wired' iff neither |
| SettingsController.ControllersOfManufacturer | backend/src/controllers/settingsController.js:506-518 | the manufacturer's models, with the 'No controllers found' notice exactly when there are none |
| SettingsController.GetControllerDetails | backend/src/controllers/settingsController.js:393-433 | 404 'Controller not found' iff the model is unknown, otherwise that model with its connection type |
| SettingsController.GetManufacturerDetails | backend/src/controllers/settingsController.js:466-500 | 404 'Manufacturer not found' iff the manufacturer is unknown, otherwise its entry |
| SettingsController.GetProfileDetails | backend/src/controllers/settingsController.js:321-355 | every profile id answers: a known one with its profile, an unknown one with the fallback; the 404 branch is never reached |
| SettingsController.ReduceClosestIn | backend/src/controllers/settingsController.js:134-139 | the reduction returns one of the counts it was given |
| SettingsController.ReduceClosestNearest | backend/src/controllers/settingsController.js:134-139 | the reduction returns a count at least as close to the target as every other |
| SettingsController.ReduceClosestPrefersSmaller | backend/src/controllers/settingsController.js:134-139 | over ascending counts a tie keeps the earlier, smaller count, because the comparison is strict |
| SettingsController.ClosestCount | backend/src/controllers/settingsController.js:131-141 | the chosen count is one of 4, 6, 8, 12, 18, 22, no farther from the target than any other, and the smallest of the equally close ones |
| SettingsController.PresetFor | backend/src/controllers/settingsController.js:130-141 | the preset of the controller's zone count when it has one, else the preset of the closest count |
| SettingsController.PresetRows | backend/src/controllers/settingsController.js:151-157 | one zone row per preset zone |
| SettingsController.InsertPresetZones | backend/src/controllers/settingsController.js:151-157 | the inserted rows are the preset's zones in order, each with a default duration of 15 |
| SettingsController.PresetRowsShape | backend/src/controllers/settingsController.js:151-157 | a preset's rows are numbered 1 to n, named 'Zone i', on pairwise distinct pins, with the default duration |
| SettingsController.Given | backend/src/controllers/settingsController.js:174-221 | a field the request gives becomes exactly one assignment to its column; an absent one none |
| SettingsController.Flag | backend/src/controllers/settingsController.js:205-216 | a given flag is stored as 1 or 0 from its truthiness; an absent one writes nothing |
| SettingsController.AssignmentsEmpty | backend/src/controllers/settingsController.js:223-228 | the update has nothing to write iff no profile, no controller and no field of the three objects is given |
| SettingsController.LocationColumns | backend/src/controllers/settingsController.js:174-191 | the location object writes only location columns |
| SettingsController.WaterRateColumns | backend/src/controllers/settingsController.js:193-202 | the water-rate object writes only water-rate columns |
| SettingsController.WeatherValues | backend/src/controllers/settingsController.js:204-221 | the weather object writes only weather columns, never '***' as the key, and flags only as 0 or 1 |
| SettingsController.PatchColumns | backend/src/controllers/settingsController.js:174-221 | the three objects never write the profile, the controller model or the concurrency ceiling |
| SettingsController.CheckedColumns | backend/src/controllers/settingsController.js:89-119 | the validated fields write only the profile, the model and the concurrency ceiling |
| SettingsController.AssignmentValues | backend/src/controllers/settingsController.js:204-221 | the whole update never stores '***' as the key and stores the two flags only as 0 or 1 |
| SettingsController.Apply | backend/src/controllers/settingsController.js:229-240 | the UPDATE keeps every column and adds those it assigns |
| SettingsController.ApplyAppend | backend/src/controllers/settingsController.js:229-240 | writing two lists of assignments is writing the first and then the second |
| SettingsController.ApplyUntouched | backend/src/controllers/settingsController.js:229-240 | a column no assignment names keeps its stored value |
| SettingsController.ApplyWrites | backend/src/controllers/settingsController.js:229-240 | a column written once and never again holds the written value |
| SettingsController.ApplyPair | backend/src/controllers/settingsController.js:229-240 | two assignments set their columns in order |
| SettingsController.ProfileRefusal | backend/src/controllers/settingsController.js:89-100 | the intended check: no refusal iff the id names a profile, else 400 'Invalid use case profile' |
| SettingsController.ProfileRefusalAsWritten | backend/src/controllers/settingsController.js:91-97 | the check as written never refuses, because the lookup always returns a profile |
| SettingsController.UnknownProfilePassesAsWritten | backend/src/controllers/settingsController.js:91-97 | 'lawn' names no profile, passes the written check, is refused by the intended one, and would read back as the fallback profile |
| SettingsController.ProfileCheck | backend/src/controllers/settingsController.js:89-100 | the profile test as written never refuses; the intended test refuses exactly the ids that name no profile; a refusal is 400 'Invalid use case profile' |
| SettingsController.PlanUpdate | backend/src/controllers/settingsController.js:75-228 | the profile test is applied first (as written it lets every id through, so 'lawn' is accepted; the intended test refuses an unknown id), then an unknown controller is refused, both with 400; otherwise 'No updates provided' iff nothing is written; an accepted plan writes the assignments in request order, uses the named controller, and installs the preset for its zone count exactly when the zones table is empty or auto-initialisation is asked and the count differs |
| SettingsController.UpdateSettings | backend/src/controllers/settingsController.js:75-294 | with the test `AsWritten` this is the handler as the controller has it (with `Intended`, the corrected handler); a refused update changes neither the row nor the zones; an accepted one applies the plan's assignments, replaces the zones by the preset rows when one is due, and reports the initialisation in its message |
| SettingsController.CheckedWriteProfile | backend/src/controllers/settingsController.js:89-100 | the validated fields leave the profile column as requested, or as stored when none is given |
| SettingsController.AssignmentsWriteProfile | backend/src/controllers/settingsController.js:89-100 | after the update the profile column is the requested id, or the stored one when none is given |
| SettingsController.AssignmentsWriteController | backend/src/controllers/settingsController.js:114-119 | choosing a controller stores its model id and its max_concurrent_zones |
| SettingsController.ControllerCatalogWellFormed | backend/src/controllers/settingsController.js:117-119 | every model of the catalog has a concurrency ceiling of at least one |
| SettingsController.ControllerSetsConcurrencyLimit | backend/src/controllers/settingsController.js:114-119 | after an accepted update that names a controller, the stored model is that one and the zone manager's concurrency limit becomes that model's ceiling, at least one |
| SettingsController.AsWrittenStoresAnyProfile | backend/src/controllers/settingsController.js:89-100 | as written, a request naming any profile id and no unknown controller is accepted and stores that id, known or not |
| SettingsController.StoredProfileStaysKnown | backend/src/controllers/settingsController.js:89-100 | with the intended check, an accepted update never leaves an unknown profile id stored |
| SettingsController.EchoedKeyKeepsStoredKey | backend/src/controllers/settingsController.js:209-212 | sending back what a read showed never changes a stored key and leaves an unset one unset |
| SchedulesController.EnabledValue | backend/src/controllers/schedules.js:207 | a new schedule is stored disabled iff the request gives a falsy enabled, enabled otherwise (including when absent) |
| SchedulesController.TargetCheck | backend/src/controllers/schedules.js:152-187 | 400 when neither or both of zone and group are given; the given id must validate (400 with its message) and exist (404 'Zone not found' or 'Group not found'); the result names exactly that target |
| SchedulesController.CreateCheck | backend/src/controllers/schedules.js:147-204 | the checks in code order, target, start time, duration, days, the first failure answering; an accepted schedule has exactly one existing target, a valid HH:MM time, a duration within limits, a non-empty day list and the requested enabled flag |
| SchedulesController.ArmedRow | backend/src/controllers/schedules.js:241-244 | the row handed to the scheduler has the same id, flag and days as the stored one |
| SchedulesController.UpdateCheck | backend/src/controllers/schedules.js:265-330 | 400 for a bad id, 404 for an unknown one, 400 when no field is given; accepted iff every given field validates; absent fields keep their stored values and the target never changes |
| SchedulesController.Flip | backend/src/controllers/schedules.js:424 | the new flag is 0 for a set flag and 1 for a clear one |
| SchedulesController.FlipTwice | backend/src/controllers/schedules.js:424 | toggling a 0/1 flag twice restores it |
| SchedulesController.CreateSchedule | backend/src/controllers/schedules.js:147-262 | a refused request stores and arms nothing; an accepted one stores the checked row under the new id and arms it exactly when it is enabled |
| SchedulesController.UpdateSchedule | backend/src/controllers/schedules.js:265-368 | a refused request changes nothing; an accepted one stores the updated row and leaves the schedule active iff it is enabled and lists a day |
| SchedulesController.DeleteSchedule | backend/src/controllers/schedules.js:374-401 | 400 for a bad id and 404 for an unknown one, changing nothing; otherwise the schedule is disarmed and its row removed |
| SchedulesController.ToggleSchedule | backend/src/controllers/schedules.js:408-441 | 400 or 404 change nothing; otherwise the flag flips, the answer reports the new state with its message, and the schedule is active afterwards iff it is now enabled and lists a day |
| SchedulesController.NextRunOf | backend/src/controllers/schedules.js:125-130 | the days read back from the column (empty for unreadable text); no next run for a disabled schedule; otherwise the next run as the backend helper computes it at the schedule's start time |
| Catalog.Keys | backend/src/config/controllers.js:497-499 | a key is in a table exactly when some property of the literal is written under it |
| Catalog.Lookup | backend/src/config/controllers.js:497-499 | `table[key] \|\| null`: nothing iff the key is absent, otherwise the value of a property under that key |
| Catalog.LookupFinds | backend/src/config/controllers.js:497-499 | with distinct keys, looking up a property's key yields that property's value |
| Catalog.Values | backend/src/config/controllers.js:505-507 | `Object.values`: the values in declaration order |
| Catalog.Filter | backend/src/config/controllers.js:514-518 | `filter`: exactly the elements the test accepts, never more than the input |
| Catalog.FilterAppend | backend/src/config/controllers.js:514-518 | filtering distributes over concatenation, so order is kept |
| Catalog.FilterAll | backend/src/config/rainBirdControllers.js:509-515 | a test every element passes returns the list unchanged |
| Catalog.FilterSameTest | backend/src/config/rainBirdControllers.js:509-515 | two tests that agree on every element filter alike |
| ZoneConfigs.GetZoneConfig | backend/src/config/zoneConfigs.js:131-133 | a preset exists exactly for the counts the table lists, and is the listed one |
| ZoneConfigs.IsValidZoneCount | backend/src/config/zoneConfigs.js:140-142 | `VALID_ZONE_COUNTS.includes`; PresetsAreTheValidCounts shows it holds exactly where a preset exists |
| ZoneConfigs.PresetsAreTheValidCounts | backend/src/config/zoneConfigs.js:124-142 | a preset exists iff the count is one of 4, 6, 8, 12, 18, 22 |
| ZoneConfigs.FullPresetIds | backend/src/config/zoneConfigs.js:53-116 | the 22-zone preset numbers its zones 1 to 22 in order |
| ZoneConfigs.FullPresetNames | backend/src/config/zoneConfigs.js:53-116 | every zone of the 22-zone preset is named 'Zone ' followed by its number |
| ZoneConfigs.PresetsArePrefixes | backend/src/config/zoneConfigs.js:12-119 | every smaller preset is the first n zones of the 22-zone preset |
| ZoneConfigs.PresetShape | backend/src/config/zoneConfigs.js:12-119 | preset n has n zones numbered and named 1 to n, on n distinct GPIO pins |
| ZoneConfigs.FullPresetWiring | backend/src/config/constants.js:10-19 | the first eight preset zones use the pins of the relay board wiring |
| ZoneConfigs.PresetPinsMatchWiring | backend/src/config/zoneConfigs.js:12-119 | every preset zone that the relay board wires uses the board's pin for it |
| ZoneConfigs.PresetZonesPastWiring | backend/src/config/constants.js:10-19 | preset zones 9 and above have no relay board pin |
| ControllerCatalog.ControllerTableShape | backend/src/config/controllers.js:13-490 | no model id is declared twice, each model's id is its key, and every model has a concurrency of at least one and base zones no more than its expansion limit |
| ControllerCatalog.GetControllerConfig | backend/src/config/controllers.js:497-499 | nothing for an unknown id; otherwise the well-formed model with that id |
| ControllerCatalog.GetAllControllers | backend/src/config/controllers.js:505-507 | every model, in declaration order |
| ControllerCatalog.ListedControllersAreFound | backend/src/config/controllers.js:497-507 | every listed model is found under its own id and every id's model is listed |
| ControllerCatalog.GetControllersByManufacturer | backend/src/config/controllers.js:514-518 | exactly the models of that manufacturer |
| ControllerCatalog.GetRecommendedControllers | backend/src/config/controllers.js:525-529 | exactly the models recommended for the use case |
| ControllerCatalog.IsZoneCountCompatible | backend/src/config/controllers.js:537-541 | true iff the model exists and the count is within its expansion limit, so a model always fits its own base zone count |
| RainBirdCatalog.RainBirdTableShape | backend/src/config/rainBirdControllers.js:13-462 | no model id is declared twice, each model's id is its key, and every model is well formed |
| RainBirdCatalog.GetRainBirdConfig | backend/src/config/rainBirdControllers.js:469-471 | nothing for an unknown id; otherwise the well-formed model with that id |
| RainBirdCatalog.GetAllRainBird | backend/src/config/rainBirdControllers.js:477-479 | every Rain Bird model, in declaration order |
| RainBirdCatalog.ListedRainBirdAreFound | backend/src/config/rainBirdControllers.js:469-479 | every listed model is found under its own id and every id's model is listed |
| RainBirdCatalog.GetRecommendedRainBird | backend/src/config/rainBirdControllers.js:486-490 | exactly the models recommended for the use case |
| RainBirdCatalog.IsRainBirdZoneCountCompatible | backend/src/config/rainBirdControllers.js:498-502 | true iff the model exists and the count is within its expansion limit |
| RainBirdCatalog.GetControllersBySeries | backend/src/config/rainBirdControllers.js:509-515 | exactly the models whose id, or lower-cased name, starts with the lower-cased series |
| RainBirdCatalog.SeriesIgnoresCase | backend/src/config/rainBirdControllers.js:509-515 | the series search gives the same answer for a series and its lower-case form |
| RainBirdCatalog.EmptySeriesMatchesAll | backend/src/config/rainBirdControllers.js:509-515 | an empty series lists every model |
| Manufacturers.ManufacturerTableShape | backend/src/config/manufacturers.js:11-67 | no manufacturer id is declared twice and each id is its key |
| Manufacturers.GetManufacturer | backend/src/config/manufacturers.js:74-76 | nothing for an unknown id; otherwise the manufacturer with that id |
| Manufacturers.GetAllManufacturers | backend/src/config/manufacturers.js:82-84 | rain-bird, hunter, orbit and toro, in that order |
| Manufacturers.ListedManufacturersAreFound | backend/src/config/manufacturers.js:74-84 | every listed manufacturer is found under its own id and every id's manufacturer is listed |
| Manufacturers.GetManufacturersByMarket | backend/src/config/manufacturers.js:91-95 | exactly the manufacturers whose market position equals the argument ignoring case |
| Manufacturers.MarketIgnoresCase | backend/src/config/manufacturers.js:91-95 | the market search gives the same answer for a position and its lower-case form |
| Manufacturers.GetManufacturersBySpecialty | backend/src/config/manufacturers.js:102-106 | exactly the manufacturers listing the specialty |
| UseCaseProfiles.ProfileTableShape | backend/src/config/useCaseProfiles.js:8-618 | no profile id is declared twice, each id is its key, and the residential lawn profile exists |
| UseCaseProfiles.GetProfile | backend/src/config/useCaseProfiles.js:625-627 | a known id yields its profile; any unknown id falls back to the residential lawn profile, so some listed profile is always returned |
| UseCaseProfiles.GetAllProfiles | backend/src/config/useCaseProfiles.js:633-635 | all thirteen profiles in declaration order |
| UseCaseProfiles.ListedProfilesAreFound | backend/src/config/useCaseProfiles.js:625-635 | every listed profile is found again under its own id |
| UseCaseProfiles.GetProfileOptions | backend/src/config/useCaseProfiles.js:641-648 | one option per profile, in the same order, keeping its id, name, icon and description |

## Left out

- Concurrency: every `await` is taken to complete before the next request is served; interleavings of overlapping requests, timers and cron firings are not modelled.
- The SQLite database: the settings row, the zone set, the schedule and group rows and the history id are parameters or fields; SQL text and query failures are not modelled.
- Weather, analytics, the Express routing layer, the React UI and logging are not modelled.
- Locale date formatting: `toLocaleDateString` results are left abstract; each operation reads the clock once, as a `now` parameter.
- JSON parsing and `parseInt` quirks beyond what the handlers rely on: a `days` column is either an array of numbers or unparsable; the cron timezone and the GPIO stabilisation wait are not modelled.
- Gpio.GpioController.StartZone: drives the development mock pin, whose write cannot fail, so it fails only for a zone without a pin; with the `onoff` library on a Raspberry Pi a write to an initialised pin can throw and `startZone` rethrows it, and that path (with the zone manager's reaction to it) is not modelled.
- Gpio.GpioController.StopZone: the same for `stopZone`; a failed write on a running zone's pin, which in the source leaves the zone in the running map, cannot arise in the model, where every running zone has a pin.
- The list filters of `getAllSchedules` and the response shaping of `getAllGroups`, `getGroup` and `deleteGroup` are not modelled.
- Stray cron jobs (ones not in the scheduler's job map) are only kept, not fired.
- Catalog fields no operation reads are left out: of a controller model its id, name, manufacturer, zone counts, concurrency ceiling, features and recommended uses are kept; of a profile its id, name, icon, description and default zone duration; of a manufacturer its id, name, market position and specialties.
- JavaScript prototype keys (such as `constructor`) in `table[key] || null` lookups, NaN truthiness and floating-point values are not modelled; non-integer numbers are an opaque scalar.
- `initializeGPIO` after preset zones are inserted and the order of zone writes relative to the settings UPDATE are not modelled.
- The listing endpoints `getUseCaseProfiles`, `getControllerModels` and `getManufacturers` are covered by `GetProfileOptions` and the `GetAll*` functions, not modelled as handlers.
- DashboardHelpers.FormatTime12Hour: requires an empty or "HH:MM" time; other text would produce NaN labels in the browser.
- SchedulesController.NextRunOf: requires an "HH:MM" start time and a weekday 0–6, which stored rows have because they are validated on write.
- SettingsController.ViewOf and SettingsController.GetSettings: require a complete settings row, as the table schema guarantees.
- SettingsController.PlanUpdate, SettingsController.ControllerSetsConcurrencyLimit and SettingsController.StoredProfileStaysKnown: take the catalog tables as parameters; `UpdateSettings` passes the real ones.
- Scheduler.CronScheduler.ExecuteZone and Scheduler.CronScheduler.ExecuteGroup: require a schedule row of their own kind; `ExecuteSchedule` dispatches every row.
- Scheduler.JobFor: registers a job for any enabled row that lists a day, as if node-cron accepted every expression; stored rows are assumed to be as the validated write handlers produce them, and for a row whose expression node-cron rejects (a day above 7, an hour of 24 or more, a start time without ':') the source registers nothing, which the model does not capture.
- Scheduler.CronScheduler.AddScheduleToCron: the same assumption as JobFor about node-cron accepting the expression.
- Scheduler.CronScheduler.LoadSchedules: the same assumption as JobFor for every loaded row.
- SchedulesController.UpdateSchedule: assumes a stored `days` column that parses; for one that does not, the source's `JSON.parse` throws after the UPDATE and it answers 500, while the model answers with the updated row.
- Helpers.DayShortNames: requires day numbers 0–6; `FormatDays` turns the TypeError the source throws for other values into `None`.

Where the prose description and the code disagree, the model follows the code:

- A start is checked in the order already running, ceiling reached, duration out of range, zone missing.
- `runGroup` continues with the next member after the first member fails to start.
- In a scheduled group, a failure to start the first member aborts the rest; later members are started by their timers without re-checking.
- A group started from the groups handler records the trigger 'manual'.

## Findings

| source | as written | input that shows it | evidently intended | confidence | as-written member | corrected member |
|---|---|---|---|---|---|---|
| backend/src/controllers/settingsController.js:92-97 | `if (!profile)` never fires, because `getProfile` falls back to `residential_lawn` for an unknown id | `useCaseProfile: "lawn"` | refuse an unknown profile id with 400 'Invalid use case profile' | not executed | SettingsController.ProfileRefusalAsWritten | SettingsController.ProfileRefusal |
