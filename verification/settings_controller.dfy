/**
 * The settings endpoints: reading the single system settings row (with the
 * weather API key masked), and updating it from a partial request. Choosing a
 * controller model also sets the concurrency ceiling the zone manager reads and,
 * when the zones table is empty or out of step, replaces the zones with the
 * closest preset.
 */
module SettingsController {
  import opened Wrappers
  import opened Strings
  import opened Constants
  import opened JsValues
  import opened Catalog
  import opened ZoneConfigs
  import opened ControllerCatalog
  import opened UseCaseProfiles
  import opened Manufacturers
  import opened GroupSequencer
  import opened ZoneManagerService

  /** The columns of `system_settings` that the update can write. */
  datatype Column =
    | UseCaseProfileColumn | ControllerModelColumn | MaxConcurrentColumn
    | LatColumn | LonColumn | ZipColumn | CityColumn
    | RatePerGallonColumn | CurrencyColumn
    | WeatherEnabledColumn | ApiKeyColumn | SmartSkipColumn | RainThresholdColumn

  /** The settings row, column by column; the model keeps every column present. */
  type SettingsRow = map<Column, Scalar>

  /** One `column = ?` of the UPDATE, with its bound value. */
  datatype Assignment = Assignment(column: Column, value: Scalar)

  /** The request's `location` object; `None` fields are `undefined`. */
  datatype LocationPatch = LocationPatch(lat: Option<Scalar>, lon: Option<Scalar>, zip: Option<Scalar>, city: Option<Scalar>)

  /** The request's `waterRate` object. */
  datatype WaterRatePatch = WaterRatePatch(perGallon: Option<Scalar>, currency: Option<Scalar>)

  /** The request's `weather` object; the two flags are given by their truthiness. */
  datatype WeatherPatch = WeatherPatch(enabled: Option<bool>, apiKey: Option<Scalar>, smartSkipEnabled: Option<bool>, rainThreshold: Option<Scalar>)

  /** A truthy string: the empty string is falsy, so a given id is never "". */
  type GivenId = s: string | s != "" witness "?"

  /**
   * The body of `PUT /settings`. The string fields and the three objects are
   * `None` when absent or falsy; `autoInitializeZones` is its truthiness.
   */
  datatype SettingsRequest = SettingsRequest(
    useCaseProfile: Option<GivenId>,
    controllerModel: Option<GivenId>,
    autoInitializeZones: bool,
    location: Option<LocationPatch>,
    waterRate: Option<WaterRatePatch>,
    weather: Option<WeatherPatch>)

  /** A zones-table row written by the preset initialisation. */
  datatype ZoneRow = ZoneRow(id: int, name: string, gpioPin: int, defaultDuration: int)

  /** The default duration given to every zone a preset creates. */
  const PRESET_DEFAULT_DURATION: int := 15

  /** The shape of a stored row: every column present. */
  predicate Complete(row: SettingsRow) {
    forall c: Column :: c in row
  }

  const SETTINGS_NOT_FOUND: string := "System settings not found"
  const INVALID_PROFILE: string := "Invalid use case profile"
  const INVALID_CONTROLLER: string := "Invalid controller model"
  const NO_UPDATES: string := "No updates provided"
  const UPDATED: string := "Settings updated successfully"
  const NO_CONTROLLERS: string := "No controllers found for this manufacturer"

  // ---------------------------------------------------------------- reading

  /** The API key as reads report it: "***" when one is stored, null otherwise. */
  function MaskApiKey(stored: Scalar): (shown: Option<string>)
    ensures shown == Some("***") <==> ScalarTruthy(stored)
    ensures shown == None <==> !ScalarTruthy(stored)
  {
    if ScalarTruthy(stored) then Some("***") else None
  }

  /** The weather part of a settings read. */
  datatype WeatherView = WeatherView(enabled: bool, apiKey: Option<string>, smartSkipEnabled: bool, rainThreshold: Scalar)

  /** A settings read: the stored profile and model, the profile's summary, and the weather block. */
  datatype SettingsView = SettingsView(useCaseProfile: Scalar, controllerModel: Scalar, profileInfo: ProfileOption, weather: WeatherView)

  /** The profile a stored profile column resolves to; anything but a known id falls back. */
  function ProfileOfColumn(v: Scalar): (p: Profile)
    ensures v.Str? && v.s in Keys(USE_CASE_PROFILES) ==> p.id == v.s
    ensures !(v.Str? && v.s in Keys(USE_CASE_PROFILES)) ==> p == DEFAULT_PROFILE
    ensures p.id in Keys(USE_CASE_PROFILES)
  {
    ProfileTableShape();
    if v.Str? then GetProfile(v.s) else DEFAULT_PROFILE
  }

  /** The response body of a settings read or update, built from the stored row. */
  function ViewOf(row: SettingsRow): (view: SettingsView)
    requires Complete(row)
    ensures view.weather.apiKey != None ==> view.weather.apiKey == Some("***")
    ensures view.weather.apiKey.Some? <==> ScalarTruthy(row[ApiKeyColumn])
    ensures view.useCaseProfile == row[UseCaseProfileColumn] && view.controllerModel == row[ControllerModelColumn]
    ensures view.profileInfo.id == ProfileOfColumn(row[UseCaseProfileColumn]).id
    ensures view.profileInfo.id in Keys(USE_CASE_PROFILES)
    ensures view.weather.enabled <==> ScalarTruthy(row[WeatherEnabledColumn])
    ensures view.weather.smartSkipEnabled <==> ScalarTruthy(row[SmartSkipColumn])
  {
    SettingsView(row[UseCaseProfileColumn], row[ControllerModelColumn],
      OptionOf(ProfileOfColumn(row[UseCaseProfileColumn])),
      WeatherView(ScalarTruthy(row[WeatherEnabledColumn]), MaskApiKey(row[ApiKeyColumn]),
        ScalarTruthy(row[SmartSkipColumn]), row[RainThresholdColumn]))
  }

  /** `getSettings`: 404 without a settings row, else the masked view. */
  function GetSettings(row: Option<SettingsRow>): (r: Result<SettingsView, Refusal>)
    requires row.Some? ==> Complete(row.value)
    ensures r.Err? <==> row.None?
    ensures r.Err? ==> r.error == Refusal(HTTP_NOT_FOUND, SETTINGS_NOT_FOUND)
    ensures r.Ok? ==> r.value == ViewOf(row.value)
  {
    if row.None? then Err(Refusal(HTTP_NOT_FOUND, SETTINGS_NOT_FOUND)) else Ok(ViewOf(row.value))
  }

  // ---------------------------------------------------------------- controller facts

  /** The connection type shown for a model: WiFi before Bluetooth before wired. */
  function ControllerType(c: ControllerSpec): (kind: string)
    ensures kind == "WiFi" <==> "wifi" in c.features
    ensures kind == "Bluetooth" <==> "wifi" !in c.features && "bluetooth" in c.features
    ensures kind == "Wired" <==> "wifi" !in c.features && "bluetooth" !in c.features
  {
    if "wifi" in c.features then "WiFi"
    else if "bluetooth" in c.features then "Bluetooth"
    else "Wired"
  }

  /** `getControllersByMfr`: the manufacturer's models, with a notice when there are none. */
  function ControllersOfManufacturer(manufacturerId: string): (r: (seq<ControllerSpec>, Option<string>))
    ensures r.0 == GetControllersByManufacturer(manufacturerId)
    ensures r.1.Some? <==> r.0 == []
    ensures r.1.Some? ==> r.1.value == NO_CONTROLLERS
  {
    var models := GetControllersByManufacturer(manufacturerId);
    (models, if models == [] then Some(NO_CONTROLLERS) else None)
  }

  // ---------------------------------------------------------------- the closest preset

  function Abs(x: int): nat {
    if x < 0 then -x else x
  }

  /** The `reduce` step: keep the earlier count unless the next one is strictly closer. */
  function ReduceClosest(prev: int, rest: seq<int>, target: int): int
    decreases |rest|
  {
    if rest == [] then prev
    else ReduceClosest(if Abs(rest[0] - target) < Abs(prev - target) then rest[0] else prev, rest[1..], target)
  }

  /** The reduction returns one of the counts it was given. */
  lemma {:induction false} ReduceClosestIn(prev: int, rest: seq<int>, target: int)
    ensures ReduceClosest(prev, rest, target) in [prev] + rest
    decreases |rest|
  {
    if rest != [] {
      var next := if Abs(rest[0] - target) < Abs(prev - target) then rest[0] else prev;
      ReduceClosestIn(next, rest[1..], target);
      assert [prev] + rest == [prev, rest[0]] + rest[1..];
    }
  }

  /** The reduction returns a count at least as close to the target as every other. */
  lemma {:induction false} ReduceClosestNearest(prev: int, rest: seq<int>, target: int)
    ensures forall v | v in [prev] + rest ::
      Abs(ReduceClosest(prev, rest, target) - target) <= Abs(v - target)
    decreases |rest|
  {
    if rest != [] {
      var next := if Abs(rest[0] - target) < Abs(prev - target) then rest[0] else prev;
      ReduceClosestNearest(next, rest[1..], target);
      assert next in [next] + rest[1..];
      assert [prev] + rest == [prev, rest[0]] + rest[1..];
      forall v | v in [prev] + rest
        ensures Abs(ReduceClosest(prev, rest, target) - target) <= Abs(v - target)
      {
        if v != prev && v != rest[0] {
          assert v in [next] + rest[1..];
        }
      }
    }
  }

  /**
   * Over an ascending list the reduction keeps the first of two equally close
   * counts, so it returns the smallest of the closest ones.
   */
  lemma {:induction false} ReduceClosestPrefersSmaller(prev: int, rest: seq<int>, target: int)
    requires forall v | v in rest :: prev < v
    requires forall i, j | 0 <= i < j < |rest| :: rest[i] < rest[j]
    ensures forall v | v in [prev] + rest && Abs(v - target) == Abs(ReduceClosest(prev, rest, target) - target) ::
      ReduceClosest(prev, rest, target) <= v
    decreases |rest|
  {
    if rest != [] {
      var next := if Abs(rest[0] - target) < Abs(prev - target) then rest[0] else prev;
      var r := ReduceClosest(prev, rest, target);
      forall v | v in rest[1..] ensures next < v {
        var k :| 0 <= k < |rest[1..]| && rest[1..][k] == v;
        assert rest[k + 1] == v && rest[0] < rest[k + 1] && v in rest;
      }
      forall i, j | 0 <= i < j < |rest[1..]| ensures rest[1..][i] < rest[1..][j] {
        assert rest[1..][i] == rest[i + 1] && rest[1..][j] == rest[j + 1];
      }
      ReduceClosestPrefersSmaller(next, rest[1..], target);
      ReduceClosestNearest(next, rest[1..], target);
      assert next in [next] + rest[1..];
      assert r == ReduceClosest(next, rest[1..], target);
      assert [prev] + rest == [prev, rest[0]] + rest[1..];
      forall v | v in [prev] + rest && Abs(v - target) == Abs(r - target) ensures r <= v {
        if v == prev || v == rest[0] {
          assert r <= next;
        } else {
          assert v in [next] + rest[1..];
        }
      }
    }
  }

  /** The preset count chosen for a zone count that has no preset of its own. */
  function ClosestCount(target: int): (c: int)
    ensures c in VALID_ZONE_COUNTS
    ensures forall v | v in VALID_ZONE_COUNTS :: Abs(c - target) <= Abs(v - target)
    ensures forall v | v in VALID_ZONE_COUNTS && Abs(v - target) == Abs(c - target) :: c <= v
  {
    ReduceClosestIn(VALID_ZONE_COUNTS[0], VALID_ZONE_COUNTS[1..], target);
    ReduceClosestNearest(VALID_ZONE_COUNTS[0], VALID_ZONE_COUNTS[1..], target);
    ReduceClosestPrefersSmaller(VALID_ZONE_COUNTS[0], VALID_ZONE_COUNTS[1..], target);
    assert [VALID_ZONE_COUNTS[0]] + VALID_ZONE_COUNTS[1..] == VALID_ZONE_COUNTS;
    ReduceClosest(VALID_ZONE_COUNTS[0], VALID_ZONE_COUNTS[1..], target)
  }

  /** The preset used for a controller's zone count: its own when it has one, else the closest. */
  function PresetFor(target: int): (z: ZoneConfig)
    ensures IsValidZoneCount(target) ==> z == ZONE_CONFIGS[target]
    ensures !IsValidZoneCount(target) ==> z == ZONE_CONFIGS[ClosestCount(target)]
  {
    PresetsAreTheValidCounts(target);
    match GetZoneConfig(target)
    case Some(z) => z
    case None =>
      PresetsAreTheValidCounts(ClosestCount(target));
      GetZoneConfig(ClosestCount(target)).value
  }

  /** Whether choosing a controller re-initialises the zones table. */
  predicate NeedsZoneInit(currentZoneCount: nat, autoInitializeZones: bool, targetZoneCount: int) {
    currentZoneCount == 0 || (autoInitializeZones && currentZoneCount != targetZoneCount)
  }

  /** The rows a preset puts in the zones table. */
  function PresetRows(preset: ZoneConfig): (rows: seq<ZoneRow>)
    ensures |rows| == |preset.zones|
  {
    seq(|preset.zones|, i requires 0 <= i < |preset.zones| =>
      ZoneRow(preset.zones[i].id, preset.zones[i].name, preset.zones[i].gpioPin, PRESET_DEFAULT_DURATION))
  }

  /** The loop inserting a preset's zones, in order, each with the default duration. */
  method InsertPresetZones(preset: ZoneConfig) returns (rows: seq<ZoneRow>)
    ensures rows == PresetRows(preset)
  {
    rows := [];
    for i := 0 to |preset.zones|
      invariant rows == PresetRows(preset)[..i]
    {
      var zone := preset.zones[i];
      rows := rows + [ZoneRow(zone.id, zone.name, zone.gpioPin, PRESET_DEFAULT_DURATION)];
    }
  }

  /**
   * A preset's rows are numbered 1 .. n, named "Zone i", on pairwise distinct pins
   * (so the zones table's unique pin column accepts them), with the default duration.
   */
  lemma PresetRowsShape(n: int)
    requires n in ZONE_CONFIGS
    ensures |PresetRows(ZONE_CONFIGS[n])| == n
    ensures forall i | 0 <= i < n :: PresetRows(ZONE_CONFIGS[n])[i].id == i + 1
    ensures forall i | 0 <= i < n :: PresetRows(ZONE_CONFIGS[n])[i].name == "Zone " + NatToString(i + 1)
    ensures forall i | 0 <= i < n :: PresetRows(ZONE_CONFIGS[n])[i].defaultDuration == PRESET_DEFAULT_DURATION
    ensures forall i, j | 0 <= i < j < n :: PresetRows(ZONE_CONFIGS[n])[i].gpioPin != PresetRows(ZONE_CONFIGS[n])[j].gpioPin
  {
    PresetShape(n);
  }

  // ---------------------------------------------------------------- the update

  /** An assignment for a field the request gives, none for an `undefined` one. */
  function Given(column: Column, v: Option<Scalar>): (r: seq<Assignment>)
    ensures r == [] <==> v.None?
    ensures forall a | a in r :: a.column == column
    ensures v.Some? ==> r == [Assignment(column, v.value)]
  {
    if v.Some? then [Assignment(column, v.value)] else []
  }

  /** A flag stored as 1 or 0 from its truthiness. */
  function Flag(column: Column, v: Option<bool>): (r: seq<Assignment>)
    ensures r == [] <==> v.None?
    ensures forall a | a in r :: a.column == column && (a.value == Num(0) || a.value == Num(1))
    ensures v.Some? ==> r == [Assignment(column, Num(if v.value then 1 else 0))]
  {
    if v.Some? then [Assignment(column, Num(if v.value then 1 else 0))] else []
  }

  /** The assignments of the `location` object, in the order lat, lon, zip, city. */
  function LocationAssignments(p: Option<LocationPatch>): seq<Assignment> {
    if p.None? then []
    else Given(LatColumn, p.value.lat) + Given(LonColumn, p.value.lon) + Given(ZipColumn, p.value.zip)
         + Given(CityColumn, p.value.city)
  }

  /** The assignments of the `waterRate` object. */
  function WaterRateAssignments(p: Option<WaterRatePatch>): seq<Assignment> {
    if p.None? then [] else Given(RatePerGallonColumn, p.value.perGallon) + Given(CurrencyColumn, p.value.currency)
  }

  /** The assignments of the `weather` object; a key of "***" (the masked value) is not stored. */
  function WeatherAssignments(p: Option<WeatherPatch>): seq<Assignment> {
    if p.None? then []
    else
      var key := if p.value.apiKey == Some(Str("***")) then None else p.value.apiKey;
      Flag(WeatherEnabledColumn, p.value.enabled) + Given(ApiKeyColumn, key)
      + Flag(SmartSkipColumn, p.value.smartSkipEnabled) + Given(RainThresholdColumn, p.value.rainThreshold)
  }

  /** The profile id the request names, as its one assignment. */
  function ProfileAssignments(useCaseProfile: Option<GivenId>): seq<Assignment> {
    if useCaseProfile.Some? then [Assignment(UseCaseProfileColumn, Str(useCaseProfile.value))] else []
  }

  /** A chosen controller model and, with it, that model's concurrency ceiling. */
  function ControllerAssignments(model: string, controller: ControllerSpec): seq<Assignment> {
    [Assignment(ControllerModelColumn, Str(model)), Assignment(MaxConcurrentColumn, Num(controller.maxConcurrentZones))]
  }

  /** The assignments of the three patch objects, in the order location, water rate, weather. */
  function PatchAssignments(req: SettingsRequest): seq<Assignment> {
    LocationAssignments(req.location) + WaterRateAssignments(req.waterRate) + WeatherAssignments(req.weather)
  }

  /**
   * The UPDATE's assignments in the order the request is read: profile, then the
   * controller model with its concurrency ceiling, then location, water rate and weather.
   */
  function Assignments(req: SettingsRequest, controller: Option<ControllerSpec>): seq<Assignment>
    requires req.controllerModel.Some? <==> controller.Some?
  {
    CheckedAssignments(req, controller) + PatchAssignments(req)
  }

  /** The assignments of the two validated fields: the profile, then the controller pair. */
  function CheckedAssignments(req: SettingsRequest, controller: Option<ControllerSpec>): seq<Assignment>
    requires req.controllerModel.Some? <==> controller.Some?
  {
    ProfileAssignments(req.useCaseProfile)
    + (if controller.Some? then ControllerAssignments(req.controllerModel.value, controller.value) else [])
  }

  /** Whether a patch object gives at least one field. */
  predicate LocationGiven(p: Option<LocationPatch>) {
    p.Some? && (p.value.lat.Some? || p.value.lon.Some? || p.value.zip.Some? || p.value.city.Some?)
  }

  predicate WaterRateGiven(p: Option<WaterRatePatch>) {
    p.Some? && (p.value.perGallon.Some? || p.value.currency.Some?)
  }

  predicate WeatherGiven(p: Option<WeatherPatch>) {
    p.Some? && (p.value.enabled.Some? || (p.value.apiKey.Some? && p.value.apiKey != Some(Str("***")))
                || p.value.smartSkipEnabled.Some? || p.value.rainThreshold.Some?)
  }

  /** No assignment at all exactly when the request gives no recognised field. */
  lemma AssignmentsEmpty(req: SettingsRequest, controller: Option<ControllerSpec>)
    requires req.controllerModel.Some? <==> controller.Some?
    ensures Assignments(req, controller) == [] <==>
      req.useCaseProfile.None? && req.controllerModel.None?
      && !LocationGiven(req.location) && !WaterRateGiven(req.waterRate) && !WeatherGiven(req.weather)
  {
  }

  /** The columns of each patch object. */
  predicate LocationColumn(c: Column) {
    c == LatColumn || c == LonColumn || c == ZipColumn || c == CityColumn
  }

  predicate WaterRateColumn(c: Column) {
    c == RatePerGallonColumn || c == CurrencyColumn
  }

  predicate WeatherColumn(c: Column) {
    c == WeatherEnabledColumn || c == ApiKeyColumn || c == SmartSkipColumn || c == RainThresholdColumn
  }

  /** The location object writes only location columns. */
  lemma LocationColumns(p: Option<LocationPatch>)
    ensures forall a | a in LocationAssignments(p) :: LocationColumn(a.column)
  {
  }

  /** The water-rate object writes only water-rate columns. */
  lemma WaterRateColumns(p: Option<WaterRatePatch>)
    ensures forall a | a in WaterRateAssignments(p) :: WaterRateColumn(a.column)
  {
  }

  /** The weather object writes only weather columns, never the masked key, and its two flags as 1 or 0. */
  lemma WeatherValues(p: Option<WeatherPatch>)
    ensures forall a | a in WeatherAssignments(p) :: WeatherColumn(a.column)
    ensures forall a | a in WeatherAssignments(p) && a.column == ApiKeyColumn :: a.value != Str("***")
    ensures forall a | a in WeatherAssignments(p) && (a.column == WeatherEnabledColumn || a.column == SmartSkipColumn) ::
      a.value == Num(0) || a.value == Num(1)
  {
  }

  /** The patch objects never write the profile, model or ceiling columns. */
  lemma PatchColumns(req: SettingsRequest)
    ensures forall a | a in PatchAssignments(req) ::
      a.column != UseCaseProfileColumn && a.column != ControllerModelColumn && a.column != MaxConcurrentColumn
  {
    LocationColumns(req.location);
    WaterRateColumns(req.waterRate);
    WeatherValues(req.weather);
    forall a | a in PatchAssignments(req)
      ensures a.column != UseCaseProfileColumn && a.column != ControllerModelColumn && a.column != MaxConcurrentColumn
    {
      assert a in LocationAssignments(req.location) || a in WaterRateAssignments(req.waterRate)
        || a in WeatherAssignments(req.weather);
    }
  }

  /** The validated fields write only the profile, model and ceiling columns. */
  lemma CheckedColumns(req: SettingsRequest, controller: Option<ControllerSpec>)
    requires req.controllerModel.Some? <==> controller.Some?
    ensures forall a | a in CheckedAssignments(req, controller) ::
      a.column == UseCaseProfileColumn || a.column == ControllerModelColumn || a.column == MaxConcurrentColumn
  {
  }

  /**
   * What the update writes: the masked key "***" is never stored, and the two
   * flags are stored as 1 or 0.
   */
  lemma AssignmentValues(req: SettingsRequest, controller: Option<ControllerSpec>)
    requires req.controllerModel.Some? <==> controller.Some?
    ensures forall a | a in Assignments(req, controller) && a.column == ApiKeyColumn :: a.value != Str("***")
    ensures forall a | a in Assignments(req, controller) && (a.column == WeatherEnabledColumn || a.column == SmartSkipColumn) ::
      a.value == Num(0) || a.value == Num(1)
  {
    CheckedColumns(req, controller);
    LocationColumns(req.location);
    WaterRateColumns(req.waterRate);
    WeatherValues(req.weather);
    forall a | a in Assignments(req, controller) && WeatherColumn(a.column)
      ensures a in WeatherAssignments(req.weather)
    {
      if a !in CheckedAssignments(req, controller) {
        assert a in LocationAssignments(req.location) + WaterRateAssignments(req.waterRate)
          || a in WeatherAssignments(req.weather);
      }
    }
  }

  /** The row after the UPDATE: each assignment in turn overwrites its column. */
  function Apply(row: SettingsRow, assignments: seq<Assignment>): (r: SettingsRow)
    ensures r.Keys == row.Keys + set a | a in assignments :: a.column
    decreases |assignments|
  {
    if assignments == [] then row
    else Apply(row[assignments[0].column := assignments[0].value], assignments[1..])
  }

  /** Writing two lists of assignments is writing the first, then the second. */
  lemma {:induction false} ApplyAppend(row: SettingsRow, first: seq<Assignment>, second: seq<Assignment>)
    ensures Apply(row, first + second) == Apply(Apply(row, first), second)
    decreases |first|
  {
    if first != [] {
      assert (first + second)[1..] == first[1..] + second;
      ApplyAppend(row[first[0].column := first[0].value], first[1..], second);
    } else {
      assert first + second == second;
    }
  }

  /** A column no assignment names keeps its value. */
  lemma {:induction false} ApplyUntouched(row: SettingsRow, assignments: seq<Assignment>, c: Column)
    requires c in row
    requires forall a | a in assignments :: a.column != c
    ensures Apply(row, assignments)[c] == row[c]
    decreases |assignments|
  {
    if assignments != [] {
      assert assignments[0] in assignments;
      assert forall a | a in assignments[1..] :: a in assignments;
      ApplyUntouched(row[assignments[0].column := assignments[0].value], assignments[1..], c);
    }
  }

  /** An assignment that no later one overrides decides its column. */
  lemma ApplyWrites(row: SettingsRow, before: seq<Assignment>, x: Assignment, after: seq<Assignment>)
    requires forall a | a in after :: a.column != x.column
    ensures Apply(row, before + [x] + after)[x.column] == x.value
  {
    ApplyAppend(row, before + [x], after);
    ApplyAppend(row, before, [x]);
    ApplyUntouched(Apply(row, before + [x]), after, x.column);
  }

  /** The refusal of an unknown profile id: 400 unless the id names a profile. */
  function ProfileRefusal(profiles: seq<Entry<Profile>>, profileId: string): (r: Option<Refusal>)
    ensures r.None? <==> profileId in Keys(profiles)
    ensures r.Some? ==> r.value == Refusal(HTTP_BAD_REQUEST, INVALID_PROFILE)
  {
    if profileId in Keys(profiles) then None else Some(Refusal(HTTP_BAD_REQUEST, INVALID_PROFILE))
  }

  /**
   * The profile test as the controller writes it: it asks `getProfile` and refuses
   * when the answer is missing, which it never is.
   */
  function ProfileRefusalAsWritten(profileId: string): (r: Option<Refusal>)
    ensures r.None?
  {
    var profile: Option<Profile> := Some(GetProfile(profileId));
    if profile.None? then Some(Refusal(HTTP_BAD_REQUEST, INVALID_PROFILE)) else None
  }

  /** An id that names no profile passes the written test, and would be stored as the profile. */
  lemma UnknownProfilePassesAsWritten()
    ensures "lawn" !in Keys(USE_CASE_PROFILES)
    ensures ProfileRefusalAsWritten("lawn").None? && ProfileRefusal(USE_CASE_PROFILES, "lawn").Some?
    ensures GetProfile("lawn") == DEFAULT_PROFILE
  {
    ProfileTableShape();
    assert forall i | 0 <= i < |USE_CASE_PROFILES| :: USE_CASE_PROFILES[i].key != "lawn" by {
      ProfileEntries();
      forall i | 0 <= i < |USE_CASE_PROFILES| ensures USE_CASE_PROFILES[i].key != "lawn" {
        assert ProfileKeyPosition(USE_CASE_PROFILES[i].key) == i;
        assert ProfileKeyPosition("lawn") == -1;
      }
    }
  }

  /** The outcome of an accepted update: the new row, the zones table, and the response message. */
  datatype Updated = Updated(row: SettingsRow, zones: seq<ZoneRow>, zonesInitialized: bool, message: string)

  /** The update's decision, before any write: the controller, the preset to install, and the assignments. */
  datatype UpdatePlan = UpdatePlan(controller: Option<ControllerSpec>, preset: Option<ZoneConfig>, assignments: seq<Assignment>)

  /** The controller a request names, looked up in the model table. */
  function ChosenController(controllers: seq<Entry<ControllerSpec>>, req: SettingsRequest): Option<ControllerSpec> {
    if req.controllerModel.Some? then Lookup(controllers, req.controllerModel.value) else None
  }

  /** Which profile test the update applies: the one the controller has, or the intended one. */
  datatype ProfileTest = AsWritten | Intended

  /** The refusal, if any, that the chosen test gives a requested profile id. */
  function ProfileCheck(test: ProfileTest, profiles: seq<Entry<Profile>>, profileId: string): (r: Option<Refusal>)
    ensures test.AsWritten? ==> r.None?
    ensures test.Intended? ==> (r.None? <==> profileId in Keys(profiles))
    ensures r.Some? ==> r.value == Refusal(HTTP_BAD_REQUEST, INVALID_PROFILE)
  {
    match test
    case AsWritten => ProfileRefusalAsWritten(profileId)
    case Intended => ProfileRefusal(profiles, profileId)
  }

  /** The request names no profile, or one the chosen test lets through. */
  predicate ProfileAccepted(test: ProfileTest, profiles: seq<Entry<Profile>>, req: SettingsRequest) {
    req.useCaseProfile.None? || ProfileCheck(test, profiles, req.useCaseProfile.value).None?
  }

  /** The request names no controller model or a known one. */
  predicate ControllerAccepted(controllers: seq<Entry<ControllerSpec>>, req: SettingsRequest) {
    req.controllerModel.None? || req.controllerModel.value in Keys(controllers)
  }

  /**
   * `updateSettings`' checks in order, against the profile table and the model
   * table: the profile test, then an unknown controller model, then a request
   * with nothing to write. With `AsWritten` the profile test never refuses.
   */
  function PlanUpdate(test: ProfileTest, profiles: seq<Entry<Profile>>, controllers: seq<Entry<ControllerSpec>>,
                      currentZoneCount: nat, req: SettingsRequest): (r: Result<UpdatePlan, Refusal>)
    ensures !ProfileAccepted(test, profiles, req) ==> r == Err(Refusal(HTTP_BAD_REQUEST, INVALID_PROFILE))
    ensures ProfileAccepted(test, profiles, req) && !ControllerAccepted(controllers, req) ==>
      r == Err(Refusal(HTTP_BAD_REQUEST, INVALID_CONTROLLER))
    ensures ProfileAccepted(test, profiles, req) && ControllerAccepted(controllers, req) ==>
      (r == Err(Refusal(HTTP_BAD_REQUEST, NO_UPDATES)) <==> Assignments(req, ChosenController(controllers, req)) == [])
    ensures r.Ok? ==> ProfileAccepted(test, profiles, req) && ControllerAccepted(controllers, req)
    ensures r.Ok? ==> r.value.controller == ChosenController(controllers, req)
    ensures r.Ok? ==> r.value.assignments == Assignments(req, r.value.controller) && r.value.assignments != []
    ensures r.Ok? ==> (r.value.preset.Some? <==>
      r.value.controller.Some? && NeedsZoneInit(currentZoneCount, req.autoInitializeZones, r.value.controller.value.maxZones))
    ensures r.Ok? && r.value.preset.Some? ==> r.value.preset.value == PresetFor(r.value.controller.value.maxZones)
    ensures r.Err? ==> r.error.status == HTTP_BAD_REQUEST
  {
    if req.useCaseProfile.Some? && ProfileCheck(test, profiles, req.useCaseProfile.value).Some? then
      Err(ProfileCheck(test, profiles, req.useCaseProfile.value).value)
    else if !ControllerAccepted(controllers, req) then Err(Refusal(HTTP_BAD_REQUEST, INVALID_CONTROLLER))
    else
      var controller := ChosenController(controllers, req);
      var preset :=
        if controller.Some? && NeedsZoneInit(currentZoneCount, req.autoInitializeZones, controller.value.maxZones)
        then Some(PresetFor(controller.value.maxZones)) else None;
      var assignments := Assignments(req, controller);
      if assignments == [] then Err(Refusal(HTTP_BAD_REQUEST, NO_UPDATES))
      else Ok(UpdatePlan(controller, preset, assignments))
  }

  /** The response message: plain, or naming the zones a preset installed. */
  function UpdateMessage(controller: Option<ControllerSpec>, preset: Option<ZoneConfig>): string
    requires preset.Some? ==> controller.Some?
  {
    if preset.Some?
    then "Settings updated. Initialized " + NatToString(|preset.value.zones|) + " zones for " + controller.value.name
    else UPDATED
  }

  /**
   * `updateSettings` on the stored row and the zones table, validating against the
   * profile table and the controller catalog: a refused request changes neither;
   * an accepted one writes its assignments and, when a preset is due, replaces
   * every zone with the preset's rows. The handler as the controller has it is
   * `UpdateSettings(AsWritten, ...)`; `Intended` gives the corrected handler.
   */
  method UpdateSettings(test: ProfileTest, row: SettingsRow, zones: seq<ZoneRow>, req: SettingsRequest)
    returns (r: Result<Updated, Refusal>)
    ensures var plan := PlanUpdate(test, USE_CASE_PROFILES, CONTROLLERS, |zones|, req);
      (r.Err? <==> plan.Err?) && (r.Err? ==> r.error == plan.error)
      && (r.Ok? ==>
            r.value.row == Apply(row, plan.value.assignments)
            && r.value.zones == (if plan.value.preset.Some? then PresetRows(plan.value.preset.value) else zones)
            && r.value.zonesInitialized == plan.value.preset.Some?
            && r.value.message == UpdateMessage(plan.value.controller, plan.value.preset))
  {
    var plan := PlanUpdate(test, USE_CASE_PROFILES, CONTROLLERS, |zones|, req);
    if plan.Err? {
      return Err(plan.error);
    }
    var p := plan.value;
    var newZones := zones;
    if p.preset.Some? {
      newZones := InsertPresetZones(p.preset.value);
    }
    r := Ok(Updated(Apply(row, p.assignments), newZones, p.preset.Some?, UpdateMessage(p.controller, p.preset)));
  }

  /** Writing two assignments sets their columns in order. */
  lemma ApplyPair(row: SettingsRow, x: Assignment, y: Assignment)
    ensures Apply(row, [x, y]) == row[x.column := x.value][y.column := y.value]
  {
    var once := row[x.column := x.value];
    assert [x, y][1..] == [y] && [y][1..] == [];
    assert Apply(row, [x, y]) == Apply(once, [y]);
    assert Apply(once, [y]) == Apply(once[y.column := y.value], []);
  }

  /** The validated fields leave the profile column as requested, or as stored when none is given. */
  lemma CheckedWriteProfile(row: SettingsRow, req: SettingsRequest, controller: Option<ControllerSpec>)
    requires UseCaseProfileColumn in row && (req.controllerModel.Some? <==> controller.Some?)
    ensures Apply(row, CheckedAssignments(req, controller))[UseCaseProfileColumn] ==
      if req.useCaseProfile.Some? then Str(req.useCaseProfile.value) else row[UseCaseProfileColumn]
  {
    var head := ProfileAssignments(req.useCaseProfile);
    var pair := if controller.Some? then ControllerAssignments(req.controllerModel.value, controller.value) else [];
    assert forall a | a in pair :: a.column != UseCaseProfileColumn;
    ApplyAppend(row, head, pair);
    if req.useCaseProfile.Some? {
      assert head[1..] == [];
      assert Apply(row, head) == Apply(row[UseCaseProfileColumn := Str(req.useCaseProfile.value)], []);
    }
    ApplyUntouched(Apply(row, head), pair, UseCaseProfileColumn);
  }

  /** The profile column after the UPDATE: the requested id when one is given, else the stored one. */
  lemma AssignmentsWriteProfile(row: SettingsRow, req: SettingsRequest, controller: Option<ControllerSpec>)
    requires UseCaseProfileColumn in row && (req.controllerModel.Some? <==> controller.Some?)
    ensures Apply(row, Assignments(req, controller))[UseCaseProfileColumn] ==
      if req.useCaseProfile.Some? then Str(req.useCaseProfile.value) else row[UseCaseProfileColumn]
  {
    ApplyAppend(row, CheckedAssignments(req, controller), PatchAssignments(req));
    CheckedWriteProfile(row, req, controller);
    PatchColumns(req);
    ApplyUntouched(Apply(row, CheckedAssignments(req, controller)), PatchAssignments(req), UseCaseProfileColumn);
  }

  /** With a controller chosen, the UPDATE stores its model id and its concurrency ceiling. */
  lemma AssignmentsWriteController(row: SettingsRow, req: SettingsRequest, c: ControllerSpec)
    requires req.controllerModel.Some?
    ensures Apply(row, Assignments(req, Some(c)))[ControllerModelColumn] == Str(req.controllerModel.value)
    ensures Apply(row, Assignments(req, Some(c)))[MaxConcurrentColumn] == Num(c.maxConcurrentZones)
  {
    var head := ProfileAssignments(req.useCaseProfile);
    var pair := ControllerAssignments(req.controllerModel.value, c);
    ApplyAppend(row, CheckedAssignments(req, Some(c)), PatchAssignments(req));
    ApplyAppend(row, head, pair);
    ApplyPair(Apply(row, head), pair[0], pair[1]);
    assert pair == [pair[0], pair[1]];
    var written := Apply(Apply(row, head), pair);
    PatchColumns(req);
    ApplyUntouched(written, PatchAssignments(req), ControllerModelColumn);
    ApplyUntouched(written, PatchAssignments(req), MaxConcurrentColumn);
  }

  /** Every model of a catalog has a ceiling of at least one. */
  predicate WellFormedCatalog(controllers: seq<Entry<ControllerSpec>>) {
    forall i | 0 <= i < |controllers| :: WellFormedSpec(controllers[i].value)
  }

  /** The catalog the update reads gives every model a ceiling of at least one. */
  lemma ControllerCatalogWellFormed()
    ensures WellFormedCatalog(CONTROLLERS)
  {
    ControllerTableShape();
  }

  /**
   * Choosing a controller model stores its id and sets the ceiling the zone manager
   * reads on every start to that model's `max_concurrent_zones`, which is at least one.
   */
  lemma ControllerSetsConcurrencyLimit(test: ProfileTest, profiles: seq<Entry<Profile>>, controllers: seq<Entry<ControllerSpec>>,
                                       row: SettingsRow, currentZoneCount: nat, req: SettingsRequest)
    requires WellFormedCatalog(controllers)
    requires PlanUpdate(test, profiles, controllers, currentZoneCount, req).Ok? && req.controllerModel.Some?
    ensures var after := Apply(row, PlanUpdate(test, profiles, controllers, currentZoneCount, req).value.assignments);
      var c := Lookup(controllers, req.controllerModel.value).value;
      after[ControllerModelColumn] == Str(req.controllerModel.value)
      && after[MaxConcurrentColumn] == Num(c.maxConcurrentZones)
      && ConcurrencyLimit(Some(after[MaxConcurrentColumn].n)) == c.maxConcurrentZones >= 1
  {
    var c := Lookup(controllers, req.controllerModel.value).value;
    AssignmentsWriteController(row, req, c);
  }

  /**
   * With the corrected profile test, the stored profile stays an id that names a
   * profile: a stored known profile is never replaced by an unknown one.
   */
  lemma StoredProfileStaysKnown(profiles: seq<Entry<Profile>>, controllers: seq<Entry<ControllerSpec>>,
                                row: SettingsRow, currentZoneCount: nat, req: SettingsRequest)
    requires Complete(row) && row[UseCaseProfileColumn].Str? && row[UseCaseProfileColumn].s in Keys(profiles)
    requires PlanUpdate(Intended, profiles, controllers, currentZoneCount, req).Ok?
    ensures var after := Apply(row, PlanUpdate(Intended, profiles, controllers, currentZoneCount, req).value.assignments);
      after[UseCaseProfileColumn].Str? && after[UseCaseProfileColumn].s in Keys(profiles)
  {
    AssignmentsWriteProfile(row, req, ChosenController(controllers, req));
  }

  /**
   * As written, any requested profile id is accepted and stored, whether or not it
   * names a profile, as long as the controller model (if any) is known.
   */
  lemma AsWrittenStoresAnyProfile(profiles: seq<Entry<Profile>>, controllers: seq<Entry<ControllerSpec>>,
                                  row: SettingsRow, currentZoneCount: nat, req: SettingsRequest)
    requires UseCaseProfileColumn in row && req.useCaseProfile.Some? && ControllerAccepted(controllers, req)
    ensures PlanUpdate(AsWritten, profiles, controllers, currentZoneCount, req).Ok?
    ensures var after := Apply(row, PlanUpdate(AsWritten, profiles, controllers, currentZoneCount, req).value.assignments);
      after[UseCaseProfileColumn] == Str(req.useCaseProfile.value)
  {
    var controller := ChosenController(controllers, req);
    assert Assignments(req, controller)[0] == Assignment(UseCaseProfileColumn, Str(req.useCaseProfile.value));
    AssignmentsWriteProfile(row, req, controller);
  }

  /**
   * Sending back what a read showed never loses the stored key: the masked "***"
   * is skipped, and an unset key reads back as null and stays unset.
   */
  lemma EchoedKeyKeepsStoredKey(stored: Scalar)
    ensures var echoed := if MaskApiKey(stored).Some? then Str("***") else Null;
      var w := WeatherAssignments(Some(WeatherPatch(None, Some(echoed), None, None)));
      (ScalarTruthy(stored) ==> w == []) && (!ScalarTruthy(stored) ==> w == [Assignment(ApiKeyColumn, Null)])
  {
  }

  /** `getProfileDetails`: every id answers, an unknown one with the fallback profile; the 404 branch is never taken. */
  function GetProfileDetails(profileId: string): (r: Result<Profile, Refusal>)
    ensures r.Ok?
    ensures profileId in Keys(USE_CASE_PROFILES) ==> r.value.id == profileId
    ensures profileId !in Keys(USE_CASE_PROFILES) ==> r.value == DEFAULT_PROFILE
  {
    var profile: Option<Profile> := Some(GetProfile(profileId));
    if profile.None? then Err(Refusal(HTTP_NOT_FOUND, "Profile not found")) else Ok(profile.value)
  }

  /** `getControllerDetails`: 404 for an unknown model, else the model with its connection type. */
  function GetControllerDetails(controllerId: string): (r: Result<(ControllerSpec, string), Refusal>)
    ensures r.Err? <==> controllerId !in Keys(CONTROLLERS)
    ensures r.Err? ==> r.error == Refusal(HTTP_NOT_FOUND, "Controller not found")
    ensures r.Ok? ==> r.value.0.id == controllerId && r.value.1 == ControllerType(r.value.0)
  {
    match GetControllerConfig(controllerId)
    case None => Err(Refusal(HTTP_NOT_FOUND, "Controller not found"))
    case Some(c) => Ok((c, ControllerType(c)))
  }

  /** `getManufacturerDetails`: 404 for an unknown manufacturer, else its entry. */
  function GetManufacturerDetails(manufacturerId: string): (r: Result<Manufacturer, Refusal>)
    ensures r.Err? <==> manufacturerId !in Keys(MANUFACTURERS)
    ensures r.Err? ==> r.error == Refusal(HTTP_NOT_FOUND, "Manufacturer not found")
    ensures r.Ok? ==> r.value.id == manufacturerId
  {
    match GetManufacturer(manufacturerId)
    case None => Err(Refusal(HTTP_NOT_FOUND, "Manufacturer not found"))
    case Some(m) => Ok(m)
  }
}
