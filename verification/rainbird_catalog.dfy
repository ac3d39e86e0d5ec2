/**
 * The Rain Bird controller library: the Rain Bird models keyed by id, with the same
 * lookups as the multi-brand library plus a search by series prefix.
 */
module RainBirdCatalog {
  import opened Wrappers
  import opened Strings
  import opened Catalog
  import opened ControllerCatalog

  /** `RAINBIRD_CONTROLLERS`, in declaration order. */
  const ESP_ME: Entry<ControllerSpec> := Entry("esp-me",
    ControllerSpec("esp-me", "ESP-Me", "Rain Bird", 3, 3, 1,
      ["wifi", "app_control", "weather_integration", "cloud_based"],
      ["small_garden", "container_garden"]))
  const ESP_4ME: Entry<ControllerSpec> := Entry("esp-4me",
    ControllerSpec("esp-4me", "ESP-4Me", "Rain Bird", 4, 4, 1,
      ["wifi", "app_control", "weather_integration", "seasonal_adjust"],
      ["residential_lawn", "small_garden"]))
  const ESP_RZX4: Entry<ControllerSpec> := Entry("esp-rzx4",
    ControllerSpec("esp-rzx4", "ESP-RZX 4-Station", "Rain Bird", 4, 4, 1,
      ["seasonal_adjust", "easy_retrieve"],
      ["residential_lawn", "small_garden"]))
  const ESP_RZX6: Entry<ControllerSpec> := Entry("esp-rzx6",
    ControllerSpec("esp-rzx6", "ESP-RZX 6-Station", "Rain Bird", 6, 6, 1,
      ["seasonal_adjust", "easy_retrieve"],
      ["residential_lawn", "landscaping"]))
  const ESP_RZX8: Entry<ControllerSpec> := Entry("esp-rzx8",
    ControllerSpec("esp-rzx8", "ESP-RZX 8-Station", "Rain Bird", 8, 8, 2,
      ["seasonal_adjust", "easy_retrieve"],
      ["residential_lawn", "landscaping"]))
  const ESP_RZXE4: Entry<ControllerSpec> := Entry("esp-rzxe4",
    ControllerSpec("esp-rzxe4", "ESP-RZXe 4-Station", "Rain Bird", 4, 4, 1,
      ["wifi", "app_control", "weather_integration", "seasonal_adjust"],
      ["residential_lawn", "small_garden"]))
  const ESP_RZXE6: Entry<ControllerSpec> := Entry("esp-rzxe6",
    ControllerSpec("esp-rzxe6", "ESP-RZXe 6-Station", "Rain Bird", 6, 6, 2,
      ["wifi", "app_control", "weather_integration", "seasonal_adjust"],
      ["residential_lawn", "landscaping"]))
  const ESP_RZXE8: Entry<ControllerSpec> := Entry("esp-rzxe8",
    ControllerSpec("esp-rzxe8", "ESP-RZXe 8-Station", "Rain Bird", 8, 8, 2,
      ["wifi", "app_control", "weather_integration", "seasonal_adjust"],
      ["residential_lawn", "landscaping"]))
  const ESP_TM2_4: Entry<ControllerSpec> := Entry("esp-tm2-4",
    ControllerSpec("esp-tm2-4", "ESP-TM2 4-Station", "Rain Bird", 4, 4, 1,
      ["advanced_scheduling", "seasonal_adjust", "multiple_programs"],
      ["residential_lawn", "small_garden"]))
  const ESP_TM2_6: Entry<ControllerSpec> := Entry("esp-tm2-6",
    ControllerSpec("esp-tm2-6", "ESP-TM2 6-Station", "Rain Bird", 6, 6, 2,
      ["advanced_scheduling", "seasonal_adjust", "multiple_programs"],
      ["residential_lawn", "landscaping"]))
  const ESP_TM2_8: Entry<ControllerSpec> := Entry("esp-tm2-8",
    ControllerSpec("esp-tm2-8", "ESP-TM2 8-Station", "Rain Bird", 8, 8, 2,
      ["advanced_scheduling", "seasonal_adjust", "multiple_programs"],
      ["residential_lawn", "landscaping", "vineyard"]))
  const ESP_TM2_12: Entry<ControllerSpec> := Entry("esp-tm2-12",
    ControllerSpec("esp-tm2-12", "ESP-TM2 12-Station", "Rain Bird", 12, 12, 2,
      ["advanced_scheduling", "seasonal_adjust", "multiple_programs"],
      ["residential_lawn", "vineyard", "orchard"]))
  const ESP_LXIVM_4: Entry<ControllerSpec> := Entry("esp-lxivm-4",
    ControllerSpec("esp-lxivm-4", "ESP-LXIVM 4-Station", "Rain Bird", 4, 4, 1,
      ["advanced_scheduling", "seasonal_adjust", "multiple_programs"],
      ["residential_lawn", "small_garden"]))
  const ESP_LXIVM_6: Entry<ControllerSpec> := Entry("esp-lxivm-6",
    ControllerSpec("esp-lxivm-6", "ESP-LXIVM 6-Station", "Rain Bird", 6, 6, 2,
      ["advanced_scheduling", "seasonal_adjust", "multiple_programs"],
      ["residential_lawn", "landscaping"]))
  const ESP_LXIVM_9: Entry<ControllerSpec> := Entry("esp-lxivm-9",
    ControllerSpec("esp-lxivm-9", "ESP-LXIVM 9-Station", "Rain Bird", 9, 9, 2,
      ["advanced_scheduling", "seasonal_adjust", "multiple_programs"],
      ["residential_lawn", "landscaping", "vineyard"]))
  const ESP_LXIVM_12: Entry<ControllerSpec> := Entry("esp-lxivm-12",
    ControllerSpec("esp-lxivm-12", "ESP-LXIVM 12-Station", "Rain Bird", 12, 12, 2,
      ["advanced_scheduling", "seasonal_adjust", "multiple_programs"],
      ["residential_lawn", "landscaping", "vineyard", "orchard"]))
  const ESP_LX_BASIC: Entry<ControllerSpec> := Entry("esp-lx-basic",
    ControllerSpec("esp-lx-basic", "ESP-LX Basic", "Rain Bird", 6, 22, 1,
      ["basic_scheduling", "seasonal_adjust", "modular_expansion"],
      ["residential_lawn", "small_garden"]))
  const ESP_LX: Entry<ControllerSpec> := Entry("esp-lx",
    ControllerSpec("esp-lx", "ESP-LX", "Rain Bird", 22, 22, 2,
      ["advanced_scheduling", "seasonal_adjust", "multiple_programs", "modular_expansion"],
      ["motocross_track", "golf_course", "sports_field", "commercial"]))
  const ESP_LXME: Entry<ControllerSpec> := Entry("esp-lxme",
    ControllerSpec("esp-lxme", "ESP-LXMe", "Rain Bird", 22, 22, 2,
      ["wifi", "app_control", "weather_integration", "advanced_scheduling", "modular_expansion"],
      ["motocross_track", "golf_course", "sports_field", "commercial"]))
  const ST8_2_OUTDOOR: Entry<ControllerSpec> := Entry("st8-2-outdoor",
    ControllerSpec("st8-2-outdoor", "ST8-2.0 WiFi Outdoor", "Rain Bird", 8, 8, 2,
      ["wifi", "app_control", "weather_integration", "seasonal_adjust", "voice_control"],
      ["residential_lawn", "landscaping"]))
  const ST8_2_INDOOR: Entry<ControllerSpec> := Entry("st8-2-indoor",
    ControllerSpec("st8-2-indoor", "ST8I-2.0 WiFi Indoor", "Rain Bird", 8, 8, 2,
      ["wifi", "app_control", "weather_integration", "seasonal_adjust", "voice_control"],
      ["residential_lawn", "landscaping"]))
  const ESP_SMTE: Entry<ControllerSpec> := Entry("esp-smte",
    ControllerSpec("esp-smte", "ESP-SMTe", "Rain Bird", 36, 48, 4,
      ["commercial", "central_control", "flow_monitoring", "advanced_diagnostics", "modular_expansion"],
      ["golf_course", "commercial", "parks", "campus"]))
  const IQ4_600: Entry<ControllerSpec> := Entry("iq4-600",
    ControllerSpec("iq4-600", "IQ4-600", "Rain Bird", 60, 60, 4,
      ["cloud_based", "wifi", "cellular", "weather_integration", "flow_monitoring", "advanced_diagnostics", "remote_management"],
      ["golf_course", "commercial", "parks", "campus", "sports_field"]))
  const IQ4_1200: Entry<ControllerSpec> := Entry("iq4-1200",
    ControllerSpec("iq4-1200", "IQ4-1200", "Rain Bird", 120, 120, 6,
      ["cloud_based", "wifi", "cellular", "weather_integration", "flow_monitoring", "advanced_diagnostics", "remote_management"],
      ["golf_course", "commercial", "parks", "campus", "sports_field"]))
  const IC_600_SS: Entry<ControllerSpec> := Entry("ic-600-ss",
    ControllerSpec("ic-600-ss", "IC-600-SS", "Rain Bird", 60, 60, 4,
      ["central_control", "commercial", "advanced_scheduling", "multiple_programs"],
      ["golf_course", "commercial", "parks", "campus"]))
  const IC_600_FS: Entry<ControllerSpec> := Entry("ic-600-fs",
    ControllerSpec("ic-600-fs", "IC-600-FS", "Rain Bird", 60, 60, 4,
      ["central_control", "commercial", "flow_monitoring", "advanced_diagnostics", "multiple_programs"],
      ["golf_course", "commercial", "parks", "campus"]))
  const MAXICOM2: Entry<ControllerSpec> := Entry("maxicom2",
    ControllerSpec("maxicom2", "Maxicom2", "Rain Bird", 999, 999, 20,
      ["central_control", "golf_specific", "weather_integration", "flow_monitoring", "pump_control", "advanced_diagnostics"],
      ["golf_course"]))
  const STP_PLUS: Entry<ControllerSpec> := Entry("stp-plus",
    ControllerSpec("stp-plus", "STP-PLUS", "Rain Bird", 1, 1, 1,
      ["pump_control", "pressure_regulation", "flow_monitoring", "advanced_diagnostics"],
      ["golf_course", "sports_field", "commercial"]))
  const CUSTOM: Entry<ControllerSpec> := Entry("custom",
    ControllerSpec("custom", "Custom Configuration", "Generic", 22, 48, 2,
      ["custom"],
      ["custom"]))

  const RAINBIRD_CONTROLLERS: seq<Entry<ControllerSpec>> := [
    ESP_ME, ESP_4ME, ESP_RZX4, ESP_RZX6, ESP_RZX8, ESP_RZXE4, ESP_RZXE6, ESP_RZXE8, ESP_TM2_4,
    ESP_TM2_6, ESP_TM2_8, ESP_TM2_12, ESP_LXIVM_4, ESP_LXIVM_6, ESP_LXIVM_9, ESP_LXIVM_12,
    ESP_LX_BASIC, ESP_LX, ESP_LXME, ST8_2_OUTDOOR, ST8_2_INDOOR, ESP_SMTE, IQ4_600, IQ4_1200,
    IC_600_SS, IC_600_FS, MAXICOM2, STP_PLUS, CUSTOM
  ]

  /**
   * The declaration position of each key of `RAINBIRD_CONTROLLERS`, told apart by the key's
   * length and a few of its characters; -1 for strings that match no branch.
   */
  function RainBirdKeyPosition(key: string): int {
    if |key| == 6 then
      if key[4] == 'l' then
        17
      else if key[4] == 'm' then
        0
      else if key[4] == 'o' then
        28
      else -1
    else if |key| == 7 then
      if key[0] == 'e' then
        1
      else if key[0] == 'i' then
        22
      else -1
    else if |key| == 8 then
      if key[7] == '0' then
        23
      else if key[7] == '2' then
        26
      else if key[7] == '4' then
        2
      else if key[7] == '6' then
        3
      else if key[7] == '8' then
        4
      else if key[7] == 'e' then
        if key[4] == 'l' then
          18
        else if key[4] == 's' then
          21
        else -1
      else if key[7] == 's' then
        27
      else -1
    else if |key| == 9 then
      if key[7] == '-' then
        if key[8] == '4' then
          8
        else if key[8] == '6' then
          9
        else if key[8] == '8' then
          10
        else -1
      else if key[7] == 'e' then
        if key[8] == '4' then
          5
        else if key[8] == '6' then
          6
        else if key[8] == '8' then
          7
        else -1
      else if key[7] == 'f' then
        25
      else if key[7] == 's' then
        24
      else -1
    else if |key| == 10 then
      11
    else if |key| == 11 then
      if key[10] == '4' then
        12
      else if key[10] == '6' then
        13
      else if key[10] == '9' then
        14
      else -1
    else if |key| == 12 then
      if key[7] == 'b' then
        16
      else if key[7] == 'n' then
        20
      else if key[7] == 'v' then
        15
      else -1
    else if |key| == 13 then
      19
    else -1
  }

  /** Entries 0 .. 5 of `RAINBIRD_CONTROLLERS` are keyed by their own ids, at their own positions, and well formed. */
  lemma RainBirdEntries1()
    ensures forall i | 0 <= i < 6 ::
      RainBirdKeyPosition(RAINBIRD_CONTROLLERS[i].key) == i && RAINBIRD_CONTROLLERS[i].value.id == RAINBIRD_CONTROLLERS[i].key &&
        WellFormedSpec(RAINBIRD_CONTROLLERS[i].value)
  {
    forall i | 0 <= i < 6
      ensures RainBirdKeyPosition(RAINBIRD_CONTROLLERS[i].key) == i && RAINBIRD_CONTROLLERS[i].value.id == RAINBIRD_CONTROLLERS[i].key &&
        WellFormedSpec(RAINBIRD_CONTROLLERS[i].value)
    {
      if i == 0 {} else if i == 1 {} else if i == 2 {} else if i == 3 {} else if i == 4 {} else {}
    }
  }

  /** Entries 6 .. 11 of `RAINBIRD_CONTROLLERS` are keyed by their own ids, at their own positions, and well formed. */
  lemma RainBirdEntries2()
    ensures forall i | 6 <= i < 12 ::
      RainBirdKeyPosition(RAINBIRD_CONTROLLERS[i].key) == i && RAINBIRD_CONTROLLERS[i].value.id == RAINBIRD_CONTROLLERS[i].key &&
        WellFormedSpec(RAINBIRD_CONTROLLERS[i].value)
  {
    forall i | 6 <= i < 12
      ensures RainBirdKeyPosition(RAINBIRD_CONTROLLERS[i].key) == i && RAINBIRD_CONTROLLERS[i].value.id == RAINBIRD_CONTROLLERS[i].key &&
        WellFormedSpec(RAINBIRD_CONTROLLERS[i].value)
    {
      if i == 6 {} else if i == 7 {} else if i == 8 {} else if i == 9 {} else if i == 10 {} else {}
    }
  }

  /** Entries 12 .. 16 of `RAINBIRD_CONTROLLERS` are keyed by their own ids, at their own positions, and well formed. */
  lemma RainBirdEntries3()
    ensures forall i | 12 <= i < 17 ::
      RainBirdKeyPosition(RAINBIRD_CONTROLLERS[i].key) == i && RAINBIRD_CONTROLLERS[i].value.id == RAINBIRD_CONTROLLERS[i].key &&
        WellFormedSpec(RAINBIRD_CONTROLLERS[i].value)
  {
    forall i | 12 <= i < 17
      ensures RainBirdKeyPosition(RAINBIRD_CONTROLLERS[i].key) == i && RAINBIRD_CONTROLLERS[i].value.id == RAINBIRD_CONTROLLERS[i].key &&
        WellFormedSpec(RAINBIRD_CONTROLLERS[i].value)
    {
      if i == 12 {} else if i == 13 {} else if i == 14 {} else if i == 15 {} else {}
    }
  }

  /** Entries 17 .. 22 of `RAINBIRD_CONTROLLERS` are keyed by their own ids, at their own positions, and well formed. */
  lemma RainBirdEntries4()
    ensures forall i | 17 <= i < 23 ::
      RainBirdKeyPosition(RAINBIRD_CONTROLLERS[i].key) == i && RAINBIRD_CONTROLLERS[i].value.id == RAINBIRD_CONTROLLERS[i].key &&
        WellFormedSpec(RAINBIRD_CONTROLLERS[i].value)
  {
    forall i | 17 <= i < 23
      ensures RainBirdKeyPosition(RAINBIRD_CONTROLLERS[i].key) == i && RAINBIRD_CONTROLLERS[i].value.id == RAINBIRD_CONTROLLERS[i].key &&
        WellFormedSpec(RAINBIRD_CONTROLLERS[i].value)
    {
      if i == 17 {} else if i == 18 {} else if i == 19 {} else if i == 20 {} else if i == 21 {} else {}
    }
  }

  /** Entries 23 .. 28 of `RAINBIRD_CONTROLLERS` are keyed by their own ids, at their own positions, and well formed. */
  lemma RainBirdEntries5()
    ensures forall i | 23 <= i < 29 ::
      RainBirdKeyPosition(RAINBIRD_CONTROLLERS[i].key) == i && RAINBIRD_CONTROLLERS[i].value.id == RAINBIRD_CONTROLLERS[i].key &&
        WellFormedSpec(RAINBIRD_CONTROLLERS[i].value)
  {
    forall i | 23 <= i < 29
      ensures RainBirdKeyPosition(RAINBIRD_CONTROLLERS[i].key) == i && RAINBIRD_CONTROLLERS[i].value.id == RAINBIRD_CONTROLLERS[i].key &&
        WellFormedSpec(RAINBIRD_CONTROLLERS[i].value)
    {
      if i == 23 {} else if i == 24 {} else if i == 25 {} else if i == 26 {} else if i == 27 {} else {}
    }
  }

  /** No model id is declared twice, and each entry's id is its key. */
  lemma RainBirdTableShape()
    ensures DistinctKeys(RAINBIRD_CONTROLLERS)
    ensures forall i | 0 <= i < |RAINBIRD_CONTROLLERS| :: RAINBIRD_CONTROLLERS[i].value.id == RAINBIRD_CONTROLLERS[i].key
    ensures forall i | 0 <= i < |RAINBIRD_CONTROLLERS| :: WellFormedSpec(RAINBIRD_CONTROLLERS[i].value)
  {
    RainBirdEntries1();
    RainBirdEntries2();
    RainBirdEntries3();
    RainBirdEntries4();
    RainBirdEntries5();
    DistinctByPosition(RAINBIRD_CONTROLLERS, RainBirdKeyPosition);
  }

  /** `getControllerConfig`: the Rain Bird model stored under `modelId`, or nothing for an unknown id. */
  function GetRainBirdConfig(modelId: string): (r: Option<ControllerSpec>)
    ensures r.None? <==> modelId !in Keys(RAINBIRD_CONTROLLERS)
    ensures r.Some? ==> r.value.id == modelId && WellFormedSpec(r.value)
  {
    RainBirdTableShape();
    Lookup(RAINBIRD_CONTROLLERS, modelId)
  }

  /** `getAllControllers`: every Rain Bird model, in declaration order. */
  function GetAllRainBird(): (all: seq<ControllerSpec>)
    ensures |all| == |RAINBIRD_CONTROLLERS|
    ensures forall i | 0 <= i < |all| :: all[i] == RAINBIRD_CONTROLLERS[i].value
  {
    Values(RAINBIRD_CONTROLLERS)
  }

  /** Listing and looking up agree: every key is listed, and every listed model is found again under its own id. */
  lemma ListedRainBirdAreFound()
    ensures forall c | c in GetAllRainBird() :: GetRainBirdConfig(c.id) == Some(c)
    ensures forall id | id in Keys(RAINBIRD_CONTROLLERS) :: GetRainBirdConfig(id).Some? && GetRainBirdConfig(id).value in GetAllRainBird()
  {
    RainBirdTableShape();
    forall c | c in GetAllRainBird() ensures GetRainBirdConfig(c.id) == Some(c) {
      var i :| 0 <= i < |RAINBIRD_CONTROLLERS| && RAINBIRD_CONTROLLERS[i].value == c;
      LookupFinds(RAINBIRD_CONTROLLERS, i);
    }
    forall id | id in Keys(RAINBIRD_CONTROLLERS) ensures GetRainBirdConfig(id).Some? && GetRainBirdConfig(id).value in GetAllRainBird() {
      var i :| 0 <= i < |RAINBIRD_CONTROLLERS| && RAINBIRD_CONTROLLERS[i].key == id;
      LookupFinds(RAINBIRD_CONTROLLERS, i);
      assert GetAllRainBird()[i] == RAINBIRD_CONTROLLERS[i].value;
    }
  }

  /** `getRecommendedControllers`: the models whose `recommended_for` names the use case, in declaration order. */
  function GetRecommendedRainBird(useCase: string): (r: seq<ControllerSpec>)
    ensures forall c :: c in r <==> c in GetAllRainBird() && useCase in c.recommendedFor
  {
    Filter(GetAllRainBird(), (c: ControllerSpec) => useCase in c.recommendedFor)
  }

  /**
   * `isZoneCountCompatible`: false for an unknown model, else whether the count fits
   * the model's expansion limit; a model always fits its own base zone count.
   */
  function IsRainBirdZoneCountCompatible(modelId: string, zoneCount: int): (ok: bool)
    ensures ok <==> GetRainBirdConfig(modelId).Some? && zoneCount <= GetRainBirdConfig(modelId).value.expandableTo
    ensures GetRainBirdConfig(modelId).Some? && zoneCount <= GetRainBirdConfig(modelId).value.maxZones ==> ok
  {
    match GetRainBirdConfig(modelId)
    case None => false
    case Some(c) => zoneCount <= c.expandableTo
  }

  /** The series test: the id, or the lower-cased name, starts with the lower-cased series. */
  predicate InSeries(c: ControllerSpec, series: string) {
    var prefix := ToLower(series);
    StartsWith(c.id, prefix) || StartsWith(ToLower(c.name), prefix)
  }

  /** `getControllersBySeries`: the models whose id or name starts with the series, ignoring the series' case. */
  function GetControllersBySeries(series: string): (r: seq<ControllerSpec>)
    ensures forall c :: c in r <==> c in GetAllRainBird() && InSeries(c, series)
  {
    Filter(GetAllRainBird(), (c: ControllerSpec) => InSeries(c, series))
  }

  /** The series search ignores the case of its argument. */
  lemma SeriesIgnoresCase(series: string)
    ensures GetControllersBySeries(ToLower(series)) == GetControllersBySeries(series)
  {
    ToLowerIdempotent(series);
    FilterSameTest(GetAllRainBird(),
      (c: ControllerSpec) => InSeries(c, ToLower(series)), (c: ControllerSpec) => InSeries(c, series));
  }

  /** The empty series matches every model. */
  lemma EmptySeriesMatchesAll()
    ensures GetControllersBySeries("") == GetAllRainBird()
  {
    FilterAll(GetAllRainBird(), (c: ControllerSpec) => InSeries(c, ""));
  }
}
