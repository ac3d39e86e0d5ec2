/**
 * The multi-brand controller library: every supported controller model, keyed by
 * its id, and the lookups the settings screens use. Only the fields the lookups and
 * the settings rules read are kept.
 */
module ControllerCatalog {
  import opened Wrappers
  import opened Catalog

  /** A controller model: zone capacity, concurrency, feature tags and the use cases it suits. */
  datatype ControllerSpec = ControllerSpec(
    id: string,
    name: string,
    manufacturer: string,
    maxZones: int,
    expandableTo: int,
    maxConcurrentZones: int,
    features: seq<string>,
    recommendedFor: seq<string>)

  /** A model's stated capacity is consistent: it runs at least one zone at a time and can grow past its base count. */
  predicate WellFormedSpec(c: ControllerSpec) {
    1 <= c.maxConcurrentZones && 1 <= c.maxZones <= c.expandableTo
  }

  /** `CONTROLLERS`, in declaration order. */
  const ESP_ME: Entry<ControllerSpec> := Entry("esp-me",
    ControllerSpec("esp-me", "ESP-Me", "rain-bird", 3, 3, 1,
      ["wifi", "app_control", "weather_integration", "cloud_based"],
      ["small_garden", "container_garden"]))
  const ESP_4ME: Entry<ControllerSpec> := Entry("esp-4me",
    ControllerSpec("esp-4me", "ESP-4Me", "rain-bird", 4, 4, 1,
      ["wifi", "app_control", "weather_integration", "seasonal_adjust"],
      ["residential_lawn", "small_garden"]))
  const ESP_TM2_6: Entry<ControllerSpec> := Entry("esp-tm2-6",
    ControllerSpec("esp-tm2-6", "ESP-TM2 6-Station", "rain-bird", 6, 6, 2,
      ["advanced_scheduling", "seasonal_adjust", "multiple_programs"],
      ["residential_lawn", "landscaping"]))
  const ESP_TM2_8: Entry<ControllerSpec> := Entry("esp-tm2-8",
    ControllerSpec("esp-tm2-8", "ESP-TM2 8-Station", "rain-bird", 8, 8, 2,
      ["advanced_scheduling", "seasonal_adjust", "multiple_programs"],
      ["residential_lawn", "landscaping", "vineyard"]))
  const ESP_TM2_12: Entry<ControllerSpec> := Entry("esp-tm2-12",
    ControllerSpec("esp-tm2-12", "ESP-TM2 12-Station", "rain-bird", 12, 12, 2,
      ["advanced_scheduling", "seasonal_adjust", "multiple_programs"],
      ["residential_lawn", "vineyard", "orchard"]))
  const ESP_LX: Entry<ControllerSpec> := Entry("esp-lx",
    ControllerSpec("esp-lx", "ESP-LX", "rain-bird", 22, 22, 2,
      ["advanced_scheduling", "seasonal_adjust", "multiple_programs", "modular_expansion"],
      ["motocross_track", "golf_course", "sports_field", "commercial"]))
  const ST8_2_OUTDOOR: Entry<ControllerSpec> := Entry("st8-2-outdoor",
    ControllerSpec("st8-2-outdoor", "ST8-2.0 WiFi Outdoor", "rain-bird", 8, 8, 2,
      ["wifi", "app_control", "weather_integration", "seasonal_adjust", "voice_control"],
      ["residential_lawn", "landscaping"]))
  const HUNTER_PRO_C_6: Entry<ControllerSpec> := Entry("hunter-pro-c-6",
    ControllerSpec("hunter-pro-c-6", "Pro-C 6-Station", "hunter", 6, 6, 2,
      ["easy_retrieve", "seasonal_adjust", "non_volatile_memory"],
      ["residential_lawn", "landscaping"]))
  const HUNTER_PRO_C_12: Entry<ControllerSpec> := Entry("hunter-pro-c-12",
    ControllerSpec("hunter-pro-c-12", "Pro-C 12-Station", "hunter", 12, 12, 2,
      ["easy_retrieve", "seasonal_adjust", "non_volatile_memory"],
      ["residential_lawn", "landscaping", "vineyard"]))
  const HUNTER_X_CORE_6: Entry<ControllerSpec> := Entry("hunter-x-core-6",
    ControllerSpec("hunter-x-core-6", "X-Core 6-Station", "hunter", 6, 6, 1,
      ["easy_retrieve", "seasonal_adjust", "simple_programming"],
      ["residential_lawn", "small_garden"]))
  const HUNTER_X_CORE_8: Entry<ControllerSpec> := Entry("hunter-x-core-8",
    ControllerSpec("hunter-x-core-8", "X-Core 8-Station", "hunter", 8, 8, 2,
      ["easy_retrieve", "seasonal_adjust", "simple_programming"],
      ["residential_lawn", "landscaping"]))
  const HUNTER_X2_8: Entry<ControllerSpec> := Entry("hunter-x2-8",
    ControllerSpec("hunter-x2-8", "X2 8-Station", "hunter", 8, 32, 3,
      ["modular_expansion", "advanced_scheduling", "flow_management", "remote_capable"],
      ["commercial", "sports_field", "parks"]))
  const HUNTER_X2_16: Entry<ControllerSpec> := Entry("hunter-x2-16",
    ControllerSpec("hunter-x2-16", "X2 16-Station", "hunter", 16, 32, 4,
      ["modular_expansion", "advanced_scheduling", "flow_management", "remote_capable"],
      ["commercial", "motocross_track", "sports_field", "parks"]))
  const HUNTER_ICC2_12: Entry<ControllerSpec> := Entry("hunter-icc2-12",
    ControllerSpec("hunter-icc2-12", "ICC2 12-Station", "hunter", 12, 54, 4,
      ["central_control", "commercial", "flow_management", "advanced_diagnostics"],
      ["golf_course", "commercial", "parks", "campus"]))
  const HUNTER_ICC2_24: Entry<ControllerSpec> := Entry("hunter-icc2-24",
    ControllerSpec("hunter-icc2-24", "ICC2 24-Station", "hunter", 24, 54, 6,
      ["central_control", "commercial", "flow_management", "advanced_diagnostics"],
      ["golf_course", "commercial", "motocross_track", "parks", "campus"]))
  const HUNTER_HYDRAWISE_6: Entry<ControllerSpec> := Entry("hunter-hydrawise-6",
    ControllerSpec("hunter-hydrawise-6", "Hydrawise HC 6-Zone", "hunter", 6, 6, 2,
      ["wifi", "app_control", "weather_integration", "predictive_watering", "cloud_based"],
      ["residential_lawn", "landscaping"]))
  const HUNTER_HYDRAWISE_12: Entry<ControllerSpec> := Entry("hunter-hydrawise-12",
    ControllerSpec("hunter-hydrawise-12", "Hydrawise HC 12-Zone", "hunter", 12, 12, 3,
      ["wifi", "app_control", "weather_integration", "predictive_watering", "cloud_based"],
      ["residential_lawn", "landscaping", "vineyard"]))
  const ORBIT_BHYVE_6: Entry<ControllerSpec> := Entry("orbit-bhyve-6",
    ControllerSpec("orbit-bhyve-6", "B-hyve 6-Zone", "orbit", 6, 6, 1,
      ["wifi", "app_control", "weather_integration", "voice_control", "budget_friendly"],
      ["residential_lawn", "small_garden"]))
  const ORBIT_BHYVE_8: Entry<ControllerSpec> := Entry("orbit-bhyve-8",
    ControllerSpec("orbit-bhyve-8", "B-hyve 8-Zone Indoor", "orbit", 8, 8, 2,
      ["wifi", "app_control", "weather_integration", "voice_control", "budget_friendly"],
      ["residential_lawn", "landscaping"]))
  const ORBIT_BHYVE_12: Entry<ControllerSpec> := Entry("orbit-bhyve-12",
    ControllerSpec("orbit-bhyve-12", "B-hyve 12-Zone", "orbit", 12, 12, 2,
      ["wifi", "app_control", "weather_integration", "voice_control", "budget_friendly"],
      ["residential_lawn", "landscaping"]))
  const ORBIT_EASY_DIAL_6: Entry<ControllerSpec> := Entry("orbit-easy-dial-6",
    ControllerSpec("orbit-easy-dial-6", "Easy Dial 6-Station", "orbit", 6, 6, 1,
      ["simple_programming", "budget_friendly"],
      ["residential_lawn", "small_garden"]))
  const ORBIT_EASY_DIAL_9: Entry<ControllerSpec> := Entry("orbit-easy-dial-9",
    ControllerSpec("orbit-easy-dial-9", "Easy Dial 9-Station", "orbit", 9, 9, 1,
      ["simple_programming", "budget_friendly"],
      ["residential_lawn", "landscaping"]))
  const TORO_DDC_6: Entry<ControllerSpec> := Entry("toro-ddc-6",
    ControllerSpec("toro-ddc-6", "DDC 6-Station", "toro", 6, 6, 2,
      ["dual_dial", "seasonal_adjust", "professional_grade"],
      ["residential_lawn", "landscaping"]))
  const TORO_DDC_8: Entry<ControllerSpec> := Entry("toro-ddc-8",
    ControllerSpec("toro-ddc-8", "DDC 8-Station", "toro", 8, 8, 2,
      ["dual_dial", "seasonal_adjust", "professional_grade"],
      ["residential_lawn", "landscaping"]))
  const TORO_DDC_12: Entry<ControllerSpec> := Entry("toro-ddc-12",
    ControllerSpec("toro-ddc-12", "DDC 12-Station", "toro", 12, 12, 3,
      ["dual_dial", "seasonal_adjust", "professional_grade"],
      ["residential_lawn", "landscaping", "vineyard"]))
  const TORO_EVOLUTION_18: Entry<ControllerSpec> := Entry("toro-evolution-18",
    ControllerSpec("toro-evolution-18", "Evolution Series 18-Station", "toro", 18, 36, 4,
      ["professional_grade", "modular_expansion", "advanced_scheduling", "flow_management"],
      ["commercial", "motocross_track", "sports_field", "parks"]))
  const TORO_EVOLUTION_36: Entry<ControllerSpec> := Entry("toro-evolution-36",
    ControllerSpec("toro-evolution-36", "Evolution Series 36-Station", "toro", 36, 72, 6,
      ["professional_grade", "modular_expansion", "advanced_scheduling", "flow_management"],
      ["golf_course", "commercial", "parks", "campus"]))
  const TORO_LYNX_SMART: Entry<ControllerSpec> := Entry("toro-lynx-smart",
    ControllerSpec("toro-lynx-smart", "Lynx Smart Module", "toro", 48, 200, 8,
      ["wifi", "central_control", "cloud_based", "weather_integration", "golf_specific"],
      ["golf_course", "commercial"]))
  const TORO_SENTINEL_8: Entry<ControllerSpec> := Entry("toro-sentinel-8",
    ControllerSpec("toro-sentinel-8", "Sentinel 8-Zone", "toro", 8, 48, 4,
      ["decoder_system", "commercial", "two_wire", "advanced_diagnostics"],
      ["commercial", "sports_field", "parks"]))
  const TORO_SENTINEL_16: Entry<ControllerSpec> := Entry("toro-sentinel-16",
    ControllerSpec("toro-sentinel-16", "Sentinel 16-Zone", "toro", 16, 48, 6,
      ["decoder_system", "commercial", "two_wire", "advanced_diagnostics"],
      ["commercial", "sports_field", "motocross_track", "parks"]))
  const CUSTOM: Entry<ControllerSpec> := Entry("custom",
    ControllerSpec("custom", "Custom Configuration", "custom", 22, 48, 2,
      ["custom"],
      ["custom"]))

  const CONTROLLERS: seq<Entry<ControllerSpec>> := [
    ESP_ME, ESP_4ME, ESP_TM2_6, ESP_TM2_8, ESP_TM2_12, ESP_LX, ST8_2_OUTDOOR, HUNTER_PRO_C_6,
    HUNTER_PRO_C_12, HUNTER_X_CORE_6, HUNTER_X_CORE_8, HUNTER_X2_8, HUNTER_X2_16,
    HUNTER_ICC2_12, HUNTER_ICC2_24, HUNTER_HYDRAWISE_6, HUNTER_HYDRAWISE_12, ORBIT_BHYVE_6,
    ORBIT_BHYVE_8, ORBIT_BHYVE_12, ORBIT_EASY_DIAL_6, ORBIT_EASY_DIAL_9, TORO_DDC_6, TORO_DDC_8,
    TORO_DDC_12, TORO_EVOLUTION_18, TORO_EVOLUTION_36, TORO_LYNX_SMART, TORO_SENTINEL_8,
    TORO_SENTINEL_16, CUSTOM
  ]

  /**
   * The declaration position of each key of `CONTROLLERS`, told apart by the key's
   * length and a few of its characters; -1 for strings that match no branch.
   */
  function ControllerKeyPosition(key: string): int {
    if |key| == 6 then
      if key[4] == 'l' then
        5
      else if key[4] == 'm' then
        0
      else if key[4] == 'o' then
        30
      else -1
    else if |key| == 7 then
      1
    else if |key| == 9 then
      if key[8] == '6' then
        2
      else if key[8] == '8' then
        3
      else -1
    else if |key| == 10 then
      if key[9] == '2' then
        4
      else if key[9] == '6' then
        22
      else if key[9] == '8' then
        23
      else -1
    else if |key| == 11 then
      if key[0] == 'h' then
        11
      else if key[0] == 't' then
        24
      else -1
    else if |key| == 12 then
      12
    else if |key| == 13 then
      if key[12] == '6' then
        17
      else if key[12] == '8' then
        18
      else if key[12] == 'r' then
        6
      else -1
    else if |key| == 14 then
      if key[7] == 'h' then
        19
      else if key[7] == 'i' then
        if key[12] == '1' then
          13
        else if key[12] == '2' then
          14
        else -1
      else if key[7] == 'p' then
        7
      else -1
    else if |key| == 15 then
      if key[8] == '-' then
        if key[14] == '6' then
          9
        else if key[14] == '8' then
          10
        else -1
      else if key[8] == 'r' then
        8
      else if key[8] == 't' then
        28
      else if key[8] == 'x' then
        27
      else -1
    else if |key| == 16 then
      29
    else if |key| == 17 then
      if key[15] == '-' then
        if key[16] == '6' then
          20
        else if key[16] == '9' then
          21
        else -1
      else if key[15] == '1' then
        25
      else if key[15] == '3' then
        26
      else -1
    else if |key| == 18 then
      15
    else if |key| == 19 then
      16
    else -1
  }

  /** Entries 0 .. 4 of `CONTROLLERS` are keyed by their own ids, at their own positions, and well formed. */
  lemma ControllerEntries1()
    ensures forall i | 0 <= i < 5 ::
      ControllerKeyPosition(CONTROLLERS[i].key) == i && CONTROLLERS[i].value.id == CONTROLLERS[i].key &&
        WellFormedSpec(CONTROLLERS[i].value)
  {
    forall i | 0 <= i < 5
      ensures ControllerKeyPosition(CONTROLLERS[i].key) == i && CONTROLLERS[i].value.id == CONTROLLERS[i].key &&
        WellFormedSpec(CONTROLLERS[i].value)
    {
      if i == 0 {} else if i == 1 {} else if i == 2 {} else if i == 3 {} else {}
    }
  }

  /** Entries 5 .. 9 of `CONTROLLERS` are keyed by their own ids, at their own positions, and well formed. */
  lemma ControllerEntries2()
    ensures forall i | 5 <= i < 10 ::
      ControllerKeyPosition(CONTROLLERS[i].key) == i && CONTROLLERS[i].value.id == CONTROLLERS[i].key &&
        WellFormedSpec(CONTROLLERS[i].value)
  {
    forall i | 5 <= i < 10
      ensures ControllerKeyPosition(CONTROLLERS[i].key) == i && CONTROLLERS[i].value.id == CONTROLLERS[i].key &&
        WellFormedSpec(CONTROLLERS[i].value)
    {
      if i == 5 {} else if i == 6 {} else if i == 7 {} else if i == 8 {} else {}
    }
  }

  /** Entries 10 .. 15 of `CONTROLLERS` are keyed by their own ids, at their own positions, and well formed. */
  lemma ControllerEntries3()
    ensures forall i | 10 <= i < 16 ::
      ControllerKeyPosition(CONTROLLERS[i].key) == i && CONTROLLERS[i].value.id == CONTROLLERS[i].key &&
        WellFormedSpec(CONTROLLERS[i].value)
  {
    forall i | 10 <= i < 16
      ensures ControllerKeyPosition(CONTROLLERS[i].key) == i && CONTROLLERS[i].value.id == CONTROLLERS[i].key &&
        WellFormedSpec(CONTROLLERS[i].value)
    {
      if i == 10 {} else if i == 11 {} else if i == 12 {} else if i == 13 {} else if i == 14 {} else {}
    }
  }

  /** Entries 16 .. 20 of `CONTROLLERS` are keyed by their own ids, at their own positions, and well formed. */
  lemma ControllerEntries4()
    ensures forall i | 16 <= i < 21 ::
      ControllerKeyPosition(CONTROLLERS[i].key) == i && CONTROLLERS[i].value.id == CONTROLLERS[i].key &&
        WellFormedSpec(CONTROLLERS[i].value)
  {
    forall i | 16 <= i < 21
      ensures ControllerKeyPosition(CONTROLLERS[i].key) == i && CONTROLLERS[i].value.id == CONTROLLERS[i].key &&
        WellFormedSpec(CONTROLLERS[i].value)
    {
      if i == 16 {} else if i == 17 {} else if i == 18 {} else if i == 19 {} else {}
    }
  }

  /** Entries 21 .. 25 of `CONTROLLERS` are keyed by their own ids, at their own positions, and well formed. */
  lemma ControllerEntries5()
    ensures forall i | 21 <= i < 26 ::
      ControllerKeyPosition(CONTROLLERS[i].key) == i && CONTROLLERS[i].value.id == CONTROLLERS[i].key &&
        WellFormedSpec(CONTROLLERS[i].value)
  {
    forall i | 21 <= i < 26
      ensures ControllerKeyPosition(CONTROLLERS[i].key) == i && CONTROLLERS[i].value.id == CONTROLLERS[i].key &&
        WellFormedSpec(CONTROLLERS[i].value)
    {
      if i == 21 {} else if i == 22 {} else if i == 23 {} else if i == 24 {} else {}
    }
  }

  /** Entries 26 .. 30 of `CONTROLLERS` are keyed by their own ids, at their own positions, and well formed. */
  lemma ControllerEntries6()
    ensures forall i | 26 <= i < 31 ::
      ControllerKeyPosition(CONTROLLERS[i].key) == i && CONTROLLERS[i].value.id == CONTROLLERS[i].key &&
        WellFormedSpec(CONTROLLERS[i].value)
  {
    forall i | 26 <= i < 31
      ensures ControllerKeyPosition(CONTROLLERS[i].key) == i && CONTROLLERS[i].value.id == CONTROLLERS[i].key &&
        WellFormedSpec(CONTROLLERS[i].value)
    {
      if i == 26 {} else if i == 27 {} else if i == 28 {} else if i == 29 {} else {}
    }
  }

  /** No model id is declared twice, and each entry's id is its key. */
  lemma ControllerTableShape()
    ensures DistinctKeys(CONTROLLERS)
    ensures forall i | 0 <= i < |CONTROLLERS| :: CONTROLLERS[i].value.id == CONTROLLERS[i].key
    ensures forall i | 0 <= i < |CONTROLLERS| :: WellFormedSpec(CONTROLLERS[i].value)
  {
    ControllerEntries1();
    ControllerEntries2();
    ControllerEntries3();
    ControllerEntries4();
    ControllerEntries5();
    ControllerEntries6();
    DistinctByPosition(CONTROLLERS, ControllerKeyPosition);
  }

  /** `getControllerConfig`: the model stored under `modelId`, or nothing for an unknown id. */
  function GetControllerConfig(modelId: string): (r: Option<ControllerSpec>)
    ensures r.None? <==> modelId !in Keys(CONTROLLERS)
    ensures r.Some? ==> r.value.id == modelId && WellFormedSpec(r.value)
  {
    ControllerTableShape();
    Lookup(CONTROLLERS, modelId)
  }

  /** `getAllControllers`: every model, in declaration order. */
  function GetAllControllers(): (all: seq<ControllerSpec>)
    ensures |all| == |CONTROLLERS|
    ensures forall i | 0 <= i < |all| :: all[i] == CONTROLLERS[i].value
  {
    Values(CONTROLLERS)
  }

  /** Listing and looking up agree: every key is listed, and every listed model is found again under its own id. */
  lemma ListedControllersAreFound()
    ensures forall c | c in GetAllControllers() :: GetControllerConfig(c.id) == Some(c)
    ensures forall id | id in Keys(CONTROLLERS) :: GetControllerConfig(id).Some? && GetControllerConfig(id).value in GetAllControllers()
  {
    ControllerTableShape();
    forall c | c in GetAllControllers() ensures GetControllerConfig(c.id) == Some(c) {
      var i :| 0 <= i < |CONTROLLERS| && CONTROLLERS[i].value == c;
      LookupFinds(CONTROLLERS, i);
    }
    forall id | id in Keys(CONTROLLERS) ensures GetControllerConfig(id).Some? && GetControllerConfig(id).value in GetAllControllers() {
      var i :| 0 <= i < |CONTROLLERS| && CONTROLLERS[i].key == id;
      LookupFinds(CONTROLLERS, i);
      assert GetAllControllers()[i] == CONTROLLERS[i].value;
    }
  }

  /** `getControllersByManufacturer`: the models of one manufacturer, in declaration order. */
  function GetControllersByManufacturer(manufacturerId: string): (r: seq<ControllerSpec>)
    ensures forall c :: c in r <==> c in GetAllControllers() && c.manufacturer == manufacturerId
  {
    Filter(GetAllControllers(), (c: ControllerSpec) => c.manufacturer == manufacturerId)
  }

  /** `getRecommendedControllers`: the models whose `recommended_for` names the use case, in declaration order. */
  function GetRecommendedControllers(useCase: string): (r: seq<ControllerSpec>)
    ensures forall c :: c in r <==> c in GetAllControllers() && useCase in c.recommendedFor
  {
    Filter(GetAllControllers(), (c: ControllerSpec) => useCase in c.recommendedFor)
  }

  /**
   * `isZoneCountCompatible`: false for an unknown model, else whether the count fits
   * the model's expansion limit; a model always fits its own base zone count.
   */
  function IsZoneCountCompatible(modelId: string, zoneCount: int): (ok: bool)
    ensures ok <==> GetControllerConfig(modelId).Some? && zoneCount <= GetControllerConfig(modelId).value.expandableTo
    ensures GetControllerConfig(modelId).Some? && zoneCount <= GetControllerConfig(modelId).value.maxZones ==> ok
  {
    match GetControllerConfig(modelId)
    case None => false
    case Some(c) => zoneCount <= c.expandableTo
  }
}
