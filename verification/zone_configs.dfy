/**
 * The zone presets: for each supported zone count, the zones a fresh
 * installation gets (id, name and relay pin), and the lookups over them.
 */
module ZoneConfigs {
  import opened Wrappers
  import opened Strings
  import opened Constants

  /** A preset zone: its id, display name and GPIO pin. */
  datatype ZoneSlot = ZoneSlot(id: int, name: string, gpioPin: int)

  /** A preset; its description text is left out. */
  datatype ZoneConfig = ZoneConfig(name: string, zones: seq<ZoneSlot>)

  /** The zone lists of the presets. */
  const ZONES_4: seq<ZoneSlot> := [
    ZoneSlot(1, "Zone 1", 17),
    ZoneSlot(2, "Zone 2", 27),
    ZoneSlot(3, "Zone 3", 22),
    ZoneSlot(4, "Zone 4", 23)
  ]

  const ZONES_6: seq<ZoneSlot> := [
    ZoneSlot(1, "Zone 1", 17),
    ZoneSlot(2, "Zone 2", 27),
    ZoneSlot(3, "Zone 3", 22),
    ZoneSlot(4, "Zone 4", 23),
    ZoneSlot(5, "Zone 5", 24),
    ZoneSlot(6, "Zone 6", 25)
  ]

  const ZONES_8: seq<ZoneSlot> := [
    ZoneSlot(1, "Zone 1", 17),
    ZoneSlot(2, "Zone 2", 27),
    ZoneSlot(3, "Zone 3", 22),
    ZoneSlot(4, "Zone 4", 23),
    ZoneSlot(5, "Zone 5", 24),
    ZoneSlot(6, "Zone 6", 25),
    ZoneSlot(7, "Zone 7", 5),
    ZoneSlot(8, "Zone 8", 6)
  ]

  const ZONES_12: seq<ZoneSlot> := [
    ZoneSlot(1, "Zone 1", 17),
    ZoneSlot(2, "Zone 2", 27),
    ZoneSlot(3, "Zone 3", 22),
    ZoneSlot(4, "Zone 4", 23),
    ZoneSlot(5, "Zone 5", 24),
    ZoneSlot(6, "Zone 6", 25),
    ZoneSlot(7, "Zone 7", 5),
    ZoneSlot(8, "Zone 8", 6),
    ZoneSlot(9, "Zone 9", 12),
    ZoneSlot(10, "Zone 10", 13),
    ZoneSlot(11, "Zone 11", 16),
    ZoneSlot(12, "Zone 12", 19)
  ]

  const ZONES_18: seq<ZoneSlot> := [
    ZoneSlot(1, "Zone 1", 17),
    ZoneSlot(2, "Zone 2", 27),
    ZoneSlot(3, "Zone 3", 22),
    ZoneSlot(4, "Zone 4", 23),
    ZoneSlot(5, "Zone 5", 24),
    ZoneSlot(6, "Zone 6", 25),
    ZoneSlot(7, "Zone 7", 5),
    ZoneSlot(8, "Zone 8", 6),
    ZoneSlot(9, "Zone 9", 12),
    ZoneSlot(10, "Zone 10", 13),
    ZoneSlot(11, "Zone 11", 16),
    ZoneSlot(12, "Zone 12", 19),
    ZoneSlot(13, "Zone 13", 26),
    ZoneSlot(14, "Zone 14", 20),
    ZoneSlot(15, "Zone 15", 21),
    ZoneSlot(16, "Zone 16", 4),
    ZoneSlot(17, "Zone 17", 18),
    ZoneSlot(18, "Zone 18", 15)
  ]

  const ZONES_22: seq<ZoneSlot> := [
    ZoneSlot(1, "Zone 1", 17),
    ZoneSlot(2, "Zone 2", 27),
    ZoneSlot(3, "Zone 3", 22),
    ZoneSlot(4, "Zone 4", 23),
    ZoneSlot(5, "Zone 5", 24),
    ZoneSlot(6, "Zone 6", 25),
    ZoneSlot(7, "Zone 7", 5),
    ZoneSlot(8, "Zone 8", 6),
    ZoneSlot(9, "Zone 9", 12),
    ZoneSlot(10, "Zone 10", 13),
    ZoneSlot(11, "Zone 11", 16),
    ZoneSlot(12, "Zone 12", 19),
    ZoneSlot(13, "Zone 13", 26),
    ZoneSlot(14, "Zone 14", 20),
    ZoneSlot(15, "Zone 15", 21),
    ZoneSlot(16, "Zone 16", 4),
    ZoneSlot(17, "Zone 17", 18),
    ZoneSlot(18, "Zone 18", 15),
    ZoneSlot(19, "Zone 19", 14),
    ZoneSlot(20, "Zone 20", 2),
    ZoneSlot(21, "Zone 21", 3),
    ZoneSlot(22, "Zone 22", 8)
  ]

  /** `ZONE_CONFIGS`, by zone count. */
  const ZONE_CONFIGS: map<int, ZoneConfig> := map[
    4 := ZoneConfig("4-Zone System", ZONES_4),
    6 := ZoneConfig("6-Zone System", ZONES_6),
    8 := ZoneConfig("8-Zone System", ZONES_8),
    12 := ZoneConfig("12-Zone System", ZONES_12),
    18 := ZoneConfig("18-Zone System", ZONES_18),
    22 := ZoneConfig("22-Zone System", ZONES_22)
  ]

  /** `VALID_ZONE_COUNTS`. */
  const VALID_ZONE_COUNTS: seq<int> := [4, 6, 8, 12, 18, 22]

  /** `getZoneConfig`: the preset for a supported count, null for any other. */
  function GetZoneConfig(zoneCount: int): (config: Option<ZoneConfig>)
    ensures config.Some? <==> zoneCount in ZONE_CONFIGS
    ensures config.Some? ==> config.value == ZONE_CONFIGS[zoneCount]
  {
    if zoneCount in ZONE_CONFIGS then Some(ZONE_CONFIGS[zoneCount]) else None
  }

  /** `isValidZoneCount`. */
  predicate IsValidZoneCount(zoneCount: int) {
    zoneCount in VALID_ZONE_COUNTS
  }

  /** A preset exists exactly for the valid counts. */
  lemma PresetsAreTheValidCounts(zoneCount: int)
    ensures GetZoneConfig(zoneCount).Some? <==> IsValidZoneCount(zoneCount)
  {
  }

  /** The largest preset. */
  const FULL: seq<ZoneSlot> := ZONES_22

  /** The largest preset numbers its zones 1 .. 22 in order. */
  lemma FullPresetIds()
    ensures |FULL| == 22
    ensures forall i | 0 <= i < 22 :: FULL[i].id == i + 1
  {
  }

  /** The decimal text of a number below 100. */
  lemma SmallNatText(k: nat)
    requires 0 < k < 100
    ensures NatToString(k) == if k < 10 then [Digit(k)] else [Digit(k / 10), Digit(k % 10)]
  {
  }

  /** The largest preset names zone `i` "Zone i", for ids 1 .. 9. */
  lemma FullPresetNamesBelow10()
    ensures forall i | 0 <= i < 9 :: FULL[i].name == "Zone " + NatToString(FULL[i].id)
  {
    forall i | 0 <= i < 9 ensures FULL[i].name == "Zone " + NatToString(FULL[i].id) {
      SmallNatText(FULL[i].id);
      if i == 0 {} else if i == 1 {} else if i == 2 {} else if i == 3 {} else if i == 4 {} else if i == 5 {} else if i == 6 {} else if i == 7 {} else {}
    }
  }

  /** The largest preset names zone `i` "Zone i", for ids 10 .. 15. */
  lemma FullPresetNamesFrom10()
    ensures forall i | 9 <= i < 15 :: FULL[i].name == "Zone " + NatToString(FULL[i].id)
  {
    forall i | 9 <= i < 15 ensures FULL[i].name == "Zone " + NatToString(FULL[i].id) {
      if i == 9 {} else if i == 10 {} else if i == 11 {} else if i == 12 {} else if i == 13 {} else {}
    }
  }

  /** The largest preset names zone `i` "Zone i", for ids 16 .. 22. */
  lemma FullPresetNamesFrom16()
    ensures forall i | 15 <= i < |FULL| :: FULL[i].name == "Zone " + NatToString(FULL[i].id)
  {
    forall i | 15 <= i < |FULL| ensures FULL[i].name == "Zone " + NatToString(FULL[i].id) {
      if i == 15 {} else if i == 16 {} else if i == 17 {} else if i == 18 {} else if i == 19 {} else if i == 20 {} else {}
    }
  }

  /** The largest preset names zone `i` "Zone i". */
  lemma FullPresetNames()
    ensures forall i | 0 <= i < |FULL| :: FULL[i].name == "Zone " + NatToString(FULL[i].id)
  {
    FullPresetNamesBelow10();
    FullPresetNamesFrom10();
    FullPresetNamesFrom16();
  }

  /** Where each pin of the largest preset sits in it; -1 for any other pin. */
  function PinPosition(pin: int): int {
    match pin
      case 17 => 0
      case 27 => 1
      case 22 => 2
      case 23 => 3
      case 24 => 4
      case 25 => 5
      case 5 => 6
      case 6 => 7
      case 12 => 8
      case 13 => 9
      case 16 => 10
      case 19 => 11
      case 26 => 12
      case 20 => 13
      case 21 => 14
      case 4 => 15
      case 18 => 16
      case 15 => 17
      case 14 => 18
      case 2 => 19
      case 3 => 20
      case 8 => 21
      case _ => -1
  }

  /** The largest preset puts its zones on pairwise distinct pins. */
  lemma FullPresetPins()
    ensures forall i, j | 0 <= i < j < |FULL| :: FULL[i].gpioPin != FULL[j].gpioPin
  {
    // equal pins would sit at equal positions
    forall i | 0 <= i < |FULL| ensures PinPosition(FULL[i].gpioPin) == i {
      if i == 0 {} else if i == 1 {} else if i == 2 {} else if i == 3 {} else if i == 4 {} else if i == 5 {} else if i == 6 {} else if i == 7 {} else if i == 8 {} else if i == 9 {} else if i == 10 {} else if i == 11 {} else if i == 12 {} else if i == 13 {} else if i == 14 {} else if i == 15 {} else if i == 16 {} else if i == 17 {} else if i == 18 {} else if i == 19 {} else if i == 20 {} else {}
    }
  }

  /** Every preset is the first `n` zones of the largest one: a smaller preset is a prefix of a larger. */
  lemma PresetsArePrefixes()
    ensures forall n | n in ZONE_CONFIGS :: 0 < n <= 22 && ZONE_CONFIGS[n].zones == FULL[..n]
  {
  }

  /**
   * Preset `n` has exactly `n` zones, numbered 1 .. n and named "Zone i", on
   * pairwise distinct pins (the zones table's pin column is unique).
   */
  lemma PresetShape(n: int)
    requires n in ZONE_CONFIGS
    ensures |ZONE_CONFIGS[n].zones| == n
    ensures forall i | 0 <= i < n ::
      ZONE_CONFIGS[n].zones[i].id == i + 1 && ZONE_CONFIGS[n].zones[i].name == "Zone " + NatToString(i + 1)
    ensures forall i, j | 0 <= i < j < n :: ZONE_CONFIGS[n].zones[i].gpioPin != ZONE_CONFIGS[n].zones[j].gpioPin
  {
    PresetsArePrefixes();
    FullPresetIds();
    FullPresetNames();
    FullPresetPins();
    var zones := ZONE_CONFIGS[n].zones;
    assert zones == FULL[..n];
    forall i | 0 <= i < n ensures zones[i].id == i + 1 && zones[i].name == "Zone " + NatToString(i + 1) {
      assert zones[i] == FULL[i];
    }
    forall i, j | 0 <= i < j < n ensures zones[i].gpioPin != zones[j].gpioPin {
      assert zones[i] == FULL[i] && zones[j] == FULL[j];
    }
  }

  /** The first eight zones of the largest preset sit on the relay wiring's pins. */
  lemma FullPresetWiring()
    ensures forall i | 0 <= i < 8 :: FULL[i].id in GPIO_PINS && FULL[i].gpioPin == GPIO_PINS[FULL[i].id]
  {
    forall i | 0 <= i < 8 ensures FULL[i].id in GPIO_PINS && FULL[i].gpioPin == GPIO_PINS[FULL[i].id] {
      if i == 0 {} else if i == 1 {} else if i == 2 {} else if i == 3 {} else if i == 4 {} else if i == 5 {} else if i == 6 {} else {}
    }
  }

  /** Zones 1 .. 8 of every preset use the relay wiring's pins. */
  lemma PresetPinsMatchWiring(n: int)
    requires n in ZONE_CONFIGS
    ensures forall i | 0 <= i < n && ZONE_CONFIGS[n].zones[i].id in GPIO_PINS ::
      ZONE_CONFIGS[n].zones[i].gpioPin == GPIO_PINS[ZONE_CONFIGS[n].zones[i].id]
  {
    PresetsArePrefixes();
    FullPresetIds();
    FullPresetWiring();
    var zones := ZONE_CONFIGS[n].zones;
    assert zones == FULL[..n];
    forall i | 0 <= i < n && zones[i].id in GPIO_PINS ensures zones[i].gpioPin == GPIO_PINS[zones[i].id] {
      assert zones[i] == FULL[i] && FULL[i].id == i + 1;
      assert i < 8;
    }
  }

  /** Zones 9 and up of a preset have no relay wiring. */
  lemma PresetZonesPastWiring(n: int)
    requires n in ZONE_CONFIGS
    ensures forall i | 8 <= i < n :: ZONE_CONFIGS[n].zones[i].id !in GPIO_PINS
  {
    PresetsArePrefixes();
    FullPresetIds();
    var zones := ZONE_CONFIGS[n].zones;
    assert zones == FULL[..n];
    forall i | 8 <= i < n ensures zones[i].id !in GPIO_PINS {
      assert zones[i] == FULL[i] && FULL[i].id == i + 1;
    }
  }
}
