/**
 * The use-case profiles: the watering strategies a system can be set up for,
 * keyed by id, with a lookup that falls back to the residential lawn profile.
 * Only the identifying fields and the default zone duration are kept.
 */
module UseCaseProfiles {
  import opened Catalog

  /** A profile: id, display name, icon, one-line description and default zone duration in minutes. */
  datatype Profile = Profile(id: string, name: string, icon: string, description: string, zoneDefaultDuration: int)

  /** The part of a profile offered for selection. */
  datatype ProfileOption = ProfileOption(id: string, name: string, icon: string, description: string)

  const RESIDENTIAL_LAWN: Entry<Profile> := Entry("residential_lawn",
    Profile("residential_lawn", "Residential Lawn", "\U{1F3E1}",
      "Healthy green grass for home lawns", 15))
  const MOTOCROSS_TRACK: Entry<Profile> := Entry("motocross_track",
    Profile("motocross_track", "Motocross/Dirt Track", "\U{1F3CD}\U{FE0F}",
      "Surface moisture for dust control and traction", 8))
  const VEGETABLE_GARDEN: Entry<Profile> := Entry("vegetable_garden",
    Profile("vegetable_garden", "Vegetable Garden", "\U{1F955}",
      "Zone-specific watering for different crops", 20))
  const SPORTS_FIELD: Entry<Profile> := Entry("sports_field",
    Profile("sports_field", "Sports Field/Golf Course", "\U{26F3}",
      "Professional-grade turf management", 15))
  const GREENHOUSE_COMMERCIAL: Entry<Profile> := Entry("greenhouse_commercial",
    Profile("greenhouse_commercial", "Greenhouse/Commercial", "\U{1F331}",
      "High-frequency precision control", 5))
  const DROUGHT_CONSERVATION: Entry<Profile> := Entry("drought_conservation",
    Profile("drought_conservation", "Drought/Conservation Mode", "\U{1F335}",
      "Minimize water while keeping plants alive", 10))
  const GOLF_COURSE: Entry<Profile> := Entry("golf_course",
    Profile("golf_course", "Golf Course", "\U{26F3}",
      "Professional turf management for greens, fairways, and rough", 15))
  const VINEYARD: Entry<Profile> := Entry("vineyard",
    Profile("vineyard", "Vineyard/Winery", "\U{1F347}",
      "Precision drip irrigation for wine grapes", 30))
  const ORCHARD: Entry<Profile> := Entry("orchard",
    Profile("orchard", "Fruit Orchard", "\U{1F34E}",
      "Targeted tree irrigation for fruit production", 25))
  const DUST_CONTROL: Entry<Profile> := Entry("dust_control",
    Profile("dust_control", "Dust Control", "\U{1F3D7}\U{FE0F}",
      "Mining, construction, and haul road dust suppression", 5))
  const PARK_ATHLETIC: Entry<Profile> := Entry("park_athletic",
    Profile("park_athletic", "Park & Athletic Fields", "\U{26BD}",
      "Municipal parks, soccer fields, and recreation areas", 20))
  const NURSERY_COMMERCIAL: Entry<Profile> := Entry("nursery_commercial",
    Profile("nursery_commercial", "Nursery/Landscape Pro", "\U{1F33B}",
      "Commercial plant production and landscape installation", 10))
  const HOBBY_FARM: Entry<Profile> := Entry("hobby_farm",
    Profile("hobby_farm", "Hobby Farm/Homestead", "\U{1F69C}",
      "Small-scale agriculture and self-sufficiency", 15))

  /** `USE_CASE_PROFILES`, in declaration order. */
  const USE_CASE_PROFILES: seq<Entry<Profile>> := [
    RESIDENTIAL_LAWN, MOTOCROSS_TRACK, VEGETABLE_GARDEN, SPORTS_FIELD, GREENHOUSE_COMMERCIAL,
    DROUGHT_CONSERVATION, GOLF_COURSE, VINEYARD, ORCHARD, DUST_CONTROL, PARK_ATHLETIC,
    NURSERY_COMMERCIAL, HOBBY_FARM
  ]

  /**
   * The declaration position of each key of `USE_CASE_PROFILES`, told apart by the key's
   * length and a few of its characters; -1 for strings that match no branch.
   */
  function ProfileKeyPosition(key: string): int {
    if |key| == 7 then
      8
    else if |key| == 8 then
      7
    else if |key| == 10 then
      12
    else if |key| == 11 then
      6
    else if |key| == 12 then
      if key[0] == 'd' then
        9
      else if key[0] == 's' then
        3
      else -1
    else if |key| == 13 then
      10
    else if |key| == 15 then
      1
    else if |key| == 16 then
      if key[0] == 'r' then
        0
      else if key[0] == 'v' then
        2
      else -1
    else if |key| == 18 then
      11
    else if |key| == 20 then
      5
    else if |key| == 21 then
      4
    else -1
  }

  /** Each profile is keyed by its own id, at its own position. */
  lemma ProfileEntries()
    ensures forall i | 0 <= i < |USE_CASE_PROFILES| ::
      ProfileKeyPosition(USE_CASE_PROFILES[i].key) == i && USE_CASE_PROFILES[i].value.id == USE_CASE_PROFILES[i].key
  {
    forall i | 0 <= i < |USE_CASE_PROFILES|
      ensures ProfileKeyPosition(USE_CASE_PROFILES[i].key) == i && USE_CASE_PROFILES[i].value.id == USE_CASE_PROFILES[i].key
    {
      if i == 0 {} else if i == 1 {} else if i == 2 {} else if i == 3 {} else if i == 4 {} else if i == 5 {} else if i == 6 {} else if i == 7 {} else if i == 8 {} else if i == 9 {} else if i == 10 {} else if i == 11 {} else {}
    }
  }

  /** No profile id is declared twice, each profile's id is its key, and the first is the residential lawn. */
  lemma ProfileTableShape()
    ensures DistinctKeys(USE_CASE_PROFILES)
    ensures forall i | 0 <= i < |USE_CASE_PROFILES| :: USE_CASE_PROFILES[i].value.id == USE_CASE_PROFILES[i].key
    ensures "residential_lawn" in Keys(USE_CASE_PROFILES)
  {
    ProfileEntries();
    DistinctByPosition(USE_CASE_PROFILES, ProfileKeyPosition);
    assert USE_CASE_PROFILES[0].key == "residential_lawn";
  }

  /** The fallback profile. */
  const DEFAULT_PROFILE: Profile := RESIDENTIAL_LAWN.value

  /**
   * `getProfile`: the profile stored under `profileId`; any unknown id falls back
   * to the residential lawn profile, so a profile is always returned.
   */
  function GetProfile(profileId: string): (p: Profile)
    ensures profileId in Keys(USE_CASE_PROFILES) ==> p.id == profileId
    ensures profileId !in Keys(USE_CASE_PROFILES) ==> p == DEFAULT_PROFILE
    ensures p in GetAllProfiles()
  {
    ProfileTableShape();
    match Lookup(USE_CASE_PROFILES, profileId)
    case Some(p) => p
    case None => DEFAULT_PROFILE
  }

  /** `getAllProfiles`: all thirteen profiles, in declaration order. */
  function GetAllProfiles(): (all: seq<Profile>)
    ensures |all| == 13
    ensures forall i | 0 <= i < |all| :: all[i] == USE_CASE_PROFILES[i].value
  {
    Values(USE_CASE_PROFILES)
  }

  /** Listing and looking up agree: every listed profile is found again under its own id. */
  lemma ListedProfilesAreFound()
    ensures forall p | p in GetAllProfiles() :: GetProfile(p.id) == p
  {
    ProfileTableShape();
    forall p | p in GetAllProfiles() ensures GetProfile(p.id) == p {
      var i :| 0 <= i < |USE_CASE_PROFILES| && USE_CASE_PROFILES[i].value == p;
      LookupFinds(USE_CASE_PROFILES, i);
    }
  }

  /** The selection view of one profile. */
  function OptionOf(p: Profile): ProfileOption {
    ProfileOption(p.id, p.name, p.icon, p.description)
  }

  /** `getProfileOptions`: one option per profile, same order, keeping id, name, icon and description. */
  function GetProfileOptions(): (options: seq<ProfileOption>)
    ensures |options| == |GetAllProfiles()|
    ensures forall i | 0 <= i < |options| ::
      options[i].id == GetAllProfiles()[i].id && options[i].name == GetAllProfiles()[i].name &&
      options[i].icon == GetAllProfiles()[i].icon && options[i].description == GetAllProfiles()[i].description
  {
    var all := GetAllProfiles();
    seq(|all|, i requires 0 <= i < |all| => OptionOf(all[i]))
  }
}
