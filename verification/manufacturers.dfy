/**
 * The controller manufacturers, keyed by id, with lookups by id, market
 * position and specialty. Only the fields the lookups read are kept.
 */
module Manufacturers {
  import opened Wrappers
  import opened Strings
  import opened Catalog

  /** A manufacturer: id, display name, market position and specialties. */
  datatype Manufacturer = Manufacturer(id: string, name: string, marketPosition: string, specialties: seq<string>)

  const RAIN_BIRD: Entry<Manufacturer> := Entry("rain-bird",
    Manufacturer("rain-bird", "Rain Bird", "Premium",
      ["residential", "commercial", "golf_course", "smart_technology"]))
  const HUNTER: Entry<Manufacturer> := Entry("hunter",
    Manufacturer("hunter", "Hunter Industries", "Premium",
      ["residential", "commercial", "sports_field", "smart_technology"]))
  const ORBIT: Entry<Manufacturer> := Entry("orbit",
    Manufacturer("orbit", "Orbit Irrigation", "Value",
      ["residential", "small_garden", "budget_friendly", "smart_technology"]))
  const TORO: Entry<Manufacturer> := Entry("toro",
    Manufacturer("toro", "Toro", "Premium",
      ["golf_course", "commercial", "sports_field", "professional"]))

  /** `MANUFACTURERS`, in declaration order. */
  const MANUFACTURERS: seq<Entry<Manufacturer>> := [RAIN_BIRD, HUNTER, ORBIT, TORO]

  /** No manufacturer id is declared twice, and each entry's id is its key. */
  lemma ManufacturerTableShape()
    ensures DistinctKeys(MANUFACTURERS)
    ensures forall i | 0 <= i < |MANUFACTURERS| :: MANUFACTURERS[i].value.id == MANUFACTURERS[i].key
  {
  }

  /** `getManufacturer`: the manufacturer stored under the id, or nothing for an unknown id. */
  function GetManufacturer(manufacturerId: string): (r: Option<Manufacturer>)
    ensures r.None? <==> manufacturerId !in Keys(MANUFACTURERS)
    ensures r.Some? ==> r.value.id == manufacturerId
  {
    ManufacturerTableShape();
    Lookup(MANUFACTURERS, manufacturerId)
  }

  /** `getAllManufacturers`: the four manufacturers, in declaration order. */
  function GetAllManufacturers(): (all: seq<Manufacturer>)
    ensures |all| == 4
    ensures forall i | 0 <= i < 4 :: all[i].id == ["rain-bird", "hunter", "orbit", "toro"][i]
  {
    Values(MANUFACTURERS)
  }

  /** Listing and looking up agree: every key is listed, and every listed manufacturer is found again under its own id. */
  lemma ListedManufacturersAreFound()
    ensures forall m | m in GetAllManufacturers() :: GetManufacturer(m.id) == Some(m)
    ensures forall id | id in Keys(MANUFACTURERS) :: GetManufacturer(id).Some? && GetManufacturer(id).value in GetAllManufacturers()
  {
    ManufacturerTableShape();
    forall m | m in GetAllManufacturers() ensures GetManufacturer(m.id) == Some(m) {
      var i :| 0 <= i < |MANUFACTURERS| && MANUFACTURERS[i].value == m;
      LookupFinds(MANUFACTURERS, i);
    }
    forall id | id in Keys(MANUFACTURERS) ensures GetManufacturer(id).Some? && GetManufacturer(id).value in GetAllManufacturers() {
      var i :| 0 <= i < |MANUFACTURERS| && MANUFACTURERS[i].key == id;
      LookupFinds(MANUFACTURERS, i);
      assert GetAllManufacturers()[i] == MANUFACTURERS[i].value;
    }
  }

  /** The market test: the positions agree once both are lower-cased. */
  predicate InMarket(m: Manufacturer, position: string) {
    ToLower(m.marketPosition) == ToLower(position)
  }

  /** `getManufacturersByMarket`: the manufacturers in a market position, compared without regard to case. */
  function GetManufacturersByMarket(position: string): (r: seq<Manufacturer>)
    ensures forall m :: m in r <==> m in GetAllManufacturers() && InMarket(m, position)
  {
    Filter(GetAllManufacturers(), (m: Manufacturer) => InMarket(m, position))
  }

  /** The market search ignores the case of its argument. */
  lemma MarketIgnoresCase(position: string)
    ensures GetManufacturersByMarket(ToLower(position)) == GetManufacturersByMarket(position)
  {
    ToLowerIdempotent(position);
    FilterSameTest(GetAllManufacturers(),
      (m: Manufacturer) => InMarket(m, ToLower(position)), (m: Manufacturer) => InMarket(m, position));
  }

  /** `getManufacturersBySpecialty`: the manufacturers whose specialties include the argument. */
  function GetManufacturersBySpecialty(specialty: string): (r: seq<Manufacturer>)
    ensures forall m :: m in r <==> m in GetAllManufacturers() && specialty in m.specialties
  {
    Filter(GetAllManufacturers(), (m: Manufacturer) => specialty in m.specialties)
  }
}
