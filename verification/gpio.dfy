/**
 * The relay controller: one output pin object per wired zone, created by
 * `InitializeGpio` and driven by `StartZone` / `StopZone` / `StopAllZones`.
 * It keeps no notion of which zones are "running"; that is the zone manager's job.
 */
module Gpio {
  import opened Wrappers
  import opened Strings
  import opened Constants
  import opened MockGpioPin

  /** The error thrown for a zone that has no initialised pin. */
  function NotInitializedMessage(zoneId: int): string {
    "GPIO pin for zone " + IntToString(zoneId) + " not initialized"
  }

  /** The loop of `initializeGPIO`: one fresh output pin per wired zone, each written OFF. */
  method NewOutputPins() returns (created: map<int, MockGpio>)
    ensures created.Keys == GPIO_PINS.Keys
    ensures forall z | z in created :: fresh(created[z]) && created[z].direction == "out"
    ensures forall z | z in created :: created[z].pin == GPIO_PINS[z] && created[z].value == RELAY_OFF
    ensures forall z1, z2 | z1 in created && z2 in created && z1 != z2 :: created[z1] != created[z2]
  {
    var i := 0;
    created := map[];
    while i < |GPIO_ZONES|
      invariant 0 <= i <= |GPIO_ZONES|
      invariant created.Keys == set k | 0 <= k < i :: GPIO_ZONES[k]
      invariant forall z | z in created :: fresh(created[z]) && created[z].direction == "out"
      invariant forall z | z in created :: z in GPIO_PINS && created[z].pin == GPIO_PINS[z] && created[z].value == RELAY_OFF
      invariant forall z1, z2 | z1 in created && z2 in created && z1 != z2 :: created[z1] != created[z2]
    {
      var zoneId := GPIO_ZONES[i];
      var p := new MockGpio(GPIO_PINS[zoneId], "out");
      p.WriteSync(RELAY_OFF);
      created := created[zoneId := p];
      i := i + 1;
    }
    Constants.GpioTableShape();
  }

  class GpioController {
    /** Zone id to its pin object; filled by `InitializeGpio`. */
    var gpioPins: map<int, MockGpio>
    ghost var Repr: set<object>

    ghost predicate Valid()
      reads this, Repr
    {
      this in Repr &&
      (forall z | z in gpioPins :: gpioPins[z] in Repr) &&
      // distinct zones drive distinct pin objects
      (forall z1, z2 | z1 in gpioPins && z2 in gpioPins && z1 != z2 :: gpioPins[z1] != gpioPins[z2])
    }

    /** Only wired zones get a pin, and it is the pin the wiring table names. */
    ghost predicate Wired()
      reads this
    {
      forall z | z in gpioPins :: z in GPIO_PINS && gpioPins[z].pin == GPIO_PINS[z]
    }

    /** The level each initialised pin currently reads. */
    function Levels(): (levels: map<int, int>)
      requires Valid()
      reads this, Repr
      ensures levels.Keys == gpioPins.Keys
      ensures forall z | z in levels :: levels[z] == gpioPins[z].ReadSync()
    {
      map z | z in gpioPins :: gpioPins[z].value
    }

    /** `getZoneState`: true exactly when the zone has a pin and it reads `RELAY_ON`. */
    function GetZoneState(zoneId: int): (on: bool)
      requires Valid()
      reads this, Repr
      ensures on <==> zoneId in Levels() && Levels()[zoneId] == RELAY_ON
      ensures Wired() && zoneId !in GPIO_PINS ==> !on
    {
      zoneId in gpioPins && gpioPins[zoneId].ReadSync() == RELAY_ON
    }

    /** A controller before `initializeGPIO` has run: no zone has a pin. */
    constructor()
      ensures Valid() && Wired() && fresh(Repr)
      ensures gpioPins == map[]
    {
      gpioPins := map[];
      Repr := {this};
    }

    /** `initializeGPIO`: every wired zone gets a fresh output pin, written OFF. */
    method InitializeGpio()
      requires Valid() && Wired()
      modifies this
      ensures Valid() && Wired() && old(Repr) <= Repr && fresh(Repr - old(Repr))
      ensures gpioPins.Keys == GPIO_PINS.Keys
      ensures forall z | z in gpioPins :: fresh(gpioPins[z]) && gpioPins[z].direction == "out"
      ensures forall z | z in Levels() :: Levels()[z] == RELAY_OFF
    {
      var created := NewOutputPins();
      gpioPins := created;
      Repr := Repr + created.Values;
    }

    /** `startZone`: drives the zone's pin ON, or fails when the zone has no pin. */
    method StartZone(zoneId: int) returns (r: Result<(), string>)
      requires Valid()
      modifies Repr
      ensures Valid() && Repr == old(Repr) && gpioPins == old(gpioPins)
      ensures zoneId in gpioPins ==> r.Ok? && Levels() == old(Levels())[zoneId := RELAY_ON]
      ensures zoneId !in gpioPins ==> r == Err(NotInitializedMessage(zoneId)) && Levels() == old(Levels())
    {
      if zoneId !in gpioPins {
        return Err(NotInitializedMessage(zoneId));
      }
      gpioPins[zoneId].WriteSync(RELAY_ON);
      assert forall z | z in gpioPins && z != zoneId :: gpioPins[z].value == old(gpioPins[z].value);
      r := Ok(());
    }

    /** `stopZone`: drives the zone's pin OFF, or fails when the zone has no pin. */
    method StopZone(zoneId: int) returns (r: Result<(), string>)
      requires Valid()
      modifies Repr
      ensures Valid() && Repr == old(Repr) && gpioPins == old(gpioPins)
      ensures zoneId in gpioPins ==> r.Ok? && Levels() == old(Levels())[zoneId := RELAY_OFF]
      ensures zoneId !in gpioPins ==> r == Err(NotInitializedMessage(zoneId)) && Levels() == old(Levels())
    {
      if zoneId !in gpioPins {
        return Err(NotInitializedMessage(zoneId));
      }
      gpioPins[zoneId].WriteSync(RELAY_OFF);
      assert forall z | z in gpioPins && z != zoneId :: gpioPins[z].value == old(gpioPins[z].value);
      r := Ok(());
    }

    /** `stopAllZones`: every initialised wired pin is driven OFF; zones without a pin are skipped. */
    method StopAllZones()
      requires Valid() && Wired()
      modifies Repr
      ensures Valid() && Repr == old(Repr) && gpioPins == old(gpioPins)
      ensures Levels() == map z | z in old(Levels()) :: RELAY_OFF
      ensures forall z :: !GetZoneState(z)
    {
      var i := 0;
      while i < |GPIO_ZONES|
        invariant 0 <= i <= |GPIO_ZONES|
        invariant Valid() && Repr == old(Repr) && gpioPins == old(gpioPins)
        invariant forall z | z in gpioPins ::
          gpioPins[z].value == (if z in GPIO_ZONES[..i] then RELAY_OFF else old(gpioPins[z].value))
      {
        var zoneId := GPIO_ZONES[i];
        if zoneId in gpioPins {
          gpioPins[zoneId].WriteSync(RELAY_OFF);
        }
        i := i + 1;
      }
      Constants.GpioTableShape();
      assert GPIO_ZONES[..i] == GPIO_ZONES;
      assert forall z | z in gpioPins :: gpioPins[z].value == RELAY_OFF;
    }
  }
}
