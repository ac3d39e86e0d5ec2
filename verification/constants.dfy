/** Application-wide constants: pin wiring, safety limits, relay levels, trigger names, HTTP statuses. */
module Constants {
  /** Zone ids wired to a relay, in the order the wiring table lists them. */
  const GPIO_ZONES: seq<int> := [1, 2, 3, 4, 5, 6, 7, 8]

  /** Zone id to Raspberry Pi GPIO pin number. */
  const GPIO_PINS: map<int, int> := map[1 := 17, 2 := 27, 3 := 22, 4 := 23, 5 := 24, 6 := 25, 7 := 5, 8 := 6]

  const MAX_RUNTIME_MINUTES: int := 60
  const MAX_CONCURRENT_ZONES: int := 2
  const MIN_DURATION_MINUTES: int := 1

  /** The relay modules are active-low: a LOW pin opens the valve. */
  const RELAY_ON: int := 0
  const RELAY_OFF: int := 1

  const TRIGGER_MANUAL: string := "manual"
  const TRIGGER_SCHEDULED: string := "scheduled"

  const DAY_NAMES: seq<string> := ["Sunday", "Monday", "Tuesday", "Wednesday", "Thursday", "Friday", "Saturday"]

  const HTTP_OK: int := 200
  const HTTP_CREATED: int := 201
  const HTTP_BAD_REQUEST: int := 400
  const HTTP_NOT_FOUND: int := 404
  const HTTP_INTERNAL_SERVER_ERROR: int := 500

  const VALIDATION_ERROR: string := "VALIDATION_ERROR"

  /** The wiring table lists each wired zone once, and exactly the wired zones. */
  lemma GpioTableShape()
    ensures forall i, j | 0 <= i < j < |GPIO_ZONES| :: GPIO_ZONES[i] != GPIO_ZONES[j]
    ensures forall z :: z in GPIO_PINS <==> z in GPIO_ZONES
    ensures forall z1, z2 | z1 in GPIO_PINS && z2 in GPIO_PINS && z1 != z2 :: GPIO_PINS[z1] != GPIO_PINS[z2]
  {
  }
}
