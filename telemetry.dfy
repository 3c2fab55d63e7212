/** Telemetry samples as the dashboard reads them from the energy feed, and the
    battery capacities of config.js.

    Numeric fields that the feed may omit are read as 0: every use in the
    dashboard goes through `x || 0`, a truthiness test or a `> 0` comparison,
    and all three treat a missing value and 0 alike. A vehicle's battery level
    stays optional, because the chart code tests it against null. */
module Telemetry {

  datatype Option<+T> = None | Some(value: T)

  /** The two vehicles, named by the field prefix the feed uses. */
  datatype VehicleId = Model3 | ModelX

  /** One vehicle block of a sample (`Model3...` or `ModelX...` fields). */
  datatype Vehicle = Vehicle(
    isAvailable: bool,
    battery: Option<real>,
    isCharging: bool,
    chargeAmps: int,         // whole amps
    chargerPowerKw: real,
    chargingState: string)   // "" when the feed has none

  /** One telemetry reading. `timestamp` is local time in milliseconds. */
  datatype Sample = Sample(
    timestamp: int,
    solarPowerKw: real,
    batteryPowerKw: real,
    batteryPercentage: real,
    gridPowerKw: real,
    loadPowerKw: real,
    thermostatIsOnline: bool,
    thermostatIsOn: bool,
    thermostatIsActivelyRunning: bool,
    thermostatStatus: Option<string>,
    thermostatCurrentTempF: real,
    weatherTemperatureF: real,
    model3: Vehicle,
    modelX: Vehicle)
  {
    /** `point[prefix + ...]`: the vehicle block named by a prefix. */
    function VehicleOf(id: VehicleId): Vehicle {
      match id
      case Model3 => model3
      case ModelX => modelX
    }
  }

  // Battery capacities in kWh (config.js)
  const MODEL_3_CAPACITY: real := 52.4
  const MODEL_X_CAPACITY: real := 100.0
  const POWERWALL_CAPACITY: real := 13.5

  function Capacity(id: VehicleId): (c: real)
    ensures c > 0.0
  {
    match id
    case Model3 => MODEL_3_CAPACITY
    case ModelX => MODEL_X_CAPACITY
  }

  /** `x || 0` for a nullable battery level. */
  function LevelOrZero(b: Option<real>): real {
    match b
    case Some(v) => v
    case None => 0.0
  }

  /** A thermostat status string is truthy when present and non-empty. */
  predicate StatusTruthy(s: Option<string>) {
    s.Some? && s.value != ""
  }

  /** Timestamps ascending, as ingestion leaves the data. */
  ghost predicate Ascending(data: seq<Sample>) {
    forall i, j :: 0 <= i < j < |data| ==> data[i].timestamp <= data[j].timestamp
  }

  /** The index of the last sample in which vehicle `id` is available, if
      any. */
  function LastAvailableIndex(data: seq<Sample>, id: VehicleId): (r: Option<nat>)
    ensures r.Some? ==> r.value < |data| && data[r.value].VehicleOf(id).isAvailable
    ensures r.Some? ==> forall j :: r.value < j < |data| ==> !data[j].VehicleOf(id).isAvailable
    ensures r.None? ==> forall j :: 0 <= j < |data| ==> !data[j].VehicleOf(id).isAvailable
  {
    if |data| == 0 then None
    else if data[|data| - 1].VehicleOf(id).isAvailable then Some(|data| - 1)
    else LastAvailableIndex(data[..|data| - 1], id)
  }

  /** `findLastVehicleData`'s result: the sample and its age in ms. */
  datatype LastData = LastData(data: Sample, age: int)

  /** The four parallel series a battery forecast emits. A label is the
      step's timestamp (its formatting as "hh:mm AM" is not modelled). */
  datatype Predictions = Predictions(
    labels: seq<int>,
    powerwall: seq<real>,
    model3: seq<Option<real>>,
    modelX: seq<Option<real>>)

  const EMPTY: Predictions := Predictions([], [], [], [])

  function Max(a: real, b: real): real { if a >= b then a else b }
  function Min(a: real, b: real): real { if a <= b then a else b }
}
