/** The quarter-hour battery forecast of prediction-generator.js: from the
    latest sample of the day, step forward 15 minutes at a time to the end of
    the day, draining or charging the Powerwall by a net power fixed before
    the loop, and charging each vehicle at its current charger power. */
module QuarterHourForecast {
  import opened Telemetry
  import opened Clock

  /** Powerwall energy moved per step by 1 kW: 15 minutes is 0.25 h. */
  const STEP_HOURS: real := 0.25

  // ---------------------------------------------------------------------
  // The net drain, computed once before the loop

  /** Thermostat draw added to the consumption total: only when online with
      a status that is present and not 'OFF'. */
  function ThermostatDraw(latest: Sample): real {
    if latest.thermostatIsOnline && StatusTruthy(latest.thermostatStatus)
       && latest.thermostatStatus.value != "OFF"
    then (if latest.thermostatIsActivelyRunning then 5.6 else 0.9)
    else 0.0
  }

  /** A vehicle's charging draw: `IsCharging && ChargerPowerKw` (truthy). */
  function ChargingDraw(v: Vehicle): real {
    if v.isCharging && v.chargerPowerKw != 0.0 then v.chargerPowerKw else 0.0
  }

  /** The consumers subtracted from the measured load. Here the thermostat
      counts when it is on and online, whatever its status. */
  function KnownConsumption(latest: Sample): real {
    (if latest.thermostatIsOn && latest.thermostatIsOnline
     then (if latest.thermostatIsActivelyRunning then 5.6 else 0.9) else 0.0)
    + (if latest.model3.isCharging then latest.model3.chargerPowerKw else 0.0)
    + (if latest.modelX.isCharging then latest.modelX.chargerPowerKw else 0.0)
  }

  function HouseBaseConsumption(latest: Sample): real {
    Max(0.0, latest.loadPowerKw - KnownConsumption(latest))
  }

  function TotalConsumption(latest: Sample): real {
    ThermostatDraw(latest) + ChargingDraw(latest.model3) + ChargingDraw(latest.modelX)
    + HouseBaseConsumption(latest)
  }

  /** Consumption minus solar and grid import: positive drains the Powerwall,
      negative charges it. */
  function NetDrain(latest: Sample): real {
    TotalConsumption(latest) - (latest.solarPowerKw + Max(0.0, latest.gridPowerKw))
  }

  /** When both thermostat tests agree, the consumption total is the larger of
      the measured load and the known consumers: never below the load. */
  lemma ConsumptionCoversLoad(latest: Sample)
    requires ThermostatDraw(latest) ==
      (if latest.thermostatIsOn && latest.thermostatIsOnline
       then (if latest.thermostatIsActivelyRunning then 5.6 else 0.9) else 0.0)
    ensures TotalConsumption(latest) == Max(latest.loadPowerKw, KnownConsumption(latest))
    ensures TotalConsumption(latest) >= latest.loadPowerKw
  {
  }

  // ---------------------------------------------------------------------
  // One step of the simulation

  /** The Powerwall update of one step (kWh). */
  function PowerwallStep(kwh: real, drain: real): real {
    if drain > 0.0 then Max(0.0, kwh - drain * STEP_HOURS)
    else if drain < 0.0 then Min(POWERWALL_CAPACITY, kwh + (-drain) * STEP_HOURS)
    else kwh
  }

  /** `x` clamped into the Powerwall's range: unchanged inside it, the
      nearer bound outside. */
  function ClampKwh(x: real): (r: real)
    ensures 0.0 <= r <= POWERWALL_CAPACITY
    ensures 0.0 <= x <= POWERWALL_CAPACITY ==> r == x
    ensures x < 0.0 ==> r == 0.0
    ensures x > POWERWALL_CAPACITY ==> r == POWERWALL_CAPACITY
  {
    Max(0.0, Min(POWERWALL_CAPACITY, x))
  }

  /** From a level within capacity, a step moves the energy by the drain over
      a quarter hour and clamps it into [0, capacity]. */
  lemma PowerwallStepIsClampedMove(kwh: real, drain: real)
    requires 0.0 <= kwh <= POWERWALL_CAPACITY
    ensures PowerwallStep(kwh, drain) == ClampKwh(kwh - drain * STEP_HOURS)
  {
  }

  /** The Powerwall energy after `k` steps. */
  function KwhAfter(kwh0: real, drain: real, k: nat): real {
    if k == 0 then kwh0 else PowerwallStep(KwhAfter(kwh0, drain, k - 1), drain)
  }

  /** `kWh / capacity * 100`. */
  function Percent(kwh: real): real {
    kwh / POWERWALL_CAPACITY * 100.0
  }

  /** A vehicle charges only when `IsCharging && ChargerPowerKw > 0`. */
  predicate Charges(v: Vehicle) {
    v.isCharging && v.chargerPowerKw > 0.0
  }

  /** Percent gained per quarter hour at the vehicle's charger power. */
  function QuarterGain(v: Vehicle, capacity: real): real
    requires capacity > 0.0
  {
    v.chargerPowerKw * STEP_HOURS / capacity * 100.0
  }

  function VehicleStep(level: real, v: Vehicle, capacity: real): real
    requires capacity > 0.0
  {
    if Charges(v) then Min(100.0, level + QuarterGain(v, capacity)) else level
  }

  function LevelAfter(level0: real, v: Vehicle, capacity: real, k: nat): real
    requires capacity > 0.0
  {
    if k == 0 then level0 else VehicleStep(LevelAfter(level0, v, capacity, k - 1), v, capacity)
  }

  // ---------------------------------------------------------------------
  // The step times

  /** `now` with its minute rounded up to a quarter and seconds zeroed. */
  function FirstStep(now: int): int {
    SetMinutes(now, CeilQuarter(MinuteOf(now)))
  }

  // ---------------------------------------------------------------------
  // The forecast as a function of the day's samples

  function Labels(first: int, n: nat): seq<int> {
    seq(n, j => first + j * QUARTER)
  }

  function PowerwallSeries(kwh0: real, drain: real, n: nat): seq<real> {
    seq(n, j requires 0 <= j < n => Percent(KwhAfter(kwh0, drain, j + 1)))
  }

  /** A vehicle's series: its level after each step, or null at every step
      when it is unavailable in the latest sample. */
  function VehicleSeries(v: Vehicle, capacity: real, n: nat): seq<Option<real>>
    requires capacity > 0.0
  {
    seq(n, j requires 0 <= j < n =>
      if v.isAvailable then Some(LevelAfter(LevelOrZero(v.battery), v, capacity, j + 1)) else None)
  }

  function Forecast(todayData: seq<Sample>): Predictions {
    if |todayData| == 0 then EMPTY
    else
      var latest := todayData[|todayData| - 1];
      var first := FirstStep(latest.timestamp);
      var n := StepsUpTo(first, EndOfDay(latest.timestamp), QUARTER);
      Predictions(
        Labels(first, n),
        PowerwallSeries(latest.batteryPercentage / 100.0 * POWERWALL_CAPACITY, NetDrain(latest), n),
        VehicleSeries(latest.model3, MODEL_3_CAPACITY, n),
        VehicleSeries(latest.modelX, MODEL_X_CAPACITY, n))
  }

  /** Lines 28-64 of generateBatteryPredictions: the consumption total, the
      energy input and their difference. */
  method ComputeNetDrain(latest: Sample) returns (netPowerwallDrainKw: real)
    ensures netPowerwallDrainKw == NetDrain(latest)
  {
    var totalConsumptionKw := 0.0;
    if latest.thermostatIsOnline && StatusTruthy(latest.thermostatStatus)
       && latest.thermostatStatus.value != "OFF" {
      if latest.thermostatIsActivelyRunning {
        totalConsumptionKw := totalConsumptionKw + 5.6;
      } else {
        totalConsumptionKw := totalConsumptionKw + 0.9;
      }
    }
    if latest.model3.isCharging && latest.model3.chargerPowerKw != 0.0 {
      totalConsumptionKw := totalConsumptionKw + latest.model3.chargerPowerKw;
    }
    if latest.modelX.isCharging && latest.modelX.chargerPowerKw != 0.0 {
      totalConsumptionKw := totalConsumptionKw + latest.modelX.chargerPowerKw;
    }
    var houseBaseConsumption := Max(0.0, latest.loadPowerKw - KnownConsumption(latest));
    totalConsumptionKw := totalConsumptionKw + houseBaseConsumption;
    var totalEnergyInputKw := latest.solarPowerKw + Max(0.0, latest.gridPowerKw);
    netPowerwallDrainKw := totalConsumptionKw - totalEnergyInputKw;
  }

  /** generateBatteryPredictions (prediction-generator.js). */
  method GenerateBatteryPredictions(todayData: seq<Sample>) returns (p: Predictions)
    ensures p == Forecast(todayData)
  {
    if |todayData| == 0 {
      return EMPTY;
    }
    var latest := todayData[|todayData| - 1];
    var now := latest.timestamp;
    var endOfDay := EndOfDay(now);
    var labels: seq<int>, powerwall: seq<real> := [], [];
    var model3: seq<Option<real>>, modelX: seq<Option<real>> := [], [];

    var currentTime := SetMinutes(now, CeilQuarter(MinuteOf(now)));
    var currentPowerwallKwh := latest.batteryPercentage / 100.0 * POWERWALL_CAPACITY;
    var currentModel3Level := LevelOrZero(latest.model3.battery);
    var currentModelXLevel := LevelOrZero(latest.modelX.battery);

    var netPowerwallDrainKw := ComputeNetDrain(latest);

    ghost var first := currentTime;
    ghost var kwh0 := currentPowerwallKwh;
    ghost var n := StepsUpTo(first, endOfDay, QUARTER);
    while currentTime <= endOfDay
      invariant |powerwall| == |model3| == |modelX| == |labels| <= n
      invariant currentTime == first + |labels| * QUARTER
      invariant labels == Labels(first, |labels|)
      invariant currentPowerwallKwh == KwhAfter(kwh0, netPowerwallDrainKw, |labels|)
      invariant powerwall == PowerwallSeries(kwh0, netPowerwallDrainKw, |labels|)
      invariant currentModel3Level ==
        LevelAfter(LevelOrZero(latest.model3.battery), latest.model3, MODEL_3_CAPACITY, |labels|)
      invariant currentModelXLevel ==
        LevelAfter(LevelOrZero(latest.modelX.battery), latest.modelX, MODEL_X_CAPACITY, |labels|)
      invariant model3 == VehicleSeries(latest.model3, MODEL_3_CAPACITY, |labels|)
      invariant modelX == VehicleSeries(latest.modelX, MODEL_X_CAPACITY, |labels|)
      decreases endOfDay - currentTime
    {
      ghost var i := |labels|;
      StepsUpToSpec(first, endOfDay, QUARTER, i);
      SeriesExtend(first, kwh0, netPowerwallDrainKw, latest, i);
      labels := labels + [currentTime];

      if netPowerwallDrainKw > 0.0 {
        var energyConsumedIn15Min := netPowerwallDrainKw * STEP_HOURS;
        currentPowerwallKwh := Max(0.0, currentPowerwallKwh - energyConsumedIn15Min);
      } else if netPowerwallDrainKw < 0.0 {
        var energyGainedIn15Min := (-netPowerwallDrainKw) * STEP_HOURS;
        currentPowerwallKwh := Min(POWERWALL_CAPACITY, currentPowerwallKwh + energyGainedIn15Min);
      }
      var powerwallPercentage := currentPowerwallKwh / POWERWALL_CAPACITY * 100.0;

      if latest.model3.isCharging && latest.model3.chargerPowerKw > 0.0 {
        var percentageGainIn15Min := latest.model3.chargerPowerKw * STEP_HOURS / MODEL_3_CAPACITY * 100.0;
        currentModel3Level := Min(100.0, currentModel3Level + percentageGainIn15Min);
      }
      if latest.modelX.isCharging && latest.modelX.chargerPowerKw > 0.0 {
        var percentageGainIn15Min := latest.modelX.chargerPowerKw * STEP_HOURS / MODEL_X_CAPACITY * 100.0;
        currentModelXLevel := Min(100.0, currentModelXLevel + percentageGainIn15Min);
      }

      powerwall := powerwall + [powerwallPercentage];
      model3 := model3 + [if latest.model3.isAvailable then Some(currentModel3Level) else None];
      modelX := modelX + [if latest.modelX.isAvailable then Some(currentModelXLevel) else None];

      currentTime := currentTime + QUARTER;
    }
    StepsUpToSpec(first, endOfDay, QUARTER, |labels|);
    p := Predictions(labels, powerwall, model3, modelX);
  }

  /** Each series grows by one element per step. */
  lemma SeriesExtend(first: int, kwh0: real, drain: real, latest: Sample, i: nat)
    ensures Labels(first, i + 1) == Labels(first, i) + [first + i * QUARTER]
    ensures PowerwallSeries(kwh0, drain, i + 1) ==
      PowerwallSeries(kwh0, drain, i) + [Percent(KwhAfter(kwh0, drain, i + 1))]
    ensures VehicleSeries(latest.model3, MODEL_3_CAPACITY, i + 1) ==
      VehicleSeries(latest.model3, MODEL_3_CAPACITY, i) +
      [if latest.model3.isAvailable
       then Some(LevelAfter(LevelOrZero(latest.model3.battery), latest.model3, MODEL_3_CAPACITY, i + 1))
       else None]
    ensures VehicleSeries(latest.modelX, MODEL_X_CAPACITY, i + 1) ==
      VehicleSeries(latest.modelX, MODEL_X_CAPACITY, i) +
      [if latest.modelX.isAvailable
       then Some(LevelAfter(LevelOrZero(latest.modelX.battery), latest.modelX, MODEL_X_CAPACITY, i + 1))
       else None]
  {
  }

  // ---------------------------------------------------------------------
  // Properties of the forecast

  /** The first step is the quarter-hour mark at or after the start of
      `now`'s minute: it equals `now` exactly when `now` is itself on a quarter
      hour with zero seconds and milliseconds. */
  lemma FirstStepSpec(now: int)
    ensures FirstStep(now) % QUARTER == 0
    ensures now - now % MINUTE <= FirstStep(now) < now - now % MINUTE + QUARTER
    ensures FirstStep(now) == now <==> now % QUARTER == 0
    ensures StartOfDay(now) <= FirstStep(now)
  {
    HourStartInDay(now);
    var h := HourStart(now);
    var m := MinuteOf(now);
    var c := CeilQuarter(m);
    assert h == (now / HOUR) * HOUR;
    assert FirstStep(now) == (now / HOUR * 4 + c / 15) * QUARTER;
    ModUnique(FirstStep(now), QUARTER, now / HOUR * 4 + c / 15, 0);
    var r := m % 15 * MINUTE + now % MINUTE;
    assert now == (now / HOUR * 4 + m / 15) * QUARTER + r;
    ModUnique(now, QUARTER, now / HOUR * 4 + m / 15, r);
  }

  /** There are at most 96 steps, all within `now`'s day, 15 minutes apart. */
  lemma StepsWithinDay(now: int)
    ensures StepsUpTo(FirstStep(now), EndOfDay(now), QUARTER) <= 96
    ensures forall j :: 0 <= j < StepsUpTo(FirstStep(now), EndOfDay(now), QUARTER) ==>
      StartOfDay(now) <= FirstStep(now) + j * QUARTER <= EndOfDay(now)
  {
    var first := FirstStep(now);
    var end := EndOfDay(now);
    FirstStepSpec(now);
    if first <= end {
      var d := end - first;
      assert d <= 86399999;
      assert d / QUARTER <= 95;
    }
    forall j | 0 <= j < StepsUpTo(first, end, QUARTER)
      ensures StartOfDay(now) <= first + j * QUARTER <= end
    {
      StepsUpToSpec(first, end, QUARTER, j);
    }
  }

  /** Empty input gives four empty series; otherwise the four series have the
      same length, at most 96, and the labels start at the first step and
      advance by 15 minutes within the day. */
  lemma ForecastShape(todayData: seq<Sample>)
    ensures todayData == [] ==> Forecast(todayData) == EMPTY
    ensures var p := Forecast(todayData);
      |p.labels| == |p.powerwall| == |p.model3| == |p.modelX| <= 96
    ensures todayData != [] ==>
      var now := todayData[|todayData| - 1].timestamp;
      var p := Forecast(todayData);
      (|p.labels| > 0 ==> p.labels[0] == FirstStep(now)) &&
      (forall j :: 0 <= j < |p.labels| ==>
        StartOfDay(now) <= p.labels[j] <= EndOfDay(now)) &&
      (forall j :: 0 < j < |p.labels| ==> p.labels[j] == p.labels[j - 1] + QUARTER)
  {
    if todayData != [] {
      StepsWithinDay(todayData[|todayData| - 1].timestamp);
    }
  }

  /** From an energy within capacity, every step stays within capacity. */
  lemma {:induction false} KwhAfterBounds(kwh0: real, drain: real, k: nat)
    requires 0.0 <= kwh0 <= POWERWALL_CAPACITY
    ensures 0.0 <= KwhAfter(kwh0, drain, k) <= POWERWALL_CAPACITY
  {
    if k > 0 {
      KwhAfterBounds(kwh0, drain, k - 1);
    }
  }

  /** The energy is non-increasing under a positive drain, non-decreasing
      under a negative one and constant under none. */
  lemma {:induction false} KwhAfterMonotone(kwh0: real, drain: real, i: nat, j: nat)
    requires 0.0 <= kwh0 <= POWERWALL_CAPACITY
    requires i <= j
    ensures drain > 0.0 ==> KwhAfter(kwh0, drain, j) <= KwhAfter(kwh0, drain, i)
    ensures drain < 0.0 ==> KwhAfter(kwh0, drain, j) >= KwhAfter(kwh0, drain, i)
    ensures drain == 0.0 ==> KwhAfter(kwh0, drain, j) == KwhAfter(kwh0, drain, i)
  {
    if i < j {
      KwhAfterMonotone(kwh0, drain, i, j - 1);
      KwhAfterBounds(kwh0, drain, j - 1);
    }
  }

  /** With a starting percentage in [0, 100], every Powerwall percentage is in
      [0, 100], and the series moves in the direction the drain's sign says. */
  lemma PowerwallSeriesSpec(todayData: seq<Sample>)
    requires todayData != []
    requires 0.0 <= todayData[|todayData| - 1].batteryPercentage <= 100.0
    ensures var pw := Forecast(todayData).powerwall;
      forall j :: 0 <= j < |pw| ==> 0.0 <= pw[j] <= 100.0
    ensures var pw := Forecast(todayData).powerwall;
      var drain := NetDrain(todayData[|todayData| - 1]);
      forall i, j :: 0 <= i <= j < |pw| ==>
        (drain > 0.0 ==> pw[j] <= pw[i]) &&
        (drain < 0.0 ==> pw[j] >= pw[i]) &&
        (drain == 0.0 ==> pw[j] == pw[i])
  {
    var latest := todayData[|todayData| - 1];
    var kwh0 := latest.batteryPercentage / 100.0 * POWERWALL_CAPACITY;
    var drain := NetDrain(latest);
    var pw := Forecast(todayData).powerwall;
    forall j | 0 <= j < |pw|
      ensures 0.0 <= pw[j] <= 100.0
    {
      KwhAfterBounds(kwh0, drain, j + 1);
    }
    forall i, j | 0 <= i <= j < |pw|
      ensures (drain > 0.0 ==> pw[j] <= pw[i]) &&
        (drain < 0.0 ==> pw[j] >= pw[i]) &&
        (drain == 0.0 ==> pw[j] == pw[i])
    {
      KwhAfterMonotone(kwh0, drain, i + 1, j + 1);
    }
  }

  /** A vehicle level changes only when it charges; it then rises by the
      quarter-hour gain capped at 100, so from at most 100 it never falls and
      never exceeds 100. */
  lemma {:induction false} LevelAfterSpec(level0: real, v: Vehicle, capacity: real, k: nat)
    requires capacity > 0.0
    ensures !Charges(v) ==> LevelAfter(level0, v, capacity, k) == level0
    ensures Charges(v) && k > 0 ==> (LevelAfter(level0, v, capacity, k) ==
      Min(100.0, LevelAfter(level0, v, capacity, k - 1) + QuarterGain(v, capacity)))
    ensures level0 <= 100.0 ==> level0 <= LevelAfter(level0, v, capacity, k) <= 100.0
  {
    if k > 0 {
      LevelAfterSpec(level0, v, capacity, k - 1);
    }
  }

  /** Each step's level is at least the previous one's when starting at or
      below 100. */
  lemma {:induction false} LevelAfterMonotone(level0: real, v: Vehicle, capacity: real, i: nat, j: nat)
    requires capacity > 0.0 && level0 <= 100.0 && i <= j
    ensures LevelAfter(level0, v, capacity, i) <= LevelAfter(level0, v, capacity, j)
  {
    if i < j {
      LevelAfterMonotone(level0, v, capacity, i, j - 1);
      LevelAfterSpec(level0, v, capacity, j - 1);
    }
  }

  /** A vehicle unavailable in the latest sample is null at every step; an
      available one has a level at every step, non-decreasing and at most 100
      when it starts at most 100. */
  lemma VehicleSeriesSpec(v: Vehicle, capacity: real, n: nat)
    requires capacity > 0.0
    ensures var s := VehicleSeries(v, capacity, n);
      |s| == n && (forall j :: 0 <= j < n ==> (s[j].None? <==> !v.isAvailable))
    ensures var s := VehicleSeries(v, capacity, n);
      LevelOrZero(v.battery) <= 100.0 ==>
      forall i, j :: 0 <= i <= j < n && v.isAvailable ==>
        s[i].value <= s[j].value <= 100.0
  {
    var s := VehicleSeries(v, capacity, n);
    var l0 := LevelOrZero(v.battery);
    if l0 <= 100.0 {
      forall i, j | 0 <= i <= j < n && v.isAvailable
        ensures s[i].value <= s[j].value <= 100.0
      {
        LevelAfterMonotone(l0, v, capacity, i + 1, j + 1);
        LevelAfterSpec(l0, v, capacity, j + 1);
      }
    }
  }
}
