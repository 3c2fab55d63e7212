/** The battery simulator of battery-simulator.js: per-vehicle charging amps
    chosen in the simulator panel, whether the simulation is active, and the
    time-to-90% estimate shown beside the controls. */
module BatterySimulation {
  import opened Telemetry
  import opened Numbers

  /** A vehicle's charger: the slider's amps range, the line voltage and the
      battery capacity in kWh. */
  datatype ChargingSpec = ChargingSpec(minAmps: int, maxAmps: int, voltage: int, batteryCapacity: real)

  function SpecOf(id: VehicleId): (s: ChargingSpec)
    ensures 0 < s.minAmps < s.maxAmps && s.voltage == 249 && s.batteryCapacity == Capacity(id)
  {
    match id
    case Model3 => ChargingSpec(5, 32, 249, MODEL_3_CAPACITY)
    case ModelX => ChargingSpec(7, 48, 249, MODEL_X_CAPACITY)
  }

  /** calculatePower: `amps * voltage / 1000` kW to one decimal. */
  function CalculatePower(amps: int, voltage: int): (kw: real)
    ensures -0.05 <= kw - (amps * voltage) as real / 1000.0 <= 0.05
  {
    Round1((amps * voltage) as real / 1000.0)
  }

  /** At the simulator's 249 V any positive whole number of amps gives a
      positive power, so the estimate never divides by zero. */
  lemma CalculatePowerPositive(amps: int)
    requires amps > 0
    ensures CalculatePower(amps, 249) > 0.0
  {
  }

  /** The amps the panel starts from: the vehicle's reported charge amps
      clamped into the slider's range. */
  function ClampAmps(spec: ChargingSpec, chargeAmps: int): (amps: int)
    requires spec.minAmps <= spec.maxAmps
    ensures spec.minAmps <= amps <= spec.maxAmps
    ensures spec.minAmps <= chargeAmps <= spec.maxAmps ==> amps == chargeAmps
    ensures chargeAmps < spec.minAmps ==> amps == spec.minAmps
    ensures chargeAmps > spec.maxAmps ==> amps == spec.maxAmps
  {
    if spec.minAmps >= (if spec.maxAmps <= chargeAmps then spec.maxAmps else chargeAmps) then spec.minAmps
    else if spec.maxAmps <= chargeAmps then spec.maxAmps
    else chargeAmps
  }

  /** Hours for a vehicle at `level` percent to reach 90% at `powerKw`. */
  function HoursToNinety(level: real, capacity: real, powerKw: real): real
    requires powerKw > 0.0
  {
    ((90.0 - level) / 100.0 * capacity) / powerKw
  }

  /** Whether a vehicle contributes to the estimate. */
  predicate Qualifies(amps: int, level: real) {
    amps > 0 && level < 90.0
  }

  function VehicleHours(id: VehicleId, amps: int, level: real): (h: real)
    requires amps > 0
  {
    CalculatePowerPositive(amps);
    HoursToNinety(level, SpecOf(id).batteryCapacity, CalculatePower(amps, SpecOf(id).voltage))
  }

  /** What the time-to-90% display shows: nothing changes for an empty data
      set; otherwise "--" or a number of hours. */
  datatype Estimate = Unchanged | NoEstimate | Hours(hours: real)

  /** The time-to-90% estimate as a function of the amps settings and the
      latest battery levels. */
  function TimeToNinety(model3Amps: int, modelXAmps: int, energyData: seq<Sample>): Estimate {
    if |energyData| == 0 then Unchanged
    else
      var latest := energyData[|energyData| - 1];
      var l3 := LevelOrZero(latest.model3.battery);
      var lx := LevelOrZero(latest.modelX.battery);
      if Qualifies(model3Amps, l3) && Qualifies(modelXAmps, lx) then
        Hours(Max(VehicleHours(Model3, model3Amps, l3), VehicleHours(ModelX, modelXAmps, lx)))
      else if Qualifies(model3Amps, l3) then Hours(VehicleHours(Model3, model3Amps, l3))
      else if Qualifies(modelXAmps, lx) then Hours(VehicleHours(ModelX, modelXAmps, lx))
      else NoEstimate
  }

  /** An estimate exists iff some vehicle charges below 90%; it is positive,
      it is the longer of the two times when both vehicles qualify, and the
      one qualifying vehicle's time otherwise. */
  lemma TimeToNinetySpec(model3Amps: int, modelXAmps: int, energyData: seq<Sample>)
    requires energyData != []
    ensures var latest := energyData[|energyData| - 1];
      var l3 := LevelOrZero(latest.model3.battery);
      var lx := LevelOrZero(latest.modelX.battery);
      var e := TimeToNinety(model3Amps, modelXAmps, energyData);
      (e.Hours? <==> Qualifies(model3Amps, l3) || Qualifies(modelXAmps, lx)) &&
      (e.Hours? ==> e.hours > 0.0) &&
      (e.Hours? && Qualifies(model3Amps, l3) ==> e.hours >= VehicleHours(Model3, model3Amps, l3)) &&
      (e.Hours? && Qualifies(modelXAmps, lx) ==> e.hours >= VehicleHours(ModelX, modelXAmps, lx)) &&
      (Qualifies(model3Amps, l3) && Qualifies(modelXAmps, lx) ==>
        e == Hours(Max(VehicleHours(Model3, model3Amps, l3), VehicleHours(ModelX, modelXAmps, lx)))) &&
      (Qualifies(model3Amps, l3) && !Qualifies(modelXAmps, lx) ==>
        e == Hours(VehicleHours(Model3, model3Amps, l3))) &&
      (!Qualifies(model3Amps, l3) && Qualifies(modelXAmps, lx) ==>
        e == Hours(VehicleHours(ModelX, modelXAmps, lx)))
  {
    var latest := energyData[|energyData| - 1];
    var l3 := LevelOrZero(latest.model3.battery);
    var lx := LevelOrZero(latest.modelX.battery);
    if Qualifies(model3Amps, l3) {
      CalculatePowerPositive(model3Amps);
      PositiveQuotient((90.0 - l3) / 100.0 * MODEL_3_CAPACITY, CalculatePower(model3Amps, 249));
    }
    if Qualifies(modelXAmps, lx) {
      CalculatePowerPositive(modelXAmps);
      PositiveQuotient((90.0 - lx) / 100.0 * MODEL_X_CAPACITY, CalculatePower(modelXAmps, 249));
    }
  }

  lemma PositiveQuotient(x: real, y: real)
    requires x > 0.0 && y > 0.0
    ensures x / y > 0.0
  {
  }

  // ---------------------------------------------------------------------
  // The time-to-90% text

  /** The display as written: whole hours, then the remaining fraction
      rounded to minutes on its own. */
  function SplitHoursAsWritten(t: real): (int, int) {
    var hours := t.Floor;
    (hours, ((t - hours as real) * 60.0 + 0.5).Floor)
  }

  /** Just under two hours is shown as one hour and sixty minutes. */
  lemma SplitHoursShowsSixtyMinutes()
    ensures SplitHoursAsWritten(1.999) == (1, 60)
  {
  }

  /** The display rounded once, to whole minutes, before splitting into hours
      and minutes: the minutes are always below 60 and the total is the
      estimate to the nearest minute. */
  function SplitHours(t: real): (hm: (int, int))
    ensures 0 <= hm.1 < 60
    ensures t * 60.0 - 0.5 < (hm.0 * 60 + hm.1) as real <= t * 60.0 + 0.5
  {
    var totalMinutes := (t * 60.0 + 0.5).Floor;
    (totalMinutes / 60, totalMinutes % 60)
  }

  /** "<h>h <m>m" with at least one hour, else "<m>m"; "--" without an
      estimate. The hours and minutes are those of the corrected `SplitHours`,
      so the minutes shown are always below 60. */
  function TimeToNinetyText(e: Estimate): (s: string)
    requires e != Unchanged
    ensures s == "--" <==> e.NoEstimate? || e.hours <= 0.0
    ensures e.Hours? && e.hours > 0.0 ==>
      exists h: nat, m: nat :: m < 60 && SplitHours(e.hours) == (h, m) &&
        s == (if h > 0 then NatToString(h) + "h " + NatToString(m) + "m" else NatToString(m) + "m")
  {
    match e
    case NoEstimate => "--"
    case Hours(t) =>
      if t > 0.0 then
        var hm := SplitHours(t);
        var text := if hm.0 > 0 then NatToString(hm.0) + "h " + NatToString(hm.1) + "m"
          else NatToString(hm.1) + "m";
        assert text[|text| - 1] == 'm';
        text
      else "--"
  }

  // ---------------------------------------------------------------------
  // The simulator's state

  class BatterySimulator {
    var model3Amps: int
    var modelXAmps: int
    var isActive: bool

    /** Both vehicles at 0 amps ("not charging"), simulation off. */
    constructor()
      ensures model3Amps == 0 && modelXAmps == 0 && !isActive
    {
      model3Amps := 0;
      modelXAmps := 0;
      isActive := false;
    }

    function AmpsOf(id: VehicleId): int
      reads this
    {
      match id
      case Model3 => model3Amps
      case ModelX => modelXAmps
    }

    /** Each vehicle is either off (0 amps) or within its slider's range. */
    predicate AmpsInRange()
      reads this
    {
      (model3Amps == 0 || SpecOf(Model3).minAmps <= model3Amps <= SpecOf(Model3).maxAmps) &&
      (modelXAmps == 0 || SpecOf(ModelX).minAmps <= modelXAmps <= SpecOf(ModelX).maxAmps)
    }

    /** `simulationSettings[prefix + 'Amps'] = amps`. */
    method SetAmps(id: VehicleId, amps: int)
      modifies this
      ensures AmpsOf(id) == amps
      ensures id == Model3 ==> modelXAmps == old(modelXAmps)
      ensures id == ModelX ==> model3Amps == old(model3Amps)
      ensures isActive == old(isActive)
    {
      match id
      case Model3 => model3Amps := amps;
      case ModelX => modelXAmps := amps;
    }

    /** toggleVehicleCharging: enabling takes the slider's current value,
        disabling sets 0; the other vehicle and the active flag stay. */
    method ToggleVehicleCharging(id: VehicleId, isEnabled: bool, sliderValue: int)
      modifies this
      ensures AmpsOf(id) == (if isEnabled then sliderValue else 0)
      ensures id == Model3 ==> modelXAmps == old(modelXAmps)
      ensures id == ModelX ==> model3Amps == old(model3Amps)
      ensures isActive == old(isActive)
      ensures old(AmpsInRange()) && SpecOf(id).minAmps <= sliderValue <= SpecOf(id).maxAmps ==> AmpsInRange()
    {
      if isEnabled {
        SetAmps(id, sliderValue);
      } else {
        SetAmps(id, 0);
      }
    }

    /** updateAmpsDisplay: a slider move stores its amps only when the
        vehicle's amps and power labels are on the page. */
    method UpdateAmpsDisplay(id: VehicleId, amps: int, labelsPresent: bool)
      modifies this
      ensures AmpsOf(id) == (if labelsPresent then amps else old(AmpsOf(id)))
      ensures id == Model3 ==> modelXAmps == old(modelXAmps)
      ensures id == ModelX ==> model3Amps == old(model3Amps)
      ensures isActive == old(isActive)
      ensures old(AmpsInRange()) && SpecOf(id).minAmps <= amps <= SpecOf(id).maxAmps ==> AmpsInRange()
    {
      if labelsPresent {
        SetAmps(id, amps);
      }
    }

    /** resetSimulation: both vehicles back to 0 amps; the active flag is not
        touched. */
    method ResetSimulation()
      modifies this
      ensures model3Amps == 0 && modelXAmps == 0
      ensures isActive == old(isActive)
      ensures AmpsInRange()
    {
      model3Amps := 0;
      modelXAmps := 0;
      ToggleVehicleCharging(Model3, false, SpecOf(Model3).minAmps);
      ToggleVehicleCharging(ModelX, false, SpecOf(ModelX).minAmps);
    }

    /** The amps initializeFromCurrentData leaves for one vehicle. */
    static function InitialAmps(id: VehicleId, latest: Sample, current: int): int {
      var v := latest.VehicleOf(id);
      if v.isCharging && v.chargeAmps > 0 then ClampAmps(SpecOf(id), v.chargeAmps) else current
    }

    /** initializeFromCurrentData: a vehicle that is charging with positive
        amps in the latest sample gets those amps clamped into its range;
        anything else is left as it was. */
    method InitializeFromCurrentData(energyData: seq<Sample>)
      modifies this
      ensures energyData == [] ==> model3Amps == old(model3Amps) && modelXAmps == old(modelXAmps)
      ensures energyData != [] ==>
        model3Amps == InitialAmps(Model3, energyData[|energyData| - 1], old(model3Amps)) &&
        modelXAmps == InitialAmps(ModelX, energyData[|energyData| - 1], old(modelXAmps))
      ensures isActive == old(isActive)
      ensures old(AmpsInRange()) ==> AmpsInRange()
    {
      if |energyData| == 0 {
        return;
      }
      var latest := energyData[|energyData| - 1];
      if latest.model3.isCharging && latest.model3.chargeAmps > 0 {
        var amps := ClampAmps(SpecOf(Model3), latest.model3.chargeAmps);
        ToggleVehicleCharging(Model3, true, amps);
      }
      if latest.modelX.isCharging && latest.modelX.chargeAmps > 0 {
        var amps := ClampAmps(SpecOf(ModelX), latest.modelX.chargeAmps);
        ToggleVehicleCharging(ModelX, true, amps);
      }
    }

    /** toggleSimulationMode: without the panel on the page nothing happens;
        otherwise the flag flips, switching on starts from the current data
        and switching off resets both vehicles. */
    method ToggleSimulationMode(controlsPresent: bool, energyData: seq<Sample>)
      modifies this
      ensures !controlsPresent ==>
        isActive == old(isActive) && model3Amps == old(model3Amps) && modelXAmps == old(modelXAmps)
      ensures controlsPresent ==> isActive == !old(isActive)
      ensures controlsPresent && !isActive ==> model3Amps == 0 && modelXAmps == 0
      ensures controlsPresent && isActive && energyData != [] ==>
        model3Amps == InitialAmps(Model3, energyData[|energyData| - 1], old(model3Amps)) &&
        modelXAmps == InitialAmps(ModelX, energyData[|energyData| - 1], old(modelXAmps))
      ensures controlsPresent && isActive && energyData == [] ==>
        model3Amps == old(model3Amps) && modelXAmps == old(modelXAmps)
      ensures old(AmpsInRange()) ==> AmpsInRange()
    {
      if !controlsPresent {
        return;
      }
      isActive := !isActive;
      if isActive {
        InitializeFromCurrentData(energyData);
      } else {
        ResetSimulation();
      }
    }

    /** applySimulation's guard: the chart is redrawn only while the
        simulation is active. */
    method ApplySimulation() returns (redraw: bool)
      ensures redraw <==> isActive
    {
      if !isActive {
        return false;
      }
      return true;
    }

    /** updateTimeEstimates: the estimate from the current amps settings. */
    method UpdateTimeEstimates(energyData: seq<Sample>) returns (e: Estimate)
      ensures e == TimeToNinety(model3Amps, modelXAmps, energyData)
    {
      if |energyData| == 0 {
        return Unchanged;
      }
      var latest := energyData[|energyData| - 1];
      var currentModel3Level := LevelOrZero(latest.model3.battery);
      var currentModelXLevel := LevelOrZero(latest.modelX.battery);
      var timeToNinety: Option<real> := None;

      if model3Amps > 0 && currentModel3Level < 90.0 {
        var model3Power := CalculatePower(model3Amps, SpecOf(Model3).voltage);
        CalculatePowerPositive(model3Amps);
        var percentageNeeded := 90.0 - currentModel3Level;
        var kWhNeeded := percentageNeeded / 100.0 * SpecOf(Model3).batteryCapacity;
        var hoursNeeded := kWhNeeded / model3Power;
        timeToNinety := Some(hoursNeeded);
      }

      if modelXAmps > 0 && currentModelXLevel < 90.0 {
        var modelXPower := CalculatePower(modelXAmps, SpecOf(ModelX).voltage);
        CalculatePowerPositive(modelXAmps);
        var percentageNeeded := 90.0 - currentModelXLevel;
        var kWhNeeded := percentageNeeded / 100.0 * SpecOf(ModelX).batteryCapacity;
        var hoursNeeded := kWhNeeded / modelXPower;
        if timeToNinety.Some? && timeToNinety.value != 0.0 {
          timeToNinety := Some(Max(timeToNinety.value, hoursNeeded));
        } else {
          timeToNinety := Some(hoursNeeded);
        }
      }

      if timeToNinety.Some? {
        return Hours(timeToNinety.value);
      }
      return NoEstimate;
    }
  }
}
