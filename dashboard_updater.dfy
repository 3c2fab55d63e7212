/** The values and status words of dashboard-updater.js: the energy-flow
    panel of `updateEnergyFlow` and the data source and texts of
    `updateVehicleCard`. Only what is written into the page is modelled, as
    values. */
module DashboardUpdater {
  import opened Telemetry
  import opened Numbers
  import QuarterHourForecast
  import IndexScript
  import Utils

  // ---------------------------------------------------------------------
  // updateEnergyFlow
  // ---------------------------------------------------------------------

  /** `IsCharging && ChargerPowerKw ? ChargerPowerKw : 0`. The truthiness
      test on the power makes no difference: a zero power gives 0 either
      way. */
  function ChargingPower(v: Vehicle): (kw: real)
    ensures v.isCharging ==> kw == v.chargerPowerKw
    ensures !v.isCharging ==> kw == 0.0
  {
    if v.isCharging && v.chargerPowerKw != 0.0 then v.chargerPowerKw else 0.0
  }

  /** The thermostat draws power when online with a status that is present
      and not 'OFF'. */
  predicate ThermostatDrawing(latest: Sample) {
    latest.thermostatIsOnline && StatusTruthy(latest.thermostatStatus) && latest.thermostatStatus.value != "OFF"
  }

  /** The thermostat power: 5.6 kW actively running, 0.9 kW for the fan, 0
      otherwise. */
  function ThermostatPower(latest: Sample): (kw: real)
    ensures kw == 0.0 || kw == 0.9 || kw == 5.6
    ensures kw > 0.0 <==> ThermostatDrawing(latest)
    ensures kw == 5.6 <==> ThermostatDrawing(latest) && latest.thermostatIsActivelyRunning
  {
    if latest.thermostatIsOnline && latest.thermostatStatus.Some? && latest.thermostatStatus.value != ""
       && latest.thermostatStatus.value != "OFF"
    then (if latest.thermostatIsActivelyRunning then 5.6 else 0.9)
    else 0.0
  }

  /** The panel and the quarter-hour forecast count the thermostat and the
      vehicles' charging the same way. */
  lemma AgreesWithForecast(latest: Sample)
    ensures ThermostatPower(latest) == QuarterHourForecast.ThermostatDraw(latest)
    ensures ChargingPower(latest.model3) == QuarterHourForecast.ChargingDraw(latest.model3)
    ensures ChargingPower(latest.modelX) == QuarterHourForecast.ChargingDraw(latest.modelX)
  {
  }

  /** The thermostat's status text: 'Off' for status 'OFF', the status itself
      while actively running, else 'Fan'. A missing status shows as empty. */
  function ThermostatStatusText(latest: Sample): (s: string)
    ensures latest.thermostatStatus == Some("OFF") ==> s == "Off"
    ensures latest.thermostatStatus != Some("OFF") && !latest.thermostatIsActivelyRunning ==> s == "Fan"
    ensures latest.thermostatStatus != Some("OFF") && latest.thermostatIsActivelyRunning ==>
      s == if latest.thermostatStatus.Some? then latest.thermostatStatus.value else ""
  {
    if latest.thermostatStatus == Some("OFF") then "Off"
    else if latest.thermostatIsActivelyRunning then
      (match latest.thermostatStatus case Some(st) => st case None => "")
    else "Fan"
  }

  /** A thermostat showing 'Off' because its status is 'OFF' draws nothing,
      and one showing 'Fan' draws at most the fan's 0.9 kW. */
  lemma ThermostatTextAndPower(latest: Sample)
    ensures latest.thermostatStatus == Some("OFF") ==> ThermostatPower(latest) == 0.0
    ensures ThermostatStatusText(latest) == "Fan" && !latest.thermostatIsActivelyRunning ==>
      ThermostatPower(latest) <= 0.9
  {
  }

  datatype PowerwallStatus = Charging | Discharging | Idle

  /** Below -0.1 kW the Powerwall is charging, above 0.1 kW discharging,
      otherwise idle. */
  function PowerwallStatusOf(batteryPower: real): (s: PowerwallStatus)
    ensures s == Charging <==> batteryPower < -0.1
    ensures s == Discharging <==> batteryPower > 0.1
    ensures s == Idle <==> -0.1 <= batteryPower <= 0.1
  {
    if batteryPower < -0.1 then Charging
    else if batteryPower > 0.1 then Discharging
    else Idle
  }

  datatype GridStatus = Importing | Exporting | Balanced

  /** Above 0.1 kW the grid is importing, below -0.1 kW exporting, otherwise
      balanced. */
  function GridStatusOf(gridPower: real): (s: GridStatus)
    ensures s == Importing <==> gridPower > 0.1
    ensures s == Exporting <==> gridPower < -0.1
    ensures s == Balanced <==> -0.1 <= gridPower <= 0.1
  {
    if gridPower > 0.1 then Importing
    else if gridPower < -0.1 then Exporting
    else Balanced
  }

  /** The two classifications mirror each other: a flow of the same size in
      the other direction swaps importing for exporting, as charging for
      discharging. */
  lemma StatusSymmetry(p: real)
    ensures GridStatusOf(-p) == match GridStatusOf(p)
      case Importing => Exporting
      case Exporting => Importing
      case Balanced => Balanced
    ensures PowerwallStatusOf(-p) == match PowerwallStatusOf(p)
      case Charging => Discharging
      case Discharging => Charging
      case Idle => Idle
  {
  }

  datatype VehicleStatus = VehicleCharging | Ready | Offline

  /** Charging while charging, else Ready while available, else Offline. */
  function VehicleStatusOf(v: Vehicle): (s: VehicleStatus)
    ensures s == VehicleCharging <==> v.isCharging
    ensures s == Ready <==> !v.isCharging && v.isAvailable
    ensures s == Offline <==> !v.isCharging && !v.isAvailable
  {
    if v.isCharging then VehicleCharging
    else if v.isAvailable then Ready
    else Offline
  }

  /** What updateEnergyFlow writes: values in kW (the Powerwall and grid as
      magnitudes) and the status words. */
  datatype EnergyFlowPanel = EnergyFlowPanel(
    solarKw: real,
    thermostatKw: real,
    thermostatStatus: string,
    powerwallKw: real,
    powerwallStatus: PowerwallStatus,
    model3Kw: real,
    model3Status: VehicleStatus,
    modelXKw: real,
    modelXStatus: VehicleStatus,
    gridKw: real,
    gridStatus: GridStatus)

  function Abs(x: real): (r: real)
    ensures r >= 0.0 && (r == x || r == -x)
  {
    if x < 0.0 then -x else x
  }

  function UpdateEnergyFlow(latest: Sample): (p: EnergyFlowPanel)
    ensures p.powerwallKw >= 0.0 && p.gridKw >= 0.0
    ensures p.powerwallStatus != Idle ==> p.powerwallKw > 0.1
    ensures p.gridStatus != Balanced ==> p.gridKw > 0.1
    ensures p.model3Kw != 0.0 ==> p.model3Status == VehicleCharging
    ensures p.modelXKw != 0.0 ==> p.modelXStatus == VehicleCharging
  {
    EnergyFlowPanel(
      latest.solarPowerKw,
      ThermostatPower(latest),
      ThermostatStatusText(latest),
      Abs(latest.batteryPowerKw),
      PowerwallStatusOf(latest.batteryPowerKw),
      ChargingPower(latest.model3),
      VehicleStatusOf(latest.model3),
      ChargingPower(latest.modelX),
      VehicleStatusOf(latest.modelX),
      Abs(latest.gridPowerKw),
      GridStatusOf(latest.gridPowerKw))
  }

  // ---------------------------------------------------------------------
  // updateVehicleCard
  // ---------------------------------------------------------------------

  /** What a vehicle card shows: nothing known, or the values taken from a
      chosen sample. */
  datatype VehicleCard =
    | NoData
    | Shown(
        source: Sample,
        timestamp: int,
        offline: bool,
        batteryPercent: real,
        kwh: real,
        statusText: string,
        showCharging: bool,
        chargingRateKw: real,
        age: string)

  /** The card built from `dataToUse`: the level (missing reads 0), its kWh,
      the charging state or 'Unknown' while available, 'Offline' otherwise,
      the charging rate while available and charging, and the data's age. */
  function CardFrom(dataToUse: Sample, latest: Sample, id: VehicleId, currentTime: int): VehicleCard {
    var v := dataToUse.VehicleOf(id);
    var available := latest.VehicleOf(id).isAvailable;
    var batteryPercent := LevelOrZero(v.battery);
    Shown(
      dataToUse,
      dataToUse.timestamp,
      !available,
      batteryPercent,
      Utils.CalculateKwh(batteryPercent, Capacity(id)),
      if available then (if v.chargingState != "" then v.chargingState else "Unknown") else "Offline",
      v.isCharging && available,
      v.chargerPowerKw,
      Utils.FormatTimeDifference(dataToUse.timestamp, currentTime))
  }

  /** updateVehicleCard: the latest sample while the vehicle is available in
      it, else the last sample in which it was available, else no data. */
  function UpdateVehicleCard(energyData: seq<Sample>, latest: Sample, id: VehicleId, currentTime: int)
    : (c: VehicleCard)
    ensures c.NoData? <==>
      !latest.VehicleOf(id).isAvailable && forall j :: 0 <= j < |energyData| ==> !energyData[j].VehicleOf(id).isAvailable
    ensures latest.VehicleOf(id).isAvailable ==>
      (c.Shown? && c.source == latest && !c.offline &&
       c.statusText == if latest.VehicleOf(id).chargingState == "" then "Unknown" else latest.VehicleOf(id).chargingState)
    ensures !latest.VehicleOf(id).isAvailable && c.Shown? ==>
      c.offline && c.statusText == "Offline" && !c.showCharging &&
      exists i :: 0 <= i < |energyData| && c.source == energyData[i] && energyData[i].VehicleOf(id).isAvailable &&
        forall j :: i < j < |energyData| ==> !energyData[j].VehicleOf(id).isAvailable
    ensures c.Shown? ==>
      (c.timestamp == c.source.timestamp &&
       -0.05 <= c.kwh - c.batteryPercent / 100.0 * Capacity(id) <= 0.05 &&
       ParseAge(c.age) == Some(IndexScript.ElapsedMinutes(c.source.timestamp, currentTime)))
  {
    if latest.VehicleOf(id).isAvailable then
      Utils.FormatTimeDifferenceAgrees(latest.timestamp, currentTime);
      CardFrom(latest, latest, id, currentTime)
    else match LastAvailableIndex(energyData, id)
      case None => NoData
      case Some(i) =>
        Utils.FormatTimeDifferenceAgrees(energyData[i].timestamp, currentTime);
        CardFrom(energyData[i], latest, id, currentTime)
  }

  /** The card's age is measured from the same timestamp that
      updateVehicleStaleInfo uses, when that one is given the latest sample's
      time. */
  lemma CardAgreesWithStaleInfo(energyData: seq<Sample>, latest: Sample, id: VehicleId, currentTime: int)
    ensures var c := UpdateVehicleCard(energyData, latest, id, currentTime);
      var t := Utils.StaleTimestamp(energyData, latest, id, Some(latest.timestamp));
      (c.NoData? <==> t.None?) && (c.Shown? ==> t == Some(c.timestamp))
  {
  }
}
