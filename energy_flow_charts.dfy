/** The derived values of `updateEnergyFlowHouse` in energy-flow-charts.js:
    the sun's brightness, the Powerwall styling, the vehicles' and
    thermostat's draw, the house's own consumption and the grid label. The
    style strings themselves are not modelled, only which one is chosen. */
module EnergyFlowCharts {
  import opened Telemetry
  import DashboardUpdater

  /** `Math.min(1, solarPower / 10)`: full brightness from 10 kW. */
  function Brightness(solarPower: real): (b: real)
    ensures b <= 1.0 && b <= solarPower / 10.0
    ensures b == 1.0 || b == solarPower / 10.0
  {
    Min(1.0, solarPower / 10.0)
  }

  /** The sun icon's style: its opacity and its glow's radius (px) and
      alpha. */
  datatype SunStyle = SunStyle(opacity: real, glowRadiusPx: real, glowAlpha: real)

  function SunStyleOf(solarPower: real): SunStyle {
    var brightness := Brightness(solarPower);
    SunStyle(0.4 + brightness * 0.6, 20.0 + brightness * 30.0, 0.3 + brightness * 0.5)
  }

  /** For a production that is not negative the sun is never fainter than
      0.4 nor brighter than 1, and it brightens with production. */
  lemma SunStyleBounds(solarPower: real, morePower: real)
    requires 0.0 <= solarPower <= morePower
    ensures 0.0 <= Brightness(solarPower) <= 1.0
    ensures var st := SunStyleOf(solarPower);
      0.4 <= st.opacity <= 1.0 && 20.0 <= st.glowRadiusPx <= 50.0 && 0.3 <= st.glowAlpha <= 0.8
    ensures Brightness(solarPower) <= Brightness(morePower)
    ensures SunStyleOf(solarPower).opacity <= SunStyleOf(morePower).opacity
  {
  }

  datatype PowerwallStyle = ChargingStyle | DischargingStyle | IdleStyle

  /** The Powerwall styling: any negative power is charging, any positive
      one discharging, exactly 0 idle. */
  function PowerwallStyleOf(batteryPower: real): (s: PowerwallStyle)
    ensures s == ChargingStyle <==> batteryPower < 0.0
    ensures s == DischargingStyle <==> batteryPower > 0.0
    ensures s == IdleStyle <==> batteryPower == 0.0
  {
    if batteryPower < 0.0 then ChargingStyle
    else if batteryPower > 0.0 then DischargingStyle
    else IdleStyle
  }

  /** The styling has no dead band, unlike the dashboard's status word: a
      status other than Idle always comes with the same styling, idle
      styling always comes with the Idle status, and a small flow such as
      -0.05 kW is styled as charging while its status reads Idle. */
  lemma StyleRefinesStatus(batteryPower: real)
    ensures DashboardUpdater.PowerwallStatusOf(batteryPower) == DashboardUpdater.Charging ==>
      PowerwallStyleOf(batteryPower) == ChargingStyle
    ensures DashboardUpdater.PowerwallStatusOf(batteryPower) == DashboardUpdater.Discharging ==>
      PowerwallStyleOf(batteryPower) == DischargingStyle
    ensures PowerwallStyleOf(batteryPower) == IdleStyle ==>
      DashboardUpdater.PowerwallStatusOf(batteryPower) == DashboardUpdater.Idle
    ensures PowerwallStyleOf(-0.05) == ChargingStyle &&
      DashboardUpdater.PowerwallStatusOf(-0.05) == DashboardUpdater.Idle
  {
  }

  /** A vehicle's charging draw, as in the dashboard. */
  function ChargingPower(v: Vehicle): real {
    if v.isCharging && v.chargerPowerKw != 0.0 then v.chargerPowerKw else 0.0
  }

  /** The thermostat's draw, as in the dashboard. */
  function ThermostatPower(latest: Sample): real {
    if latest.thermostatIsOnline && latest.thermostatStatus.Some? && latest.thermostatStatus.value != ""
       && latest.thermostatStatus.value != "OFF"
    then (if latest.thermostatIsActivelyRunning then 5.6 else 0.9)
    else 0.0
  }

  /** This file's copies compute what dashboard-updater.js computes. */
  lemma AgreesWithDashboard(latest: Sample)
    ensures ThermostatPower(latest) == DashboardUpdater.ThermostatPower(latest)
    ensures ChargingPower(latest.model3) == DashboardUpdater.ChargingPower(latest.model3)
    ensures ChargingPower(latest.modelX) == DashboardUpdater.ChargingPower(latest.modelX)
  {
  }

  /** The house's own consumption: the load less the vehicles' charging and
      the thermostat, never below 0. */
  function HousePower(latest: Sample): (kw: real)
    ensures kw >= 0.0
    ensures kw >= latest.loadPowerKw - ChargingPower(latest.model3) - ChargingPower(latest.modelX)
      - ThermostatPower(latest)
    ensures kw == 0.0 || kw == latest.loadPowerKw - ChargingPower(latest.model3) - ChargingPower(latest.modelX)
      - ThermostatPower(latest)
  {
    var totalVehicleCharging := ChargingPower(latest.model3) + ChargingPower(latest.modelX);
    Max(0.0, latest.loadPowerKw - totalVehicleCharging - ThermostatPower(latest))
  }

  /** With no vehicle charging and the thermostat drawing nothing, the house
      is the whole load (0 if negative); otherwise it never exceeds that,
      unless a vehicle reports a negative charging power. */
  lemma HousePowerSpec(latest: Sample)
    ensures !latest.model3.isCharging && !latest.modelX.isCharging && !DashboardUpdater.ThermostatDrawing(latest) ==>
      HousePower(latest) == Max(0.0, latest.loadPowerKw)
    ensures HousePower(latest) <= Max(0.0, latest.loadPowerKw) ||
      ChargingPower(latest.model3) + ChargingPower(latest.modelX) < 0.0
  {
    AgreesWithDashboard(latest);
  }

  /** The grid label: above 0.1 kW 'IMPORTING', below -0.1 kW 'EXPORTING',
      otherwise 'GRID'. */
  function GridLabel(gridPower: real): (s: string)
    ensures s == "IMPORTING" <==> gridPower > 0.1
    ensures s == "EXPORTING" <==> gridPower < -0.1
    ensures s == "GRID" <==> -0.1 <= gridPower <= 0.1
  {
    if gridPower > 0.1 then "IMPORTING"
    else if gridPower < -0.1 then "EXPORTING"
    else "GRID"
  }

  /** The label and the dashboard's grid status use the same thresholds. */
  lemma GridLabelMatchesStatus(gridPower: real)
    ensures GridLabel(gridPower) == match DashboardUpdater.GridStatusOf(gridPower)
      case Importing => "IMPORTING"
      case Exporting => "EXPORTING"
      case Balanced => "GRID"
  {
  }

  /** What updateEnergyFlowHouse shows: values in kW (the Powerwall and grid
      as magnitudes), the Powerwall's level, the styles and the grid label. */
  datatype HouseView = HouseView(
    solarKw: real,
    sun: SunStyle,
    model3Charging: bool,
    modelXCharging: bool,
    powerwallKw: real,
    powerwallPercent: real,
    powerwallStyle: PowerwallStyle,
    houseKw: real,
    gridKw: real,
    gridLabel: string)

  function UpdateEnergyFlowHouse(latest: Sample): (h: HouseView)
    ensures h.houseKw >= 0.0 && h.powerwallKw >= 0.0 && h.gridKw >= 0.0
    ensures h.solarKw >= 0.0 ==> 0.4 <= h.sun.opacity <= 1.0
    ensures h.powerwallStyle == IdleStyle <==> h.powerwallKw == 0.0
    ensures h.gridLabel != "GRID" <==> h.gridKw > 0.1
  {
    HouseView(
      latest.solarPowerKw,
      SunStyleOf(latest.solarPowerKw),
      latest.model3.isCharging,
      latest.modelX.isCharging,
      DashboardUpdater.Abs(latest.batteryPowerKw),
      latest.batteryPercentage,
      PowerwallStyleOf(latest.batteryPowerKw),
      HousePower(latest),
      DashboardUpdater.Abs(latest.gridPowerKw),
      GridLabel(latest.gridPowerKw))
  }
}
