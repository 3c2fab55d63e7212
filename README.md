# Tesla Energy Dashboard — a Dafny model of its computations

The dashboard is a browser page. It reads a feed of telemetry samples with Powerwall, solar, grid, load, thermostat and two-vehicle fields, and it draws cards, an energy-flow panel and charts. This project models the computations behind those views, and proves properties of them:

- the two battery forecasts: one steps every 15 minutes (prediction-generator.js), the other hourly (indexScript.js);
- the age label ("2h 5m ago"), the kWh conversion, the search for a vehicle's last available sample, and the filter for today's samples, in both copies (indexScript.js and utils.js);
- the battery simulator's amps settings and its time-to-90% estimate (battery-simulator.js);
- the time navigator's live/historical position and its data views (time-navigator.js);
- the indoor/outdoor temperature-crossing alert with its cooldown history (temperature-alerts.js);
- the chart data preparation: the 15-minute temperature filter, the solar start and end points, the chart window, the 5-minute slots with their 12-hour labels, and the vehicle series with gaps (chart-creator.js);
- the status words and values of the energy-flow panel and the vehicle cards (dashboard-updater.js, energy-flow-charts.js);
- the smart-refresh timing rule and its pending timeout (main.js).

Conventions of the model:

- **Timestamps** are integers in milliseconds of local time. The conversion to Pacific time is taken as already applied, and every day lasts 24 hours (`Clock`).
- **Missing numeric fields** read as 0. The code reads every such field through `x || 0`, a truthiness test or a `> 0` comparison, and each of these treats a missing value like 0. A vehicle's battery level is an `Option`, because the chart code tests it against `null`.
- **Global state** becomes a parameter. The global `energyData`, `lastDataTimestamp` and the clock's "now" are passed in.
- **The page** is left out. In two simulator methods a missing DOM element stops the method; there its presence is a boolean parameter (`controlsPresent` in `ToggleSimulationMode`, `labelsPresent` in `UpdateAmpsDisplay`). The other element checks are listed under "Left out".
- **Code that works step by step** is imperative Dafny, each method proved equal to a specification function:
  - the forecast loops, the backward scans, the slot loop and the vehicle-series loop;
  - the classes `BatterySimulator`, `TimeNavigator`, `TemperatureCrossingAlert` and `RefreshScheduler`.
- **Pure code** is functions and lemmas: classification, formatting and filters.
- **Duplicated functions** are modelled once per file, with lemmas proving that the copies agree. The files are indexScript.js/utils.js, prediction-generator.js/dashboard-updater.js and dashboard-updater.js/energy-flow-charts.js.

Files: `telemetry.dfy` (samples, capacities), `clock.dfy`, `seqs.dfy` (filter and index search), `numbers.dfy` (`toFixed(1)`, number rendering, reading an age label back), then one file per source file: `prediction_generator.dfy`, `index_script.dfy`, `utils.dfy`, `battery_simulator.dfy`, `time_navigator.dfy`, `temperature_alerts.dfy`, `chart_creator.dfy`, `dashboard_updater.dfy`, `energy_flow_charts.dfy`, `main.dfy`.

## Model

| member | source | states |
|---|---|---|
| Telemetry.Capacity | config.js:13-17 | The Model 3 and Model X capacities (52.4 and 100 kWh) are positive, so the percent conversions never divide by zero |
| Telemetry.LastAvailableIndex | indexScript.js:42-53 | The index of the last sample in which the vehicle is available, with every later sample unavailable; None exactly when no sample has it available |
| Clock.HourOf | prediction-generator.js:21 | `getHours()` is in 0..23 |
| Clock.MinuteOf | prediction-generator.js:21 | `getMinutes()` is in 0..59 |
| Clock.MinutesSince6am | chart-creator.js:196 | `(getHours() - 6) * 60 + getMinutes()` lies in [-360, 1080) |
| Clock.CeilQuarter | prediction-generator.js:21 | `ceil(m/15)*15` is the least multiple of 15 at or above m, at most 60, and equals m exactly when m is a multiple of 15 |
| Clock.StepsUpToSpec | prediction-generator.js:68 | Value i of the progression `first + i*step` is within `end` exactly when i is below the step count |
| Clock.HourStartInDay | indexScript.js:520-521 | The hour start lies in the same day, at `HourOf(t)` hours after midnight, and t is that plus its minutes and milliseconds |
| Clock.ModUnique | indexScript.js:520-521 | A quotient and remainder in range determine `/` and `%` |
| Clock.ShiftByDays | chart-creator.js:167-171 | Adding whole days keeps the time of day and moves midnight by the same days |
| Clock.HourOfHourStep | indexScript.js:562 | Stepping k whole hours from the hour start within the day lands in hour `HourOf(t) + k` of the same day |
| Seqs.Filter | indexScript.js:271-274 | `Array.prototype.filter`: the result holds exactly the elements that satisfy the predicate, and is no longer than the input |
| Seqs.FilterAppend | time-navigator.js:241-244 | Filtering distributes over concatenation, so kept elements keep their order |
| Seqs.FilterAll | time-navigator.js:195-203 | A filter that keeps every element returns the sequence unchanged |
| Seqs.FilterNone | indexScript.js:271-274 | A filter that keeps no element returns the empty sequence |
| Seqs.FilterSuffix | indexScript.js:271-274 | A predicate false on a prefix and true after it filters to the suffix |
| Seqs.FilterPrefix | time-navigator.js:200-203 | A predicate true on a prefix and false after it filters to the prefix |
| Seqs.FilterNarrow | time-navigator.js:239-244 | Filtering twice, where the second predicate implies the first, is filtering once by the second |
| Seqs.FirstIndex | chart-creator.js:323 | `find`: the first index whose element satisfies the predicate, with none before it; None when no element does |
| Seqs.LastIndex | chart-creator.js:427-436 | A backward search: the last index whose element satisfies the predicate, with none after it; None when no element does |
| Seqs.LastIndexExtend | chart-creator.js:439-447 | Scanning one more element forward updates the last match exactly when that element matches |
| Numbers.Tenths | utils.js:23-25 | The nearest whole number of tenths, within half a tenth |
| Numbers.Round1 | utils.js:23-25 | `toFixed(1)` read back: a whole number of tenths within 0.05 of x, not negative for x ≥ 0 |
| Numbers.Round1Idempotent | utils.js:23-25 | Rounding an already rounded value changes nothing |
| Numbers.NatToString | indexScript.js:29-32 | The decimal rendering of a whole number: at least one digit, only digits, no leading zero |
| Numbers.NatToStringRoundTrip | indexScript.js:29-32 | Reading the rendering back gives the same number, so distinct numbers render differently |
| Numbers.DigitCount | indexScript.js:29-32 | The length of the leading run of digits, with a non-digit after it |
| Numbers.DigitCountPrefix | indexScript.js:29-32 | A digit string followed by a non-digit splits exactly at its end |
| Numbers.RenderedNumber | indexScript.js:29-32 | A rendered number followed by text is read back as that number, with that text after it |
| Numbers.ParseMinutesLabel | indexScript.js:32 | "<m>m ago" reads back as m minutes |
| Numbers.ParseHoursLabel | indexScript.js:29 | "<h>h ago" reads back as 60·h minutes |
| Numbers.ParseRemainderLabel | indexScript.js:29 | "<r>m ago" after "<h>h " reads back as 60·h + r |
| Numbers.ParseUnitLabel | indexScript.js:29 | After the hours, "h " followed by digits is read as a remainder of minutes |
| Numbers.ParseHoursMinutesLabel | indexScript.js:29 | "<h>h <r>m ago" reads back as 60·h + r minutes |
| QuarterHourForecast.ConsumptionCoversLoad | prediction-generator.js:29-55 | When the two thermostat tests agree, the consumption total is the larger of the load and the known consumers, never below the load |
| QuarterHourForecast.ClampKwh | prediction-generator.js:75-79 | The energy clamped into [0, 13.5] kWh: unchanged inside the range, 0 below it, 13.5 above it |
| QuarterHourForecast.PowerwallStepIsClampedMove | prediction-generator.js:72-81 | From a level within capacity, one step moves the energy by drain × 0.25 kWh and clamps it into [0, 13.5] |
| QuarterHourForecast.ComputeNetDrain | prediction-generator.js:28-64 | The net drain computed once before the loop: thermostat + charging vehicles + max(0, load − known) − (solar + max(0, grid)) |
| QuarterHourForecast.GenerateBatteryPredictions | prediction-generator.js:2-108 | The loop's four arrays equal `Forecast`: empty for no data, else one label, one Powerwall percentage and one level per vehicle for each 15-minute step to 23:59:59 |
| QuarterHourForecast.SeriesExtend | prediction-generator.js:69-102 | Each step appends exactly one entry to each of the four series |
| QuarterHourForecast.FirstStepSpec | prediction-generator.js:20-21 | The first step is a quarter-hour mark less than 15 minutes after the start of now's minute, in now's day; it is now exactly when now is on a quarter hour |
| QuarterHourForecast.StepsWithinDay | prediction-generator.js:9-104 | At most 96 steps, all within now's day |
| QuarterHourForecast.ForecastShape | prediction-generator.js:3-105 | Empty input gives four empty arrays; otherwise four arrays of equal length ≤ 96, starting at the first step, 15 minutes apart, within the day |
| QuarterHourForecast.KwhAfterBounds | prediction-generator.js:72-81 | From an energy within capacity, every step stays in [0, 13.5] kWh |
| QuarterHourForecast.KwhAfterMonotone | prediction-generator.js:72-81 | The energy is non-increasing under a positive drain, non-decreasing under a negative one, and constant under none |
| QuarterHourForecast.PowerwallSeriesSpec | prediction-generator.js:24-84 | From a starting percentage in [0, 100], every Powerwall percentage is in [0, 100], and the series moves in the direction of the drain's sign |
| QuarterHourForecast.LevelAfterSpec | prediction-generator.js:87-98 | A vehicle level changes only when `IsCharging && ChargerPowerKw > 0`; it then rises by the quarter-hour gain, capped at 100, and stays in [start, 100] from a start ≤ 100 |
| QuarterHourForecast.LevelAfterMonotone | prediction-generator.js:87-98 | From a start ≤ 100 the level never falls |
| QuarterHourForecast.VehicleSeriesSpec | prediction-generator.js:101-102 | An unavailable vehicle is null at every step; an available one has a level at every step, non-decreasing and ≤ 100 from a start ≤ 100 |
| IndexScript.FormatTimeDifference | indexScript.js:23-34 | With m whole minutes elapsed: "<m>m ago" under an hour, "<h>h ago" for whole hours, else "<h>h <r>m ago" |
| IndexScript.FormatTimeDifferenceSymmetric | indexScript.js:24 | The label does not depend on the order of the two instants |
| IndexScript.FormatTimeDifferenceRoundTrip | indexScript.js:23-34 | The label reads back as the whole minutes elapsed |
| IndexScript.CalculateKwh | indexScript.js:37-39 | `percentage / 100 × capacity` to one decimal: a whole number of tenths within 0.05 of the exact value |
| IndexScript.FindLastVehicleData | indexScript.js:42-53 | The backward scan returns the last sample in which the vehicle is available, with its age from now; null exactly when there is none |
| IndexScript.GetTodayData | indexScript.js:267-275 | Exactly the samples at or after local midnight of now's day |
| IndexScript.FirstAtOrAfter | indexScript.js:267-275 | The index of the first sample at or after t, with every earlier one before t |
| IndexScript.GetTodayDataSuffix | indexScript.js:267-275 | On ascending data, today's samples are the suffix from the first sample at or after midnight, in order |
| IndexScript.HourlyStepCountSpec | indexScript.js:512-532 | Hourly step i is within the day exactly when i is below 23 − `HourOf(now)` |
| IndexScript.GenerateBatteryPredictions | indexScript.js:505-566 | The hourly loop's four arrays equal `HourlyForecast` |
| IndexScript.HourlyForecastShape | indexScript.js:506-562 | Empty input gives four empty arrays; otherwise one step per remaining hour, none in hour 23, at the start of hour `HourOf(now)+1+j` of the same day, four arrays of equal length |
| IndexScript.HourlyPowerwallBounds | indexScript.js:549-556 | From a start in [0, 100] the hourly Powerwall level stays in [0, 100] |
| IndexScript.HourlyPowerwallSpec | indexScript.js:549-556 | Every Powerwall value is in [0, 100], and each is the previous one +2 (capped at 100) when its label's hour is in 6..18 with solar power, else −1 (floored at 0) |
| IndexScript.HourlyLevelAfterSpec | indexScript.js:535-546 | An hourly vehicle level stays put unless the vehicle is charging with power; from a start ≤ 100 it never falls and never exceeds 100 |
| IndexScript.HourlyVehicleSeriesSpec | indexScript.js:559-560 | An unavailable vehicle is null at every hourly step; an available one is non-decreasing and ≤ 100 from a start ≤ 100 |
| Utils.FormatTimeDifference | utils.js:9-21 | The same three label shapes, with the remainder in 1..59 in the third |
| Utils.FormatTimeDifferenceAgrees | utils.js:9-21 | The utils.js copy equals the indexScript.js copy, is symmetric, and reads back as the whole minutes elapsed |
| Utils.CalculateKwh | utils.js:23-25 | `percentage / 100 × capacity` to one decimal |
| Utils.FindLastVehicleData | utils.js:28-39 | The backward scan returns the last available sample and its age; null exactly when there is none |
| Utils.GetTodayData | utils.js:93-101 | Exactly the samples at or after local midnight |
| Utils.GetTodayDataAgrees | utils.js:93-101 | On ascending data both copies keep the same samples: the suffix from the first sample at or after midnight |
| Utils.StaleTimestamp | utils.js:74-85 | The timestamp is `lastDataTimestamp` while the vehicle is available in latest, else the last available sample's, else none |
| Utils.UpdateVehicleStaleInfo | utils.js:70-91 | The label gets the age of the chosen timestamp, and is left alone exactly when there is none |
| BatterySimulation.SpecOf | battery-simulator.js:11-24 | Each vehicle's amps range is positive and non-empty (Model 3 5–32 A, Model X 7–48 A), at 249 V, with the vehicle's own capacity |
| BatterySimulation.CalculatePower | battery-simulator.js:284-286 | `amps × voltage / 1000` to one decimal: within 0.05 kW of the exact power |
| BatterySimulation.CalculatePowerPositive | battery-simulator.js:253-266 | At 249 V any positive amps give a positive power, so the estimate never divides by zero |
| BatterySimulation.ClampAmps | battery-simulator.js:299-312 | The reported amps clamped into [minAmps, maxAmps]: unchanged inside, the nearer bound outside |
| BatterySimulation.TimeToNinetySpec | battery-simulator.js:243-270 | An estimate exists iff some vehicle has amps > 0 and level < 90; it is then positive; it equals the larger of the two vehicles' times when both qualify, and the qualifying vehicle's time when only one does |
| BatterySimulation.SplitHoursShowsSixtyMinutes | battery-simulator.js:275-277 | As written, 1.999 h is shown as 1 h 60 m |
| BatterySimulation.SplitHours | battery-simulator.js:275-277 | Corrected display: minutes in 0..59 and hours·60 + minutes the estimate to the nearest minute |
| BatterySimulation.TimeToNinetyText | battery-simulator.js:271-280 | "--" exactly without a positive estimate; otherwise "<h>h <m>m" when there is at least one hour, else "<m>m", from the corrected split, so the minutes are below 60 |
| BatterySimulation.BatterySimulator.constructor | battery-simulator.js:3-8 | Both vehicles at 0 A and simulation off |
| BatterySimulation.BatterySimulator.SetAmps | battery-simulator.js:198-221 | Writes the named vehicle's amps only |
| BatterySimulation.BatterySimulator.ToggleVehicleCharging | battery-simulator.js:190-211 | Enabling stores the slider value, disabling 0; the other vehicle and the active flag are unchanged; the amps stay in range |
| BatterySimulation.BatterySimulator.UpdateAmpsDisplay | battery-simulator.js:213-224 | A slider move stores its amps only when both labels are on the page |
| BatterySimulation.BatterySimulator.ResetSimulation | battery-simulator.js:333-342 | Both vehicles back to 0 A; `isActive` unchanged |
| BatterySimulation.BatterySimulator.InitializeFromCurrentData | battery-simulator.js:288-316 | A vehicle charging with amps > 0 in the latest sample gets those amps clamped into range; nothing else changes |
| BatterySimulation.BatterySimulator.ToggleSimulationMode | battery-simulator.js:165-188 | Without the controls nothing happens; otherwise `isActive` flips, switching on initialises from the data, switching off resets both vehicles to 0 A |
| BatterySimulation.BatterySimulator.ApplySimulation | battery-simulator.js:318-331 | Redraws exactly when the simulation is active |
| BatterySimulation.BatterySimulator.UpdateTimeEstimates | battery-simulator.js:243-270 | The step-by-step estimate equals `TimeToNinety` of the current settings |
| TimeNavigation.StepStaysInRange | time-navigator.js:90-107 | After any step a selected time lies in [earliest, latest] |
| TimeNavigation.StepFromLive | time-navigator.js:84-98 | From live mode a forward step stays live, a zero step selects the latest time, and a backward step selects latest − minutes, stopped at the earliest |
| TimeNavigation.DisabledButtons | time-navigator.js:148-174 | A back step from the earliest time changes nothing, and after a step the forward buttons are disabled exactly in live mode or at the latest time |
| TimeNavigation.TimeNavigator.constructor | time-navigator.js:3-7 | Live mode, no selected time, no observers |
| TimeNavigation.TimeNavigator.StepTime | time-navigator.js:83-111 | The new position is `Step` of the old one: from live mode the start is the latest time; beyond the latest it goes live; before the earliest it stops there |
| TimeNavigation.TimeNavigator.GoToLiveMode | time-navigator.js:113-118 | Live mode with no selected time |
| TimeNavigation.TimeNavigator.GetCurrentTime | time-navigator.js:187-189 | now in live mode, else the selected time |
| TimeNavigation.TimeNavigator.GetFilteredData | time-navigator.js:192-204 | All data in live mode, else exactly the samples at or before the selected time |
| TimeNavigation.TimeNavigator.FilteredDataIsPrefix | time-navigator.js:192-204 | On ascending data the historical view is the prefix up to the selected time |
| TimeNavigation.TimeNavigator.GetLatestDataPoint | time-navigator.js:207-210 | The last filtered sample; null exactly when the view is empty; never after the selected time |
| TimeNavigation.TimeNavigator.TodayDataWindow | time-navigator.js:234-245 | The day's view is exactly the samples, in order, from the current time's midnight to the current time |
| TimeNavigation.TimeNavigator.Subscribe | time-navigator.js:213-215 | The callback is appended; nothing else changes |
| TimeNavigation.TimeNavigator.Unsubscribe | time-navigator.js:218-220 | Every occurrence of the callback is removed and the others stay, in order |
| TemperatureAlerts.Classify | temperature-alerts.js:36-43 | Outdoor higher, indoor higher or equal, each exactly when the comparison says so |
| TemperatureAlerts.DetectCrossing | temperature-alerts.js:53-65 | "crossed ABOVE" exactly on indoor-higher → outdoor-higher, "crossed BELOW" exactly on the reverse, nothing through equal |
| TemperatureAlerts.AddToHistory | temperature-alerts.js:179-186 | The new entry goes first, the older ones follow in order, and at most 10 are kept |
| TemperatureAlerts.ShownAlertMutesRepeats | temperature-alerts.js:88-186 | A shown alert mutes the same direction for the whole 15-minute cooldown and does not mute the other direction |
| TemperatureAlerts.CooldownExpires | temperature-alerts.js:9-95 | An entry no longer mutes once 15 minutes have passed |
| TemperatureAlerts.TemperatureCrossingAlert.constructor | temperature-alerts.js:3-9 | No last state or readings, empty history |
| TemperatureAlerts.TemperatureCrossingAlert.AddEntry | temperature-alerts.js:179-186 | The history becomes `AddToHistory` of the old one; the tracked readings are unchanged |
| TemperatureAlerts.TemperatureCrossingAlert.CheckTemperatureCrossing | temperature-alerts.js:27-86 | An invalid reading changes nothing; a valid one shows the pending alert (if any), is remembered with its state, and only a shown alert enters the history, which stays ≤ 10 |
| TemperatureAlerts.NoAlertWithoutDirectTransition | temperature-alerts.js:46-85 | The first valid reading never alerts, nor does a reading after an equal one |
| ChartCreator.TemperatureFilter | chart-creator.js:29-34 | The first sample, then exactly the later samples on a quarter hour; empty only for empty input |
| ChartCreator.TemperatureFilterOnQuarter | chart-creator.js:29-34 | When the first sample is on a quarter hour, the filter is the plain quarter-hour filter |
| ChartCreator.IndoorValue | chart-creator.js:41-43 | The indoor reading is plotted exactly when above 0 |
| ChartCreator.OutdoorValue | chart-creator.js:45-47 | The outdoor reading is plotted exactly when non-zero and above −50 |
| ChartCreator.TemperatureSeries | chart-creator.js:41-47 | One indoor and one outdoor entry per filtered sample: entry i is `IndoorValue` and `OutdoorValue` of filtered sample i, so the plotted readings respect those bounds |
| ChartCreator.Solar | chart-creator.js:191-192 | `max(0, SolarPowerKw)` is never negative and is 0 exactly when the power is not positive |
| ChartCreator.RiseFrom | chart-creator.js:190-198 | The first index from i where a 0 sample is followed by a producing one; None when there is none |
| ChartCreator.SolarStartPoint | chart-creator.js:183-201 | A start point exists exactly when some 0 sample is followed by a producing one, and it is in [-360, 1080) |
| ChartCreator.FindSolarStartPoint | chart-creator.js:183-201 | The loop with early return equals `SolarStartPoint` |
| ChartCreator.EndFrom | chart-creator.js:211-229 | The first index from i that is 0, after some production, with all later samples 0; None when there is none |
| ChartCreator.SolarEndPoint | chart-creator.js:204-232 | The end point is in [-360, 1080) |
| ChartCreator.FindSolarEndPoint | chart-creator.js:204-232 | The loop with early return equals `SolarEndPoint` |
| ChartCreator.SolarEndAfterLastProduction | chart-creator.js:204-232 | The end is the sample right after the last producing one; there is none when nothing produced or the last sample still produces |
| ChartCreator.YesterdayData | chart-creator.js:166-176 | Exactly the samples from yesterday's midnight to 23:59:59.999 |
| ChartCreator.ChartStartMinute | chart-creator.js:241-262 | The least of the start points present, 0 when none is |
| ChartCreator.ChartEndMinute | chart-creator.js:253-263 | The greatest of the end points present, 840 when none is |
| ChartCreator.TimeData | chart-creator.js:266-286 | Time-of-day points inside the window with non-negative power, and every sample inside the window appears |
| ChartCreator.FindWithinSpec | chart-creator.js:323-328 | A power is found exactly when some point lies within 2 minutes of the slot, and it is the first such point's power |
| ChartCreator.FirstSlot | chart-creator.js:293 | `floor(start/5)*5` is a multiple of 5 at most 4 below the start |
| ChartCreator.SlotsCoverWindow | chart-creator.js:293 | Slot k is a multiple of 5, and it exists exactly when it is at most the end minute |
| ChartCreator.DisplayHour | chart-creator.js:299-317 | For hours 0..23: 12 for hours 0 and 12, hour mod 12 otherwise, PM exactly from 12; a negative hour h gives 12 + h PM |
| ChartCreator.JsRemainder | chart-creator.js:296 | JavaScript `%`: the Euclidean remainder for a non-negative dividend, in (−b, 0] for a negative one |
| ChartCreator.JsRemainderEuclidean | chart-creator.js:296 | For a negative dividend the JavaScript remainder is the Euclidean one less b, unless both are 0 |
| ChartCreator.SlotLabelAgreesFrom6am | chart-creator.js:293-319 | From 6 AM on, the as-written and corrected labels agree |
| ChartCreator.SlotLabelAsWrittenNegativeMinute | chart-creator.js:295-296 | As written, a slot before 6 AM that is not on the hour gets a negative minute, 60 below the right one |
| ChartCreator.SlotLabelAsWrittenBefore6am | chart-creator.js:293-319 | As written, the slot at 5:55 AM is labelled "05:-5 AM" |
| ChartCreator.SlotLabelShowsSlotTime | chart-creator.js:293-319 | The corrected label shows the slot's own time of day, with a minute in 0..59 and an hour in 1..12 |
| ChartCreator.SlotLabelBefore6am | chart-creator.js:293-319 | The corrected slot at 5:55 AM is labelled "05:55 AM" |
| ChartCreator.SlotsExtend | chart-creator.js:320-328 | Each slot appends exactly one label and one power per day |
| ChartCreator.SlotsSpec | chart-creator.js:289-329 | The three series run in lockstep, one entry per multiple of 5 from the first slot to the end, a power present exactly when a point lies within 2 minutes |
| ChartCreator.BuildSlots | chart-creator.js:289-329 | The slot loop equals `Slots`, with the corrected slot labels |
| ChartCreator.CreateSolarChartData | chart-creator.js:166-329 | The solar chart's series equal `SolarChart` of today's data and yesterday's samples, with the corrected slot labels |
| ChartCreator.PriorLevel | chart-creator.js:422-436 | A level before today exists exactly when some earlier sample is available with a level |
| ChartCreator.LatestLevel | chart-creator.js:439-456 | The last known level is unknown only when no level was known before |
| ChartCreator.PlottedLevel | chart-creator.js:443-455 | A sample's own level when available and non-null, else a gap |
| ChartCreator.VehicleLevels | chart-creator.js:439-462 | One entry per sample of today; all but the last are the plotted levels, and the last is the last known level when there is one |
| ChartCreator.FindPriorLevel | chart-creator.js:426-436 | The backward search equals `PriorLevel` |
| ChartCreator.CreateVehicleData | chart-creator.js:417-468 | The series equals `VehicleLevels`, and the returned level equals `LatestLevel` |
| ChartCreator.VehicleLevelsSpec | chart-creator.js:439-462 | The last entry is the most recent known level: today's last usable sample, else the last usable one before today |
| DashboardUpdater.ChargingPower | dashboard-updater.js:118-119 | The charger power while charging, else 0 |
| DashboardUpdater.ThermostatPower | dashboard-updater.js:123-130 | 0, 0.9 or 5.6 kW: positive exactly when online with a status that is not 'OFF', and 5.6 exactly when it is also actively running |
| DashboardUpdater.AgreesWithForecast | dashboard-updater.js:118-130 | The panel and the quarter-hour forecast count the thermostat and the vehicles the same way |
| DashboardUpdater.ThermostatStatusText | dashboard-updater.js:140-141 | 'Off' for status 'OFF', the status while actively running, 'Fan' otherwise |
| DashboardUpdater.ThermostatTextAndPower | dashboard-updater.js:123-141 | Status 'OFF' draws nothing, and 'Fan' draws at most 0.9 kW |
| DashboardUpdater.PowerwallStatusOf | dashboard-updater.js:147-156 | Charging exactly below −0.1, Discharging exactly above 0.1, Idle otherwise |
| DashboardUpdater.GridStatusOf | dashboard-updater.js:176-185 | Importing exactly above 0.1, Exporting exactly below −0.1, Balanced otherwise |
| DashboardUpdater.StatusSymmetry | dashboard-updater.js:147-185 | Reversing the flow swaps importing and exporting, and charging and discharging |
| DashboardUpdater.VehicleStatusOf | dashboard-updater.js:163-170 | Charging exactly while charging, else Ready exactly while available, else Offline |
| DashboardUpdater.Abs | dashboard-updater.js:146-175 | `Math.abs`: the magnitude, never negative |
| DashboardUpdater.UpdateEnergyFlow | dashboard-updater.js:111-186 | Magnitudes are never negative; a non-idle status comes with more than 0.1 kW; a vehicle drawing power reads Charging |
| DashboardUpdater.UpdateVehicleCard | dashboard-updater.js:230-294 | No data exactly when the vehicle is unavailable everywhere; latest while available there; else the last available sample, shown 'Offline'; kWh within 0.05; the age reads back as the elapsed minutes |
| DashboardUpdater.CardAgreesWithStaleInfo | dashboard-updater.js:244-257 | The card and the stale-data label measure the age from the same timestamp |
| EnergyFlowCharts.Brightness | energy-flow-charts.js:15 | `min(1, solar/10)` |
| EnergyFlowCharts.SunStyleBounds | energy-flow-charts.js:15-18 | For solar ≥ 0 the brightness is in [0, 1], the opacity in [0.4, 1], the glow in [20, 50] px with alpha in [0.3, 0.8]; both grow with production |
| EnergyFlowCharts.PowerwallStyleOf | energy-flow-charts.js:50-71 | Charging styling exactly below 0, discharging exactly above 0, idle exactly at 0 |
| EnergyFlowCharts.StyleRefinesStatus | energy-flow-charts.js:50-71 | The styling has no dead band: it agrees with a non-idle status, and −0.05 kW is styled charging while the status reads Idle |
| EnergyFlowCharts.AgreesWithDashboard | energy-flow-charts.js:74-81 | The thermostat and charging powers equal the dashboard's |
| EnergyFlowCharts.HousePower | energy-flow-charts.js:74-84 | `max(0, load − vehicle charging − thermostat)`: never negative |
| EnergyFlowCharts.HousePowerSpec | energy-flow-charts.js:74-84 | With nothing charging and the thermostat idle the house is the whole load (0 if negative); otherwise never more |
| EnergyFlowCharts.GridLabel | energy-flow-charts.js:96-111 | IMPORTING exactly above 0.1, EXPORTING exactly below −0.1, GRID otherwise |
| EnergyFlowCharts.GridLabelMatchesStatus | energy-flow-charts.js:96-111 | The label matches the dashboard's grid status |
| EnergyFlowCharts.UpdateEnergyFlowHouse | energy-flow-charts.js:7-112 | Magnitudes not negative, idle styling exactly at 0 kW, a grid label other than GRID exactly above 0.1 kW |
| SmartRefresh.NextUpdateTimeSpec | main.js:45-51 | The next update is a quarter-hour mark less than 15 minutes after the start of the last update's minute; it is the last update itself exactly when that is on a quarter hour |
| SmartRefresh.RefreshDelay | main.js:53-83 | The delay is next + 25 s − now when positive; otherwise next + 15 min + 15 s − now, at most 14 min 50 s, with no second check |
| SmartRefresh.StaleDataFiresAtOnce | main.js:60-73 | Data more than 15 min 15 s past its next mark gives a delay ≤ 0 |
| SmartRefresh.FreshDataWaitsForNextQuarter | main.js:54-83 | While the next update is ahead, the delay is positive and at most 15 min 25 s |
| SmartRefresh.RefreshScheduler.constructor | main.js:28 | No pending timeout |
| SmartRefresh.RefreshScheduler.ScheduleSmartRefresh | main.js:31-85 | The pending timeout is cleared first; with no last timestamp nothing is scheduled; otherwise exactly one new timeout with `RefreshDelay` |

## Left out

- The DOM and Chart.js: element lookups, text, style and class writes, chart construction, event binding. Only the values written are modelled. A missing element is a boolean parameter only in `ToggleSimulationMode` (`controlsPresent`) and `UpdateAmpsDisplay` (`labelsPresent`).
- Three element checks are not modelled, and the model always produces the value: the stale-info label check at the start of `updateVehicleStaleInfo` (utils.js:72, `Utils.UpdateVehicleStaleInfo` still returns its text); the sun-icon check in `updateEnergyFlowHouse` (energy-flow-charts.js:13, `SunStyleOf` is always computed); and the time-estimate element check in `updateTimeEstimates` (battery-simulator.js:272, `TimeToNinetyText` is always computed).
- chart-collapse.js and chart-maximizer.js: widget animation only.
- I/O and timers: `fetch`/`loadEnergyData`, `setInterval`, and what a timeout does when it fires. Audio and notifications are left out too. `RefreshScheduler` records timer ids and delays only.
- Locale and time zones: `convertToPDT`, `toLocaleString` and `toLocaleTimeString`. Timestamps are local milliseconds on 24-hour days, with no daylight-saving shifts. The forecasts' labels are kept as the step timestamps, not their text.
- `toFixed` and IEEE-754: quantities are reals. `Round1` stands for `toFixed(1)` read back as a number, with halves rounded away from zero.
- `calculatePower` returns a string in the source, so `updateTotalPower` concatenates two of them; that total is not modelled. The time estimate divides by that one-decimal power, as `CalculatePower` does.
- The outdoor temperature forecast of createTemperatureChart (the `Math.sin` curve) and the temperature labels.
- The in-place `sort` of the data at load time, and the one inside `findSolarStartPoint`/`findSolarEndPoint`. Their input is taken as already in time order.
- The observers' callbacks in `notifyObservers`: only the list of subscribed ids is modelled.
- `getTodayDataForCurrentTime` is not defined in the repository's code, so the chart redraw after `applySimulation` and `resetSimulation` is not modelled. `ApplySimulation` returns only whether it would redraw.
- `updateThermostatCard`, `updateDashboard` and `refreshStaleDataLabels` are page glue around the modelled functions. The vehicle card's range (`Math.round` of the estimated miles) and battery bar width are left out too.
- The powerwall series of createBatteryChart (`BatteryPercentage || 0` per sample) is a plain map and is not modelled.
- ChartCreator.BuildSlots: the labels are kept as hour, minute and AM/PM triples (`SlotLabel`). Their text is `LabelText`, proved for the cases that matter in `SlotLabelBefore6am` and `SlotLabelAsWrittenBefore6am`, not inside the loop.
- ChartCreator.BuildSlots: pushes the corrected `SlotLabelFor` from the first row of "Findings", not the label the source builds with JavaScript's `%` (`SlotLabelAsWritten`). The two agree from 6 AM on (`SlotLabelAgreesFrom6am`). Before 6 AM, a slot that is not on the hour shows a minute 60 lower in the source (`SlotLabelAsWrittenNegativeMinute`), for example "05:-5 AM" where the model has 5:55 AM.
- ChartCreator.CreateSolarChartData: builds its slots with `BuildSlots`, so its labels are the corrected ones too. They differ from the source's only for slots before 6 AM that are not on the hour.
- BatterySimulation.TimeToNinetyText: uses the corrected `SplitHours` from the second row of "Findings". As written, the source shows "1h 60m" where the model shows "2h 0m" (`SplitHoursShowsSixtyMinutes`).
- ChartCreator.SolarEndPoint: its contract states only the range; which sample it picks is stated by `EndFrom` and `SolarEndAfterLastProduction`.
- DashboardUpdater.UpdateVehicleCard: the card's capacity is taken from the vehicle rather than passed in; both callers pass that vehicle's capacity.

## Findings

| source | as written | input that shows it | evidently intended | confidence | as-written member | corrected member |
|---|---|---|---|---|---|---|
| chart-creator.js:293-319 | The slot minute is `minute % 60` with JavaScript's remainder, which is negative for a negative dividend | a chart window starting before 6 AM, slot minute −5 (5:55 AM): label "05:-5 AM" | the label shows 5:55 AM: "05:55 AM" | high, not executed | ChartCreator.SlotLabelAsWrittenBefore6am | ChartCreator.SlotLabelShowsSlotTime |
| battery-simulator.js:275-277 | Hours are floored, then the fraction is rounded to minutes on its own | an estimate of 1.999 h: "1h 60m" | minutes below 60: "2h 0m" | high, not executed | BatterySimulation.SplitHoursShowsSixtyMinutes | BatterySimulation.SplitHours |
