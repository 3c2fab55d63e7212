/** The helpers of indexScript.js: the hourly battery forecast, the "x h y m
    ago" age label, the kWh conversion, the search for a vehicle's last
    available sample and the filter for today's samples. */
module IndexScript {
  import opened Telemetry
  import opened Clock
  import opened Numbers
  import opened Seqs

  // ---------------------------------------------------------------------
  // formatTimeDifference

  /** Whole minutes between two instants, in either order. */
  function ElapsedMinutes(date1: int, date2: int): nat {
    (if date2 >= date1 then date2 - date1 else date1 - date2) / MINUTE
  }

  /** formatTimeDifference: under an hour "<m>m ago"; a whole number of hours
      "<h>h ago"; otherwise "<h>h <r>m ago". */
  function FormatTimeDifference(date1: int, date2: int): (s: string)
    ensures var m := ElapsedMinutes(date1, date2);
      (m < 60 ==> s == NatToString(m) + "m ago") &&
      (m >= 60 && m % 60 == 0 ==> s == NatToString(m / 60) + "h ago") &&
      (m >= 60 && m % 60 != 0 ==>
        s == NatToString(m / 60) + ("h " + (NatToString(m % 60) + "m ago")))
  {
    var diffMs := if date2 - date1 >= 0 then date2 - date1 else -(date2 - date1);
    var diffMinutes := diffMs / MINUTE;
    var diffHours := diffMinutes / 60;
    var remainingMinutes := diffMinutes % 60;
    if diffHours > 0 then
      if remainingMinutes > 0
      then NatToString(diffHours) + ("h " + (NatToString(remainingMinutes) + "m ago"))
      else NatToString(diffHours) + "h ago"
    else NatToString(diffMinutes) + "m ago"
  }

  /** The label does not depend on the order of its arguments. */
  lemma FormatTimeDifferenceSymmetric(date1: int, date2: int)
    ensures FormatTimeDifference(date1, date2) == FormatTimeDifference(date2, date1)
  {
    assert ElapsedMinutes(date1, date2) == ElapsedMinutes(date2, date1);
  }

  /** The label reads back as the whole minutes elapsed: nothing but the
      seconds is lost. */
  lemma FormatTimeDifferenceRoundTrip(date1: int, date2: int)
    ensures ParseAge(FormatTimeDifference(date1, date2)) == Some(ElapsedMinutes(date1, date2))
  {
    var m := ElapsedMinutes(date1, date2);
    var s := FormatTimeDifference(date1, date2);
    if m < 60 {
      assert s == NatToString(m) + "m ago";
      ParseMinutesLabel(m);
    } else if m % 60 == 0 {
      assert s == NatToString(m / 60) + "h ago";
      ParseHoursLabel(m / 60);
    } else {
      assert s == NatToString(m / 60) + ("h " + (NatToString(m % 60) + "m ago"));
      ParseHoursMinutesLabel(m / 60, m % 60);
    }
  }

  // ---------------------------------------------------------------------
  // calculateKwh

  /** calculateKwh: `percentage / 100 * capacity` to one decimal. */
  function CalculateKwh(percentage: real, capacity: real): (r: real)
    ensures -0.05 <= r - percentage / 100.0 * capacity <= 0.05
    ensures (r * 10.0).Floor as real == r * 10.0
  {
    Round1(percentage / 100.0 * capacity)
  }

  // ---------------------------------------------------------------------
  // findLastVehicleData

  /** findLastVehicleData: scans backwards for the last sample in which the
      vehicle is available; its age is measured from `now`. */
  method FindLastVehicleData(energyData: seq<Sample>, id: VehicleId, now: int)
    returns (r: Option<LastData>)
    ensures r.None? <==> forall j :: 0 <= j < |energyData| ==> !energyData[j].VehicleOf(id).isAvailable
    ensures r.Some? ==> (LastAvailableIndex(energyData, id).Some? &&
      var i := LastAvailableIndex(energyData, id).value;
      r.value == LastData(energyData[i], now - energyData[i].timestamp))
  {
    var i := |energyData| - 1;
    while i >= 0
      invariant -1 <= i < |energyData|
      invariant forall j :: i < j < |energyData| ==> !energyData[j].VehicleOf(id).isAvailable
    {
      var point := energyData[i];
      if point.VehicleOf(id).isAvailable {
        return Some(LastData(point, now - point.timestamp));
      }
      i := i - 1;
    }
    return None;
  }

  // ---------------------------------------------------------------------
  // getTodayData

  /** getTodayData: the samples at or after local midnight of `now`'s day. */
  function GetTodayData(energyData: seq<Sample>, now: int): (r: seq<Sample>)
    ensures forall i :: 0 <= i < |r| ==> r[i].timestamp >= StartOfDay(now) && r[i] in energyData
    ensures forall x :: x in energyData && x.timestamp >= StartOfDay(now) ==> x in r
  {
    Filter(energyData, (point: Sample) => point.timestamp >= StartOfDay(now))
  }

  /** The index of the first sample at or after `t`, or `|data|`. */
  function FirstAtOrAfter(data: seq<Sample>, t: int): (k: nat)
    ensures k <= |data|
    ensures forall i :: 0 <= i < k ==> data[i].timestamp < t
    ensures k < |data| ==> data[k].timestamp >= t
  {
    if data == [] || data[0].timestamp >= t then 0 else 1 + FirstAtOrAfter(data[1..], t)
  }

  /** On ascending data, today's samples are a suffix: everything from the
      first sample at or after midnight. */
  lemma GetTodayDataSuffix(energyData: seq<Sample>, now: int)
    requires Ascending(energyData)
    ensures GetTodayData(energyData, now) == energyData[FirstAtOrAfter(energyData, StartOfDay(now))..]
  {
    var midnight := StartOfDay(now);
    var k := FirstAtOrAfter(energyData, midnight);
    FilterSuffix(energyData, (point: Sample) => point.timestamp >= midnight, k);
  }

  // ---------------------------------------------------------------------
  // The hourly generateBatteryPredictions

  /** The Powerwall heuristic of one hourly step at hour of day `hour`. */
  function PowerwallHourStep(level: real, hour: int, solarPowerKw: real): real {
    if 6 <= hour <= 18 && solarPowerKw > 0.0 then Min(100.0, level + 2.0)
    else Max(0.0, level - 1.0)
  }

  /** The Powerwall level after `k` hourly steps when step `i` falls in hour
      `hour0 + i`. */
  function HourlyPowerwallAfter(level0: real, hour0: int, solarPowerKw: real, k: nat): real {
    if k == 0 then level0
    else PowerwallHourStep(HourlyPowerwallAfter(level0, hour0, solarPowerKw, k - 1), hour0 + k, solarPowerKw)
  }

  function HourlyGain(v: Vehicle, capacity: real): real
    requires capacity > 0.0
  {
    v.chargerPowerKw / capacity * 100.0
  }

  function VehicleHourStep(level: real, v: Vehicle, capacity: real): real
    requires capacity > 0.0
  {
    if v.isCharging && v.chargerPowerKw > 0.0 then Min(100.0, level + HourlyGain(v, capacity))
    else level
  }

  function HourlyLevelAfter(level0: real, v: Vehicle, capacity: real, k: nat): real
    requires capacity > 0.0
  {
    if k == 0 then level0 else VehicleHourStep(HourlyLevelAfter(level0, v, capacity, k - 1), v, capacity)
  }

  /** Hours after `now`'s hour that are still in its day. */
  function HourlyStepCount(now: int): nat {
    23 - HourOf(now)
  }

  function HourlyVehicleSeries(v: Vehicle, capacity: real, n: nat): seq<Option<real>>
    requires capacity > 0.0
  {
    seq(n, j requires 0 <= j < n =>
      if v.isAvailable then Some(HourlyLevelAfter(LevelOrZero(v.battery), v, capacity, j + 1)) else None)
  }

  function HourlyForecast(todayData: seq<Sample>): Predictions {
    if |todayData| == 0 then EMPTY
    else
      var latest := todayData[|todayData| - 1];
      var now := latest.timestamp;
      var n := HourlyStepCount(now);
      Predictions(
        seq(n, j => HourStart(now) + (j + 1) * HOUR),
        seq(n, j requires 0 <= j < n =>
          HourlyPowerwallAfter(latest.batteryPercentage, HourOf(now), latest.solarPowerKw, j + 1)),
        HourlyVehicleSeries(latest.model3, MODEL_3_CAPACITY, n),
        HourlyVehicleSeries(latest.modelX, MODEL_X_CAPACITY, n))
  }

  /** Step `i` (from 0) is within the day exactly when `i` is below the
      hourly step count. */
  lemma HourlyStepCountSpec(now: int, i: nat)
    ensures HourStart(now) + (i + 1) * HOUR <= EndOfDay(now) <==> i < HourlyStepCount(now)
  {
    HourStartInDay(now);
    var h := HourOf(now);
    assert HourStart(now) + (i + 1) * HOUR == StartOfDay(now) + (h + i + 1) * HOUR;
    if h + i + 1 <= 23 {
      MulMonotone(h + i + 1, 23, HOUR);
    } else {
      MulMonotone(24, h + i + 1, HOUR);
    }
  }

  /** generateBatteryPredictions (indexScript.js). */
  method GenerateBatteryPredictions(todayData: seq<Sample>) returns (p: Predictions)
    ensures p == HourlyForecast(todayData)
  {
    if |todayData| == 0 {
      return EMPTY;
    }
    var latest := todayData[|todayData| - 1];
    var now := latest.timestamp;
    var endOfDay := EndOfDay(now);
    var labels: seq<int>, powerwall: seq<real> := [], [];
    var model3: seq<Option<real>>, modelX: seq<Option<real>> := [], [];

    var currentTime := HourStart(now) + HOUR;
    var currentPowerwallLevel := latest.batteryPercentage;
    var currentModel3Level := LevelOrZero(latest.model3.battery);
    var currentModelXLevel := LevelOrZero(latest.modelX.battery);

    ghost var n := HourlyStepCount(now);
    while currentTime <= endOfDay
      invariant |powerwall| == |model3| == |modelX| == |labels| <= n
      invariant currentTime == HourStart(now) + (|labels| + 1) * HOUR
      invariant labels == seq(|labels|, j => HourStart(now) + (j + 1) * HOUR)
      invariant currentPowerwallLevel ==
        HourlyPowerwallAfter(latest.batteryPercentage, HourOf(now), latest.solarPowerKw, |labels|)
      invariant powerwall == seq(|labels|, j requires 0 <= j < |labels| =>
        HourlyPowerwallAfter(latest.batteryPercentage, HourOf(now), latest.solarPowerKw, j + 1))
      invariant currentModel3Level ==
        HourlyLevelAfter(LevelOrZero(latest.model3.battery), latest.model3, MODEL_3_CAPACITY, |labels|)
      invariant currentModelXLevel ==
        HourlyLevelAfter(LevelOrZero(latest.modelX.battery), latest.modelX, MODEL_X_CAPACITY, |labels|)
      invariant model3 == HourlyVehicleSeries(latest.model3, MODEL_3_CAPACITY, |labels|)
      invariant modelX == HourlyVehicleSeries(latest.modelX, MODEL_X_CAPACITY, |labels|)
      decreases endOfDay - currentTime
    {
      ghost var i := |labels|;
      HourlyStepCountSpec(now, i);
      HourOfHourStep(now, i + 1);
      labels := labels + [currentTime];

      if latest.model3.isCharging && latest.model3.chargerPowerKw > 0.0 {
        var percentagePerHour := latest.model3.chargerPowerKw / MODEL_3_CAPACITY * 100.0;
        currentModel3Level := Min(100.0, currentModel3Level + percentagePerHour);
      }
      if latest.modelX.isCharging && latest.modelX.chargerPowerKw > 0.0 {
        var percentagePerHour := latest.modelX.chargerPowerKw / MODEL_X_CAPACITY * 100.0;
        currentModelXLevel := Min(100.0, currentModelXLevel + percentagePerHour);
      }

      var hour := HourOf(currentTime);
      if 6 <= hour <= 18 && latest.solarPowerKw > 0.0 {
        currentPowerwallLevel := Min(100.0, currentPowerwallLevel + 2.0);
      } else {
        currentPowerwallLevel := Max(0.0, currentPowerwallLevel - 1.0);
      }

      powerwall := powerwall + [currentPowerwallLevel];
      model3 := model3 + [if latest.model3.isAvailable then Some(currentModel3Level) else None];
      modelX := modelX + [if latest.modelX.isAvailable then Some(currentModelXLevel) else None];

      currentTime := currentTime + HOUR;
    }
    HourlyStepCountSpec(now, |labels|);
    p := Predictions(labels, powerwall, model3, modelX);
  }

  /** Empty input gives four empty series. Otherwise there is one step per
      remaining hour of the day, so none when `now` is in hour 23; the four
      series have equal length and step `j` falls at the start of hour
      `HourOf(now) + 1 + j` of the same day. */
  lemma HourlyForecastShape(todayData: seq<Sample>)
    ensures todayData == [] ==> HourlyForecast(todayData) == EMPTY
    ensures var p := HourlyForecast(todayData);
      |p.labels| == |p.powerwall| == |p.model3| == |p.modelX|
    ensures todayData != [] ==>
      var now := todayData[|todayData| - 1].timestamp;
      var p := HourlyForecast(todayData);
      |p.labels| == 23 - HourOf(now) &&
      (|p.labels| == 0 <==> HourOf(now) == 23) &&
      forall j :: 0 <= j < |p.labels| ==>
        HourOf(p.labels[j]) == HourOf(now) + 1 + j &&
        StartOfDay(p.labels[j]) == StartOfDay(now) &&
        p.labels[j] % HOUR == 0
  {
    if todayData != [] {
      var now := todayData[|todayData| - 1].timestamp;
      var p := HourlyForecast(todayData);
      forall j | 0 <= j < |p.labels|
        ensures HourOf(p.labels[j]) == HourOf(now) + 1 + j &&
          StartOfDay(p.labels[j]) == StartOfDay(now) &&
          p.labels[j] % HOUR == 0
      {
        HourOfHourStep(now, j + 1);
        HourStartInDay(now);
        assert p.labels[j] == (now / HOUR + j + 1) * HOUR;
        ModUnique(p.labels[j], HOUR, now / HOUR + j + 1, 0);
      }
    }
  }

  /** From a start in [0, 100] the hourly Powerwall level stays in [0, 100]. */
  lemma {:induction false} HourlyPowerwallBounds(level0: real, hour0: int, solarPowerKw: real, k: nat)
    requires 0.0 <= level0 <= 100.0
    ensures 0.0 <= HourlyPowerwallAfter(level0, hour0, solarPowerKw, k) <= 100.0
  {
    if k > 0 {
      HourlyPowerwallBounds(level0, hour0, solarPowerKw, k - 1);
    }
  }

  /** Each Powerwall value is the previous one (the latest sample's level
      for the first) moved by the rule for its own label's hour. */
  predicate FollowsHourlyRule(p: Predictions, latest: Sample) {
    |p.labels| == |p.powerwall| &&
    forall j :: 0 <= j < |p.powerwall| ==>
      p.powerwall[j] == PowerwallHourStep(
        if j == 0 then latest.batteryPercentage else p.powerwall[j - 1],
        HourOf(p.labels[j]), latest.solarPowerKw)
  }

  /** Every hourly Powerwall value is in [0, 100] given a start in [0, 100],
      and each is the previous one moved by the rule for its own label's
      hour: +2 (capped at 100) in daylight hours 6..18 with solar power,
      otherwise -1 (floored at 0). */
  lemma HourlyPowerwallSpec(todayData: seq<Sample>)
    requires todayData != []
    requires 0.0 <= todayData[|todayData| - 1].batteryPercentage <= 100.0
    ensures var p := HourlyForecast(todayData);
      forall j :: 0 <= j < |p.powerwall| ==> 0.0 <= p.powerwall[j] <= 100.0
    ensures FollowsHourlyRule(HourlyForecast(todayData), todayData[|todayData| - 1])
  {
    var latest := todayData[|todayData| - 1];
    var p := HourlyForecast(todayData);
    HourlyForecastShape(todayData);
    forall j | 0 <= j < |p.powerwall|
      ensures 0.0 <= p.powerwall[j] <= 100.0
    {
      HourlyPowerwallBounds(latest.batteryPercentage, HourOf(latest.timestamp), latest.solarPowerKw, j + 1);
    }
    forall j | 0 <= j < |p.powerwall|
      ensures p.powerwall[j] == PowerwallHourStep(
        if j == 0 then latest.batteryPercentage else p.powerwall[j - 1],
        HourOf(p.labels[j]), latest.solarPowerKw)
    {
      assert HourOf(p.labels[j]) == HourOf(latest.timestamp) + 1 + j;
      assert p.powerwall[j] ==
        HourlyPowerwallAfter(latest.batteryPercentage, HourOf(latest.timestamp), latest.solarPowerKw, j + 1);
      if j > 0 {
        assert p.powerwall[j - 1] ==
          HourlyPowerwallAfter(latest.batteryPercentage, HourOf(latest.timestamp), latest.solarPowerKw, j);
      }
    }
    assert |p.labels| == |p.powerwall|;
    assert FollowsHourlyRule(p, latest);
  }

  /** A vehicle's hourly level moves only while it charges, by its hourly
      gain capped at 100, so from a start at most 100 it never falls and
      never exceeds 100. */
  lemma {:induction false} HourlyLevelAfterSpec(level0: real, v: Vehicle, capacity: real, i: nat, j: nat)
    requires capacity > 0.0 && i <= j
    ensures !(v.isCharging && v.chargerPowerKw > 0.0) ==> HourlyLevelAfter(level0, v, capacity, j) == level0
    ensures level0 <= 100.0 ==>
      level0 <= HourlyLevelAfter(level0, v, capacity, i) <= HourlyLevelAfter(level0, v, capacity, j) <= 100.0
  {
    if i < j {
      HourlyLevelAfterSpec(level0, v, capacity, i, j - 1);
    } else if j > 0 {
      HourlyLevelAfterSpec(level0, v, capacity, j - 1, j - 1);
    }
  }

  /** An unavailable vehicle is null at every hourly step; an available one
      has a level at every step, non-decreasing and at most 100 when it starts
      at most 100. */
  lemma HourlyVehicleSeriesSpec(v: Vehicle, capacity: real, n: nat)
    requires capacity > 0.0
    ensures var s := HourlyVehicleSeries(v, capacity, n);
      |s| == n && (forall j :: 0 <= j < n ==> (s[j].None? <==> !v.isAvailable))
    ensures var s := HourlyVehicleSeries(v, capacity, n);
      LevelOrZero(v.battery) <= 100.0 ==>
      forall i, j :: 0 <= i <= j < n && v.isAvailable ==>
        s[i].value <= s[j].value <= 100.0
  {
    var s := HourlyVehicleSeries(v, capacity, n);
    if LevelOrZero(v.battery) <= 100.0 {
      forall i, j | 0 <= i <= j < n && v.isAvailable
        ensures s[i].value <= s[j].value <= 100.0
      {
        HourlyLevelAfterSpec(LevelOrZero(v.battery), v, capacity, i + 1, j + 1);
      }
    }
  }
}
