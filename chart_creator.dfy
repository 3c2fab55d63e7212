/** The data preparation of chart-creator.js: the 15-minute temperature
    series, the solar production window with its 5-minute slots for today
    and yesterday, and the vehicle battery series with gap handling. */
module ChartCreator {
  import opened Telemetry
  import opened Clock
  import opened Numbers
  import opened Seqs

  // ---------------------------------------------------------------------
  // Temperature chart
  // ---------------------------------------------------------------------

  /** A sample taken at :00, :15, :30 or :45. */
  function OnQuarter(): Sample -> bool {
    (point: Sample) => MinuteOf(point.timestamp) % 15 == 0
  }

  /** The temperature filter: the first sample always, then the samples
      taken on a quarter hour, in order. */
  function TemperatureFilter(todayData: seq<Sample>): (r: seq<Sample>)
    ensures |r| == 0 <==> |todayData| == 0
    ensures |todayData| > 0 ==> r[0] == todayData[0]
    ensures |todayData| > 0 ==>
      (forall i :: 1 <= i < |r| ==> MinuteOf(r[i].timestamp) % 15 == 0 && r[i] in todayData[1..]) &&
      (forall x :: x in todayData[1..] && MinuteOf(x.timestamp) % 15 == 0 ==> x in r[1..])
  {
    if |todayData| == 0 then []
    else [todayData[0]] + Filter(todayData[1..], OnQuarter())
  }

  /** When the first sample is itself on a quarter hour, the filter is the
      plain quarter-hour filter. */
  lemma TemperatureFilterOnQuarter(todayData: seq<Sample>)
    requires |todayData| > 0 && MinuteOf(todayData[0].timestamp) % 15 == 0
    ensures TemperatureFilter(todayData) == Filter(todayData, OnQuarter())
  {
  }

  /** The indoor reading plotted: only a truthy value above 0. */
  function IndoorValue(point: Sample): (r: Option<real>)
    ensures r.Some? <==> point.thermostatCurrentTempF > 0.0
    ensures r.Some? ==> r.value == point.thermostatCurrentTempF
  {
    var t := point.thermostatCurrentTempF;
    if t != 0.0 && t > 0.0 then Some(t) else None
  }

  /** The outdoor reading plotted: only a truthy value above -50. A reading
      of exactly 0 is falsy and is not plotted. */
  function OutdoorValue(point: Sample): (r: Option<real>)
    ensures r.Some? <==> point.weatherTemperatureF != 0.0 && point.weatherTemperatureF > -50.0
    ensures r.Some? ==> r.value == point.weatherTemperatureF
  {
    var t := point.weatherTemperatureF;
    if t != 0.0 && t > -50.0 then Some(t) else None
  }

  /** The indoor and outdoor series, one entry per filtered sample: entry i
      is the plotted reading of filtered sample i. */
  function TemperatureSeries(todayData: seq<Sample>): (r: (seq<Option<real>>, seq<Option<real>>))
    ensures |r.0| == |r.1| == |TemperatureFilter(todayData)|
    ensures forall i :: 0 <= i < |r.0| ==>
      r.0[i] == IndoorValue(TemperatureFilter(todayData)[i]) &&
      r.1[i] == OutdoorValue(TemperatureFilter(todayData)[i])
    ensures forall i :: 0 <= i < |r.0| ==>
      (r.0[i].Some? ==> r.0[i].value > 0.0) && (r.1[i].Some? ==> r.1[i].value > -50.0)
  {
    var f := TemperatureFilter(todayData);
    (seq(|f|, i requires 0 <= i < |f| => IndoorValue(f[i])),
     seq(|f|, i requires 0 <= i < |f| => OutdoorValue(f[i])))
  }

  // ---------------------------------------------------------------------
  // Solar chart: start and end of production
  // ---------------------------------------------------------------------

  /** `Math.max(0, point.SolarPowerKw || 0)`. */
  function Solar(point: Sample): (kw: real)
    ensures kw >= 0.0
    ensures kw == 0.0 <==> point.solarPowerKw <= 0.0
  {
    Max(0.0, point.solarPowerKw)
  }

  /** Production starts right after sample `i`: it shows 0 and the next
      sample shows more. */
  predicate RiseAt(data: seq<Sample>, i: nat)
    requires i + 1 < |data|
  {
    Solar(data[i]) == 0.0 && Solar(data[i + 1]) > 0.0
  }

  /** The first rise at or after index `i`. */
  function RiseFrom(data: seq<Sample>, i: nat): (r: Option<nat>)
    requires i <= |data|
    ensures r.Some? ==> i <= r.value && r.value + 1 < |data| && RiseAt(data, r.value)
    ensures r.Some? ==> forall j :: i <= j < r.value ==> !RiseAt(data, j)
    ensures r.None? ==> forall j :: i <= j && j + 1 < |data| ==> !RiseAt(data, j)
    decreases |data| - i
  {
    if i + 1 >= |data| then None
    else if RiseAt(data, i) then Some(i)
    else RiseFrom(data, i + 1)
  }

  /** The start point: minutes since 6 AM of the first rise, if any. */
  function SolarStartPoint(data: seq<Sample>): (r: Option<int>)
    ensures r.Some? <==> exists j :: 0 <= j && j + 1 < |data| && RiseAt(data, j)
    ensures r.Some? ==> -360 <= r.value < 1080
  {
    match RiseFrom(data, 0)
    case None => None
    case Some(i) => Some(MinutesSince6am(data[i].timestamp))
  }

  /** findSolarStartPoint, on data already in time order. */
  method FindSolarStartPoint(data: seq<Sample>) returns (r: Option<int>)
    ensures r == SolarStartPoint(data)
  {
    if |data| == 0 {
      return None;
    }
    var i := 0;
    while i + 1 < |data|
      invariant i <= |data|
      invariant RiseFrom(data, i) == RiseFrom(data, 0)
    {
      var currentPower := Solar(data[i]);
      var nextPower := Solar(data[i + 1]);
      if currentPower == 0.0 && nextPower > 0.0 {
        return Some(MinutesSince6am(data[i].timestamp));
      }
      i := i + 1;
    }
    return None;
  }

  /** `.some(p => clamped power > 0)`. */
  predicate HasProduction(s: seq<Sample>) {
    exists j :: 0 <= j < |s| && Solar(s[j]) > 0.0
  }

  /** `.every(p => clamped power === 0)`. */
  predicate AllDark(s: seq<Sample>) {
    forall j :: 0 <= j < |s| ==> Solar(s[j]) == 0.0
  }

  /** Production ends at sample `i`: it shows 0, some earlier sample
      produced, and every later one shows 0. */
  predicate EndAt(data: seq<Sample>, i: nat)
    requires i < |data|
  {
    Solar(data[i]) == 0.0 && HasProduction(data[..i]) && AllDark(data[i..])
  }

  /** The first end at or after index `i`. */
  function EndFrom(data: seq<Sample>, i: nat): (r: Option<nat>)
    requires i <= |data|
    ensures r.Some? ==> i <= r.value < |data| && EndAt(data, r.value)
    ensures r.Some? ==> forall j :: i <= j < r.value ==> !EndAt(data, j)
    ensures r.None? ==> forall j :: i <= j < |data| ==> !EndAt(data, j)
    decreases |data| - i
  {
    if i >= |data| then None
    else if EndAt(data, i) then Some(i)
    else EndFrom(data, i + 1)
  }

  /** The end point: minutes since 6 AM of the first end, if any. */
  function SolarEndPoint(data: seq<Sample>): (r: Option<int>)
    ensures r.Some? ==> -360 <= r.value < 1080
  {
    match EndFrom(data, 0)
    case None => None
    case Some(i) => Some(MinutesSince6am(data[i].timestamp))
  }

  /** findSolarEndPoint, on data already in time order. */
  method FindSolarEndPoint(data: seq<Sample>) returns (r: Option<int>)
    ensures r == SolarEndPoint(data)
  {
    if |data| == 0 {
      return None;
    }
    var i := 0;
    while i < |data|
      invariant i <= |data|
      invariant EndFrom(data, i) == EndFrom(data, 0)
    {
      var solarPower := Solar(data[i]);
      if solarPower == 0.0 {
        var hasHadProduction := HasProduction(data[..i]);
        if hasHadProduction {
          var allZero := AllDark(data[i..]);
          if allZero {
            return Some(MinutesSince6am(data[i].timestamp));
          }
        }
      }
      i := i + 1;
    }
    return None;
  }

  /** A producing sample. */
  function Producing(): Sample -> bool {
    (point: Sample) => Solar(point) > 0.0
  }

  /** The end is the sample right after the last producing one, and there
      is none when nothing produced or the last sample still produces. The
      proof is by cases, not induction; the attribute keeps Dafny from adding
      an induction hypothesis over `data` that only slows the solver. */
  lemma {:induction false} SolarEndAfterLastProduction(data: seq<Sample>)
    ensures EndFrom(data, 0) == match LastIndex(data, Producing())
      case None => None
      case Some(l) => if l + 1 < |data| then Some(l + 1) else None
  {
    match LastIndex(data, Producing())
    case None => {
      forall j | 0 <= j < |data|
        ensures !HasProduction(data[..j])
      {
        forall k | 0 <= k < j
          ensures Solar(data[..j][k]) <= 0.0
        {
          assert data[..j][k] == data[k];
          assert !Producing()(data[k]);
        }
      }
    }
    case Some(l) => {
      forall j | 0 <= j <= l && j < |data|
        ensures !EndAt(data, j)
      {
        assert data[j..][l - j] == data[l];
        assert Producing()(data[l]);
      }
      if l + 1 < |data| {
        var e := l + 1;
        assert data[..e][l] == data[l];
        assert HasProduction(data[..e]);
        forall k | 0 <= k < |data[e..]|
          ensures Solar(data[e..][k]) == 0.0
        {
          assert data[e..][k] == data[e + k];
          assert !Producing()(data[e + k]);
        }
        assert EndAt(data, e);
        assert EndFrom(data, 0).Some?;
      }
    }
  }

  // ---------------------------------------------------------------------
  // Solar chart: window, time-of-day points and 5-minute slots
  // ---------------------------------------------------------------------

  /** The samples of yesterday, from its midnight to 23:59:59.999. */
  function YesterdayData(energyData: seq<Sample>, now: int): (r: seq<Sample>)
    ensures forall i :: 0 <= i < |r| ==>
      StartOfDay(now) - DAY <= r[i].timestamp < StartOfDay(now) && r[i] in energyData
    ensures forall x :: x in energyData && StartOfDay(now) - DAY <= x.timestamp < StartOfDay(now) ==> x in r
  {
    Filter(energyData, (point: Sample) =>
      point.timestamp >= StartOfDay(now) - DAY && point.timestamp <= StartOfDay(now) - 1)
  }

  /** The chart's first minute: the earlier of the start points present, 6 AM
      (0) when neither is. */
  function ChartStartMinute(todayStart: Option<int>, yesterdayStart: Option<int>): (m: int)
    ensures todayStart.None? && yesterdayStart.None? ==> m == 0
    ensures todayStart.Some? || yesterdayStart.Some? ==> Some(m) == todayStart || Some(m) == yesterdayStart
    ensures todayStart.Some? ==> m <= todayStart.value
    ensures yesterdayStart.Some? ==> m <= yesterdayStart.value
  {
    if todayStart.Some? && yesterdayStart.Some? then
      if todayStart.value <= yesterdayStart.value then todayStart.value else yesterdayStart.value
    else if todayStart.Some? then todayStart.value
    else if yesterdayStart.Some? then yesterdayStart.value
    else 0
  }

  /** The chart's last minute: the later of the end points present, 8 PM
      (840) when neither is. */
  function ChartEndMinute(todayEnd: Option<int>, yesterdayEnd: Option<int>): (m: int)
    ensures todayEnd.None? && yesterdayEnd.None? ==> m == 14 * 60
    ensures todayEnd.Some? || yesterdayEnd.Some? ==> Some(m) == todayEnd || Some(m) == yesterdayEnd
    ensures todayEnd.Some? ==> m >= todayEnd.value
    ensures yesterdayEnd.Some? ==> m >= yesterdayEnd.value
  {
    if todayEnd.Some? && yesterdayEnd.Some? then
      if todayEnd.value >= yesterdayEnd.value then todayEnd.value else yesterdayEnd.value
    else if todayEnd.Some? then todayEnd.value
    else if yesterdayEnd.Some? then yesterdayEnd.value
    else 14 * 60
  }

  /** A sample placed on the time-of-day axis. */
  datatype SolarPoint = SolarPoint(minutes: int, power: real)

  function ToSolarPoint(point: Sample): SolarPoint {
    SolarPoint(MinutesSince6am(point.timestamp), Solar(point))
  }

  function InWindow(startMinute: int, endMinute: int): SolarPoint -> bool {
    (d: SolarPoint) => d.minutes >= startMinute && d.minutes <= endMinute
  }

  /** The samples as time-of-day points inside the chart window, in order. */
  function TimeData(data: seq<Sample>, startMinute: int, endMinute: int): (r: seq<SolarPoint>)
    ensures forall i :: 0 <= i < |r| ==> startMinute <= r[i].minutes <= endMinute && r[i].power >= 0.0
    ensures forall i :: 0 <= i < |data| && startMinute <= MinutesSince6am(data[i].timestamp) <= endMinute ==>
      ToSolarPoint(data[i]) in r
  {
    var points := seq(|data|, i requires 0 <= i < |data| => ToSolarPoint(data[i]));
    assert forall i :: 0 <= i < |data| ==> points[i] in points;
    assert forall i :: 0 <= i < |data| && startMinute <= MinutesSince6am(data[i].timestamp) <= endMinute ==>
      points[i] == ToSolarPoint(data[i]) && InWindow(startMinute, endMinute)(points[i]);
    Filter(points, InWindow(startMinute, endMinute))
  }

  /** A point within 2 minutes of a slot. */
  function Near(minute: int): SolarPoint -> bool {
    (d: SolarPoint) => -2 <= d.minutes - minute <= 2
  }

  /** The power of the first point within 2 minutes of the slot, None when
      there is none. A match of 0 kW still counts. */
  function FindWithin(points: seq<SolarPoint>, minute: int): Option<real> {
    match FirstIndex(points, Near(minute))
    case None => None
    case Some(i) => Some(points[i].power)
  }

  /** A power is found exactly when some point lies within 2 minutes of the
      slot, and it is the power of the first such point. */
  lemma FindWithinSpec(points: seq<SolarPoint>, minute: int)
    ensures var r := FindWithin(points, minute);
      r.None? <==> forall j :: 0 <= j < |points| ==> !(-2 <= points[j].minutes - minute <= 2)
    ensures var r := FindWithin(points, minute);
      r.Some? ==>
        exists j ::
          0 <= j < |points| && -2 <= points[j].minutes - minute <= 2 && r.value == points[j].power &&
          forall k :: 0 <= k < j ==> !(-2 <= points[k].minutes - minute <= 2)
  {
    match FirstIndex(points, Near(minute))
    case None => {
      assert forall j :: 0 <= j < |points| ==> !Near(minute)(points[j]);
    }
    case Some(i) => {
      assert Near(minute)(points[i]);
      assert forall k :: 0 <= k < i ==> !Near(minute)(points[k]);
    }
  }

  /** The first slot: the start minute rounded down to a multiple of 5. */
  function FirstSlot(startMinute: int): (m: int)
    ensures m % 5 == 0 && m <= startMinute < m + 5
  {
    startMinute / 5 * 5
  }

  /** The number of slots from the first slot up to the end minute. */
  function SlotCount(startMinute: int, endMinute: int): nat {
    StepsUpTo(FirstSlot(startMinute), endMinute, 5)
  }

  /** Slot `k` is a multiple of 5 in the window's range, and the slots are
      exactly the multiples of 5 from the first slot to the end minute. */
  lemma SlotsCoverWindow(startMinute: int, endMinute: int, k: nat)
    ensures var m := FirstSlot(startMinute) + 5 * k;
      m % 5 == 0 && (k < SlotCount(startMinute, endMinute) <==> m <= endMinute)
    ensures k < SlotCount(startMinute, endMinute) ==> startMinute - 5 < FirstSlot(startMinute) + 5 * k
  {
    StepsUpToSpec(FirstSlot(startMinute), endMinute, 5, k);
  }

  // ---------------------------------------------------------------------
  // Slot labels
  // ---------------------------------------------------------------------

  /** A 12-hour clock label "hh:mm AM". */
  datatype SlotLabel = SlotLabel(displayHour: int, minute: int, pm: bool)

  /** The hour shown for an hour of the day, and whether it is PM. */
  function DisplayHour(hour: int): (r: (int, bool))
    ensures 0 <= hour < 24 ==> 1 <= r.0 <= 12 && (r.1 <==> hour >= 12) && r.0 % 12 == hour % 12
    ensures hour < 0 ==> r == (12 + hour, true)
  {
    if hour < 0 then (12 + hour, true)
    else if hour == 0 then (12, false)
    else if hour < 12 then (hour, false)
    else if hour == 12 then (12, true)
    else (hour - 12, true)
  }

  /** `minute % 60` in JavaScript: the remainder takes the sign of the
      dividend. */
  function JsRemainder(a: int, b: int): (r: int)
    requires b > 0
    ensures a >= 0 ==> r == a % b
    ensures a < 0 ==> -b < r <= 0
  {
    if a >= 0 then a % b else -((-a) % b)
  }

  /** For a negative dividend the JavaScript remainder is the Euclidean one
      less `b`, unless both are 0. */
  lemma JsRemainderEuclidean(a: int, b: int)
    requires b > 0 && a < 0
    ensures var r := JsRemainder(a, b);
      (r == 0 && a % b == 0) || (r < 0 && r + b == a % b)
  {
    var q, m := (-a) / b, (-a) % b;
    if m == 0 {
      ModUnique(a, b, -q, 0);
    } else {
      ModUnique(a, b, -q - 1, b - m);
    }
  }

  /** The slot label as the chart code computes it, with JavaScript's `%`. */
  function SlotLabelAsWritten(minute: int): SlotLabel {
    var hour := minute / 60 + 6;
    var min := JsRemainder(minute, 60);
    var (h, pm) := DisplayHour(hour);
    SlotLabel(h, min, pm)
  }

  /** The slot label with the minute taken as the non-negative remainder. */
  function SlotLabelFor(minute: int): SlotLabel {
    var hour := minute / 60 + 6;
    var min := minute % 60;
    var (h, pm) := DisplayHour(hour);
    SlotLabel(h, min, pm)
  }

  /** `n.toString()`. */
  function IntToString(n: int): string {
    if n < 0 then "-" + NatToString(-n) else NatToString(n)
  }

  /** `s.padStart(2, '0')`. */
  function Pad2(s: string): (r: string)
    ensures |r| >= 2
  {
    if |s| == 0 then "00" else if |s| == 1 then "0" + s else s
  }

  /** The label's text. */
  function LabelText(l: SlotLabel): string {
    Pad2(IntToString(l.displayHour)) + ":" + Pad2(IntToString(l.minute)) + " " + (if l.pm then "PM" else "AM")
  }

  /** The 24-hour clock time, in minutes after midnight, that a label
      shows. */
  function ShownMinuteOfDay(l: SlotLabel): int {
    ((l.displayHour % 12) + (if l.pm then 12 else 0)) * 60 + l.minute
  }

  /** A slot from 6 AM on shows its minute the same way in both versions. */
  lemma SlotLabelAgreesFrom6am(minute: int)
    requires minute >= 0
    ensures SlotLabelAsWritten(minute) == SlotLabelFor(minute)
  {
  }

  /** As written, every slot before 6 AM that is not on the hour gets a
      negative minute, 60 below the one the clock shows; its hour is right. */
  lemma SlotLabelAsWrittenNegativeMinute(minute: int)
    requires minute < 0 && minute % 60 != 0
    ensures SlotLabelAsWritten(minute).minute < 0
    ensures SlotLabelAsWritten(minute).minute == SlotLabelFor(minute).minute - 60
    ensures SlotLabelAsWritten(minute).displayHour == SlotLabelFor(minute).displayHour
  {
    JsRemainderEuclidean(minute, 60);
  }

  /** As written, the slot 5 minutes before 6 AM is labelled "05:-5 AM". */
  lemma SlotLabelAsWrittenBefore6am()
    ensures SlotLabelAsWritten(-5) == SlotLabel(5, -5, false)
    ensures LabelText(SlotLabelAsWritten(-5)) == "05:-5 AM"
    ensures ShownMinuteOfDay(SlotLabelAsWritten(-5)) != 6 * 60 - 5
  {
    assert NatToString(5) == "5";
  }

  /** The corrected label shows the slot's own time of day, with a minute in
      0..59, for every slot a day's data can produce. */
  lemma SlotLabelShowsSlotTime(minute: int)
    requires -360 <= minute < 1080
    ensures 0 <= SlotLabelFor(minute).minute < 60
    ensures 1 <= SlotLabelFor(minute).displayHour <= 12
    ensures ShownMinuteOfDay(SlotLabelFor(minute)) == minute + 360
  {
    var hour := minute / 60 + 6;
    assert 0 <= hour < 24;
    assert minute == (minute / 60) * 60 + minute % 60;
  }

  /** The corrected label before 6 AM: "05:55 AM". */
  lemma SlotLabelBefore6am()
    ensures LabelText(SlotLabelFor(-5)) == "05:55 AM"
  {
    assert NatToString(5) == "5";
    assert NatToString(55) == "55";
  }

  /** The three parallel series of the solar chart. A label is kept as its
      hour, minute and AM/PM; `LabelText` is its text. */
  datatype SolarSeries = SolarSeries(
    timeLabels: seq<SlotLabel>,
    today: seq<Option<real>>,
    yesterday: seq<Option<real>>)

  /** The labels of the first `n` slots from `first`. */
  function SlotLabels(first: int, n: nat): seq<SlotLabel> {
    seq(n, k requires 0 <= k < n => SlotLabelFor(first + 5 * k))
  }

  /** One day's powers at the first `n` slots from `first`. */
  function SlotPowers(points: seq<SolarPoint>, first: int, n: nat): seq<Option<real>> {
    seq(n, k requires 0 <= k < n => FindWithin(points, first + 5 * k))
  }

  /** Each series grows by one entry per slot. */
  lemma SlotsExtend(points: seq<SolarPoint>, first: int, n: nat)
    ensures SlotLabels(first, n + 1) == SlotLabels(first, n) + [SlotLabelFor(first + 5 * n)]
    ensures SlotPowers(points, first, n + 1) == SlotPowers(points, first, n) + [FindWithin(points, first + 5 * n)]
  {
  }

  /** One label and one power per day for each slot of the window. */
  function Slots(startMinute: int, endMinute: int,
                 todayTimeData: seq<SolarPoint>, yesterdayTimeData: seq<SolarPoint>): SolarSeries
  {
    var first := FirstSlot(startMinute);
    var n := SlotCount(startMinute, endMinute);
    SolarSeries(SlotLabels(first, n), SlotPowers(todayTimeData, first, n), SlotPowers(yesterdayTimeData, first, n))
  }

  /** The series run in lockstep, one entry per multiple of 5 from the first
      slot to the end minute; a power is present exactly when a point of that
      day lies within 2 minutes of the slot. */
  lemma SlotsSpec(startMinute: int, endMinute: int,
                  todayTimeData: seq<SolarPoint>, yesterdayTimeData: seq<SolarPoint>, k: nat)
    ensures var r := Slots(startMinute, endMinute, todayTimeData, yesterdayTimeData);
      |r.timeLabels| == |r.today| == |r.yesterday|
    ensures var r := Slots(startMinute, endMinute, todayTimeData, yesterdayTimeData);
      var minute := FirstSlot(startMinute) + 5 * k;
      (k < |r.timeLabels| <==> minute <= endMinute) &&
      (k < |r.timeLabels| ==>
        (r.today[k].Some? <==> exists j :: 0 <= j < |todayTimeData| && -2 <= todayTimeData[j].minutes - minute <= 2) &&
        (r.yesterday[k].Some? <==>
          exists j :: 0 <= j < |yesterdayTimeData| && -2 <= yesterdayTimeData[j].minutes - minute <= 2))
  {
    SlotsCoverWindow(startMinute, endMinute, k);
    FindWithinSpec(todayTimeData, FirstSlot(startMinute) + 5 * k);
    FindWithinSpec(yesterdayTimeData, FirstSlot(startMinute) + 5 * k);
  }

  /** The slot loop: the minute runs from the first slot to the end minute in
      steps of 5, pushing a label and both days' powers. */
  method BuildSlots(chartStartMinute: int, chartEndMinute: int,
                    todayTimeData: seq<SolarPoint>, yesterdayTimeData: seq<SolarPoint>)
    returns (timeLabels: seq<SlotLabel>, todaySolar: seq<Option<real>>, yesterdaySolar: seq<Option<real>>)
    ensures SolarSeries(timeLabels, todaySolar, yesterdaySolar) ==
      Slots(chartStartMinute, chartEndMinute, todayTimeData, yesterdayTimeData)
  {
    var first := FirstSlot(chartStartMinute);
    ghost var n := SlotCount(chartStartMinute, chartEndMinute);
    timeLabels, todaySolar, yesterdaySolar := [], [], [];
    var minute := first;
    ghost var i := 0;
    while minute <= chartEndMinute
      invariant minute == first + 5 * i && i <= n
      invariant timeLabels == SlotLabels(first, i)
      invariant todaySolar == SlotPowers(todayTimeData, first, i)
      invariant yesterdaySolar == SlotPowers(yesterdayTimeData, first, i)
      decreases chartEndMinute - minute
    {
      StepsUpToSpec(first, chartEndMinute, 5, i);
      SlotsExtend(todayTimeData, first, i);
      SlotsExtend(yesterdayTimeData, first, i);
      var timeLabel := SlotLabelFor(minute);
      timeLabels := timeLabels + [timeLabel];
      var todayMatch := FindWithin(todayTimeData, minute);
      todaySolar := todaySolar + [todayMatch];
      var yesterdayMatch := FindWithin(yesterdayTimeData, minute);
      yesterdaySolar := yesterdaySolar + [yesterdayMatch];
      minute := minute + 5;
      i := i + 1;
    }
    StepsUpToSpec(first, chartEndMinute, 5, i);
  }

  /** The solar chart's series for the given days: the window from both
      days' start and end points, and the slots over it. */
  function SolarChart(todayData: seq<Sample>, yesterdayData: seq<Sample>): SolarSeries {
    var startMinute := ChartStartMinute(SolarStartPoint(todayData), SolarStartPoint(yesterdayData));
    var endMinute := ChartEndMinute(SolarEndPoint(todayData), SolarEndPoint(yesterdayData));
    Slots(startMinute, endMinute, TimeData(todayData, startMinute, endMinute),
      TimeData(yesterdayData, startMinute, endMinute))
  }

  /** createSolarChart's data preparation. */
  method CreateSolarChartData(todayData: seq<Sample>, energyData: seq<Sample>, now: int)
    returns (timeLabels: seq<SlotLabel>, todaySolar: seq<Option<real>>, yesterdaySolar: seq<Option<real>>)
    ensures SolarSeries(timeLabels, todaySolar, yesterdaySolar) ==
      SolarChart(todayData, YesterdayData(energyData, now))
  {
    var yesterdayData := YesterdayData(energyData, now);
    var todayStartPoint := FindSolarStartPoint(todayData);
    var todayEndPoint := FindSolarEndPoint(todayData);
    var yesterdayStartPoint := FindSolarStartPoint(yesterdayData);
    var yesterdayEndPoint := FindSolarEndPoint(yesterdayData);
    var chartStartMinute := ChartStartMinute(todayStartPoint, yesterdayStartPoint);
    var chartEndMinute := ChartEndMinute(todayEndPoint, yesterdayEndPoint);
    var todayTimeData := TimeData(todayData, chartStartMinute, chartEndMinute);
    var yesterdayTimeData := TimeData(yesterdayData, chartStartMinute, chartEndMinute);
    timeLabels, todaySolar, yesterdaySolar := BuildSlots(chartStartMinute, chartEndMinute, todayTimeData, yesterdayTimeData);
  }

  // ---------------------------------------------------------------------
  // Battery chart: vehicle series with gaps
  // ---------------------------------------------------------------------

  /** A sample with a usable level for the vehicle: available and with a
      non-null battery (a level of 0 counts). */
  function KnownLevel(id: VehicleId): Sample -> bool {
    (point: Sample) => point.VehicleOf(id).isAvailable && point.VehicleOf(id).battery.Some?
  }

  /** A usable sample from before local midnight. */
  function KnownBefore(id: VehicleId, todayStart: int): Sample -> bool {
    (point: Sample) => point.timestamp < todayStart &&
      point.VehicleOf(id).isAvailable && point.VehicleOf(id).battery.Some?
  }

  /** The level of the last usable sample before today, if any. */
  function PriorLevel(energyData: seq<Sample>, id: VehicleId, now: int): (r: Option<real>)
    ensures r.Some? <==> exists i :: 0 <= i < |energyData| && KnownBefore(id, StartOfDay(now))(energyData[i])
  {
    match LastIndex(energyData, KnownBefore(id, StartOfDay(now)))
    case None => None
    case Some(i) => energyData[i].VehicleOf(id).battery
  }

  /** The last known level after scanning `s`, starting from `prior`. */
  function LatestLevel(s: seq<Sample>, id: VehicleId, prior: Option<real>): (r: Option<real>)
    ensures r.None? ==> prior.None?
  {
    match LastIndex(s, KnownLevel(id))
    case None => prior
    case Some(i) => s[i].VehicleOf(id).battery
  }

  /** The level plotted for one of today's samples, None for a gap. */
  function PlottedLevel(point: Sample, id: VehicleId): (r: Option<real>)
    ensures r.Some? <==> KnownLevel(id)(point)
    ensures r.Some? ==> r == point.VehicleOf(id).battery
  {
    if point.VehicleOf(id).isAvailable && point.VehicleOf(id).battery.Some?
    then point.VehicleOf(id).battery else None
  }

  /** The vehicle series: the plotted level per sample, with the last entry
      replaced by the last known level when there is one. */
  function VehicleLevels(todayData: seq<Sample>, id: VehicleId, prior: Option<real>): (r: seq<Option<real>>)
    ensures |r| == |todayData|
    ensures forall i :: 0 <= i < |r| - 1 ==> r[i] == PlottedLevel(todayData[i], id)
    ensures |r| > 0 ==> r[|r| - 1] == if LatestLevel(todayData, id, prior).Some?
      then LatestLevel(todayData, id, prior) else PlottedLevel(todayData[|r| - 1], id)
  {
    var raw := seq(|todayData|, i requires 0 <= i < |todayData| => PlottedLevel(todayData[i], id));
    var last := LatestLevel(todayData, id, prior);
    if |raw| > 0 && last.Some? then raw[..|raw| - 1] + [last] else raw
  }

  /** createVehicleData's backward search for the last usable level
      before today. */
  method FindPriorLevel(energyData: seq<Sample>, id: VehicleId, now: int)
    returns (lastKnownLevel: Option<real>)
    ensures lastKnownLevel == PriorLevel(energyData, id, now)
  {
    var todayStart := StartOfDay(now);
    var i := |energyData| - 1;
    while i >= 0
      invariant -1 <= i < |energyData|
      invariant forall j :: i < j < |energyData| ==> !KnownBefore(id, todayStart)(energyData[j])
    {
      var point := energyData[i];
      if point.timestamp < todayStart && point.VehicleOf(id).isAvailable && point.VehicleOf(id).battery.Some? {
        assert KnownBefore(id, todayStart)(point);
        return point.VehicleOf(id).battery;
      }
      i := i - 1;
    }
    return None;
  }

  /** createVehicleData: the vehicle's series for today and its last known
      level. */
  method CreateVehicleData(energyData: seq<Sample>, todayData: seq<Sample>, id: VehicleId, now: int)
    returns (vehicleData: seq<Option<real>>, lastKnownLevel: Option<real>)
    ensures lastKnownLevel == LatestLevel(todayData, id, PriorLevel(energyData, id, now))
    ensures vehicleData == VehicleLevels(todayData, id, PriorLevel(energyData, id, now))
  {
    lastKnownLevel := FindPriorLevel(energyData, id, now);
    ghost var prior := lastKnownLevel;
    vehicleData := [];
    var k := 0;
    while k < |todayData|
      invariant k <= |todayData|
      invariant |vehicleData| == k
      invariant forall j :: 0 <= j < k ==> vehicleData[j] == PlottedLevel(todayData[j], id)
      invariant lastKnownLevel == LatestLevel(todayData[..k], id, prior)
    {
      var point := todayData[k];
      LastIndexExtend(todayData, KnownLevel(id), k);
      if point.VehicleOf(id).isAvailable && point.VehicleOf(id).battery.Some? {
        lastKnownLevel := point.VehicleOf(id).battery;
        vehicleData := vehicleData + [lastKnownLevel];
      } else if lastKnownLevel.Some? {
        vehicleData := vehicleData + [None];
      } else {
        vehicleData := vehicleData + [None];
      }
      k := k + 1;
    }
    assert todayData[..k] == todayData;

    if |vehicleData| > 0 && lastKnownLevel.Some? {
      vehicleData := vehicleData[|vehicleData| - 1 := lastKnownLevel];
    }
  }

  /** Every entry but the last is the sample's own level or a gap; the last
      one, when any level is known, is the most recent known level: the last
      usable sample of today, else the last usable one before today. */
  lemma VehicleLevelsSpec(energyData: seq<Sample>, todayData: seq<Sample>, id: VehicleId, now: int)
    requires |todayData| > 0
    ensures var r := VehicleLevels(todayData, id, PriorLevel(energyData, id, now));
      var n := |todayData|;
      (forall i :: 0 <= i < n - 1 ==>
        (r[i].Some? ==> todayData[i].VehicleOf(id).isAvailable && r[i] == todayData[i].VehicleOf(id).battery)) &&
      ((exists i :: 0 <= i < n && KnownLevel(id)(todayData[i])) ==>
        exists i :: 0 <= i < n && KnownLevel(id)(todayData[i]) && r[n - 1] == todayData[i].VehicleOf(id).battery &&
          forall j :: i < j < n ==> !KnownLevel(id)(todayData[j])) &&
      ((forall i :: 0 <= i < n ==> !KnownLevel(id)(todayData[i])) ==>
        r[n - 1] == PriorLevel(energyData, id, now))
  {
    var r := VehicleLevels(todayData, id, PriorLevel(energyData, id, now));
    var n := |todayData|;
    match LastIndex(todayData, KnownLevel(id))
    case None => {
      if PriorLevel(energyData, id, now).None? {
        assert r[n - 1] == PlottedLevel(todayData[n - 1], id);
      }
    }
    case Some(l) => {
      assert r[n - 1] == todayData[l].VehicleOf(id).battery;
    }
  }
}
