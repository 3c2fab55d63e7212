/** utils.js: its own copies of the age label, the kWh conversion, the
    last-available search and the today filter (the same names as in
    indexScript.js; which copy a page ends up with depends on script load
    order), and the timestamp choice of updateVehicleStaleInfo. */
module Utils {
  import opened Telemetry
  import opened Clock
  import opened Numbers
  import opened Seqs
  import IndexScript

  /** formatTimeDifference (utils.js). */
  function FormatTimeDifference(date1: int, date2: int): (s: string)
    ensures var m := IndexScript.ElapsedMinutes(date1, date2);
      (m < 60 ==> s == NatToString(m) + "m ago") &&
      (m >= 60 && m % 60 == 0 ==> s == NatToString(m / 60) + "h ago") &&
      (m >= 60 && m % 60 != 0 ==>
        1 <= m % 60 <= 59 &&
        s == NatToString(m / 60) + ("h " + (NatToString(m % 60) + "m ago")))
  {
    var diffMs := if date2 - date1 >= 0 then date2 - date1 else -(date2 - date1);
    var diffMinutes := diffMs / MINUTE;
    var diffHours := diffMinutes / 60;
    var remainingMinutes := diffMinutes % 60;
    if diffHours > 0 then
      if remainingMinutes > 0
      then NatToString(diffHours) + ("h " + (NatToString(remainingMinutes) + "m ago"))
      else NatToString(diffHours) + "h ago"
    else NatToString(diffMinutes) + "m ago"
  }

  /** The two copies produce the same label, and it reads back as the whole
      minutes elapsed in either argument order. */
  lemma FormatTimeDifferenceAgrees(date1: int, date2: int)
    ensures FormatTimeDifference(date1, date2) == IndexScript.FormatTimeDifference(date1, date2)
    ensures FormatTimeDifference(date1, date2) == FormatTimeDifference(date2, date1)
    ensures ParseAge(FormatTimeDifference(date1, date2)) == Some(IndexScript.ElapsedMinutes(date1, date2))
  {
    IndexScript.FormatTimeDifferenceSymmetric(date1, date2);
    IndexScript.FormatTimeDifferenceRoundTrip(date1, date2);
    assert IndexScript.ElapsedMinutes(date1, date2) == IndexScript.ElapsedMinutes(date2, date1);
  }

  /** calculateKwh (utils.js): `percentage / 100 * capacity` to one decimal. */
  function CalculateKwh(percentage: real, capacity: real): (r: real)
    ensures -0.05 <= r - percentage / 100.0 * capacity <= 0.05
    ensures (r * 10.0).Floor as real == r * 10.0
  {
    Round1(percentage / 100.0 * capacity)
  }

  /** findLastVehicleData (utils.js): the same backward scan. */
  method FindLastVehicleData(energyData: seq<Sample>, id: VehicleId, now: int)
    returns (r: Option<LastData>)
    ensures r.None? <==> LastAvailableIndex(energyData, id).None?
    ensures r.Some? ==> (LastAvailableIndex(energyData, id).Some? &&
      var i := LastAvailableIndex(energyData, id).value;
      r.value == LastData(energyData[i], now - energyData[i].timestamp))
  {
    var i := |energyData| - 1;
    while i >= 0
      invariant -1 <= i < |energyData|
      invariant forall j :: i < j < |energyData| ==> !energyData[j].VehicleOf(id).isAvailable
    {
      var point := energyData[i];
      if point.VehicleOf(id).isAvailable {
        return Some(LastData(point, now - point.timestamp));
      }
      i := i - 1;
    }
    return None;
  }

  /** getTodayData (utils.js): the samples at or after local midnight. */
  function GetTodayData(energyData: seq<Sample>, now: int): (r: seq<Sample>)
    ensures forall i :: 0 <= i < |r| ==> r[i].timestamp >= StartOfDay(now) && r[i] in energyData
    ensures forall x :: x in energyData && x.timestamp >= StartOfDay(now) ==> x in r
  {
    Filter(energyData, (point: Sample) => point.timestamp >= StartOfDay(now))
  }

  /** Both copies keep the same samples; on ascending data that is the
      suffix from the first sample at or after midnight. */
  lemma GetTodayDataAgrees(energyData: seq<Sample>, now: int)
    requires Ascending(energyData)
    ensures GetTodayData(energyData, now) == IndexScript.GetTodayData(energyData, now)
    ensures GetTodayData(energyData, now) ==
      energyData[IndexScript.FirstAtOrAfter(energyData, StartOfDay(now))..]
  {
    IndexScript.GetTodayDataSuffix(energyData, now);
  }

  /** The timestamp updateVehicleStaleInfo measures the age from: the latest
      data timestamp while the vehicle is available in `latest`, otherwise
      that of the last sample in which it was available. */
  function StaleTimestamp(energyData: seq<Sample>, latest: Sample, id: VehicleId,
                          lastDataTimestamp: Option<int>): (t: Option<int>)
    ensures latest.VehicleOf(id).isAvailable ==> t == lastDataTimestamp
    ensures !latest.VehicleOf(id).isAvailable ==>
      (t.None? <==> forall j :: 0 <= j < |energyData| ==> !energyData[j].VehicleOf(id).isAvailable)
    ensures !latest.VehicleOf(id).isAvailable && t.Some? ==>
      exists i :: 0 <= i < |energyData| && energyData[i].VehicleOf(id).isAvailable &&
        t.value == energyData[i].timestamp &&
        forall j :: i < j < |energyData| ==> !energyData[j].VehicleOf(id).isAvailable
  {
    if latest.VehicleOf(id).isAvailable then lastDataTimestamp
    else match LastAvailableIndex(energyData, id)
      case None => None
      case Some(i) => Some(energyData[i].timestamp)
  }

  /** updateVehicleStaleInfo: the new text of the stale-data label, or None
      when the label is left as it was. */
  method UpdateVehicleStaleInfo(energyData: seq<Sample>, latest: Sample, id: VehicleId,
                                lastDataTimestamp: Option<int>, currentTime: int)
    returns (text: Option<string>)
    ensures text.None? <==> StaleTimestamp(energyData, latest, id, lastDataTimestamp).None?
    ensures text.Some? ==>
      text.value == FormatTimeDifference(StaleTimestamp(energyData, latest, id, lastDataTimestamp).value, currentTime)
  {
    var dataTimestamp: Option<int> := None;
    if latest.VehicleOf(id).isAvailable {
      dataTimestamp := lastDataTimestamp;
    } else {
      var lastData := FindLastVehicleData(energyData, id, currentTime);
      if lastData.Some? {
        dataTimestamp := Some(lastData.value.data.timestamp);
      }
    }
    if dataTimestamp.Some? {
      text := Some(FormatTimeDifference(dataTimestamp.value, currentTime));
    } else {
      text := None;
    }
  }
}
