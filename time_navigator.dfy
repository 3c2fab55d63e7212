/** The time navigator of time-navigator.js: live mode, or a selected
    historical time that the step buttons move through the data's range, and
    the data views that depend on it. */
module TimeNavigation {
  import opened Telemetry
  import opened Clock
  import opened Seqs

  /** Callbacks are compared by identity only. */
  type CallbackId = nat

  /** The samples at or before `t`. */
  function AtOrBefore(t: int): Sample -> bool {
    (point: Sample) => point.timestamp <= t
  }

  /** The samples from the start of `t`'s day up to `t`. */
  function SameDayUpTo(t: int): Sample -> bool {
    (point: Sample) => point.timestamp >= StartOfDay(t) && point.timestamp <= t
  }

  /** Where the navigator stands: live, or at a selected time. */
  datatype Position = Live | At(time: int)

  /** getLatestDataTime: the last sample's time, `now` without data. */
  function LatestDataTime(energyData: seq<Sample>, now: int): int {
    if |energyData| == 0 then now else energyData[|energyData| - 1].timestamp
  }

  /** getEarliestDataTime: the first sample's time, `now` without data. */
  function EarliestDataTime(energyData: seq<Sample>, now: int): int {
    if |energyData| == 0 then now else energyData[0].timestamp
  }

  /** The effect of stepTime on the position. A step from live mode starts
      at the latest time; a step beyond it returns to live; a step before the
      earliest stops there. */
  function Step(pos: Position, minutes: int, earliest: int, latest: int): Position {
    var from := if pos.Live? then latest else pos.time;
    var newTime := from + minutes * MINUTE;
    if newTime > latest then Live
    else if newTime < earliest then At(earliest)
    else At(newTime)
  }

  /** After any step, a selected time lies in [earliest, latest] when that
      range is non-empty. */
  lemma StepStaysInRange(pos: Position, minutes: int, earliest: int, latest: int)
    requires earliest <= latest
    ensures Step(pos, minutes, earliest, latest).At? ==>
      earliest <= Step(pos, minutes, earliest, latest).time <= latest
  {
  }

  /** From live mode a forward step stays live, a zero step selects the
      latest time, and a backward step selects `minutes` before the latest,
      stopped at the earliest. */
  lemma StepFromLive(minutes: int, earliest: int, latest: int)
    requires earliest <= latest
    ensures minutes > 0 ==> Step(Live, minutes, earliest, latest) == Live
    ensures minutes == 0 ==> Step(Live, minutes, earliest, latest) == At(latest)
    ensures minutes < 0 ==> (Step(Live, minutes, earliest, latest) ==
      At(if latest + minutes * MINUTE < earliest then earliest else latest + minutes * MINUTE))
  {
  }

  /** updateButtonStates: in live mode only the back buttons work; at a
      selected time, back works above the earliest time and forward below the
      latest. */
  predicate CanGoBack(pos: Position, earliest: int) {
    pos.Live? || pos.time > earliest
  }

  predicate CanGoForward(pos: Position, latest: int) {
    pos.At? && pos.time < latest
  }

  /** A disabled button does nothing: a back step at the earliest time keeps
      it, and after any step the forward button is disabled exactly at the
      latest time or in live mode. */
  lemma DisabledButtons(pos: Position, minutes: int, earliest: int, latest: int)
    requires earliest <= latest
    requires pos.At? && earliest <= pos.time <= latest
    ensures !CanGoBack(pos, earliest) && minutes <= 0 ==> Step(pos, minutes, earliest, latest) == pos
    ensures var next := Step(pos, minutes, earliest, latest);
      !CanGoForward(next, latest) <==> next.Live? || next.time == latest
  {
    StepStaysInRange(pos, minutes, earliest, latest);
  }

  class TimeNavigator {
    var selectedTime: Option<int>
    var isLiveMode: bool
    var observers: seq<CallbackId>

    /** Live mode is exactly the absence of a selected time. */
    predicate Valid()
      reads this
    {
      isLiveMode <==> selectedTime.None?
    }

    function Position(): Position
      reads this
      requires Valid()
    {
      if isLiveMode then Live else At(selectedTime.value)
    }

    constructor()
      ensures Valid() && isLiveMode && selectedTime == None && observers == []
    {
      selectedTime := None;
      isLiveMode := true;
      observers := [];
    }

    /** stepTime: move by `minutes`, given the data and the clock's `now`. */
    method StepTime(minutes: int, energyData: seq<Sample>, now: int)
      requires Valid()
      modifies this
      ensures Valid()
      ensures Position() == Step(old(Position()), minutes,
        EarliestDataTime(energyData, now), LatestDataTime(energyData, now))
      ensures observers == old(observers)
    {
      if isLiveMode {
        selectedTime := Some(LatestDataTime(energyData, now));
        isLiveMode := false;
      }
      if selectedTime.Some? {
        var newTime := selectedTime.value + minutes * MINUTE;
        var latestTime := LatestDataTime(energyData, now);
        if newTime > latestTime {
          GoToLiveMode();
          return;
        }
        var earliestTime := EarliestDataTime(energyData, now);
        if newTime < earliestTime {
          selectedTime := Some(earliestTime);
        } else {
          selectedTime := Some(newTime);
        }
      }
    }

    /** goToLiveMode. */
    method GoToLiveMode()
      modifies this
      ensures Valid() && Position() == Live
      ensures observers == old(observers)
    {
      selectedTime := None;
      isLiveMode := true;
    }

    /** getCurrentTime: the clock in live mode, else the selected time. */
    function GetCurrentTime(now: int): (t: int)
      reads this
      requires Valid()
      ensures isLiveMode ==> t == now
      ensures !isLiveMode ==> Some(t) == selectedTime
    {
      if isLiveMode then now else selectedTime.value
    }

    /** getFilteredData: all data in live mode, otherwise the samples at or
        before the selected time. */
    function GetFilteredData(energyData: seq<Sample>): (r: seq<Sample>)
      reads this
      requires Valid()
      ensures isLiveMode ==> r == energyData
      ensures !isLiveMode ==>
        (forall i :: 0 <= i < |r| ==> r[i].timestamp <= selectedTime.value && r[i] in energyData) &&
        (forall x :: x in energyData && x.timestamp <= selectedTime.value ==> x in r)
    {
      if |energyData| == 0 then []
      else if isLiveMode then energyData
      else Filter(energyData, AtOrBefore(selectedTime.value))
    }

    /** On ascending data the historical view is a prefix of the data. */
    lemma FilteredDataIsPrefix(energyData: seq<Sample>, k: nat)
      requires Valid() && !isLiveMode && Ascending(energyData)
      requires k <= |energyData|
      requires forall i :: 0 <= i < k ==> energyData[i].timestamp <= selectedTime.value
      requires k < |energyData| ==> energyData[k].timestamp > selectedTime.value
      ensures GetFilteredData(energyData) == energyData[..k]
    {
      if |energyData| > 0 {
        FilterPrefix(energyData, AtOrBefore(selectedTime.value), k);
      }
    }

    /** getLatestDataPoint: the last sample of the filtered view. */
    function GetLatestDataPoint(energyData: seq<Sample>): (r: Option<Sample>)
      reads this
      requires Valid()
      ensures r.None? <==> GetFilteredData(energyData) == []
      ensures r.Some? ==> (r.value in energyData &&
        (!isLiveMode ==> r.value.timestamp <= selectedTime.value))
    {
      var filtered := GetFilteredData(energyData);
      if |filtered| > 0 then Some(filtered[|filtered| - 1]) else None
    }

    /** getTodayDataForSelectedTime: the filtered samples from the start of
        the current time's day up to the current time. */
    function GetTodayDataForSelectedTime(energyData: seq<Sample>, now: int): (r: seq<Sample>)
      reads this
      requires Valid()
    {
      Filter(GetFilteredData(energyData), SameDayUpTo(GetCurrentTime(now)))
    }

    /** The two filters amount to one: the samples of `energyData`, in order,
        whose time lies in [start of the current day, current time]. */
    lemma TodayDataWindow(energyData: seq<Sample>, now: int)
      requires Valid()
      ensures GetTodayDataForSelectedTime(energyData, now) ==
      Filter(energyData, SameDayUpTo(GetCurrentTime(now)))
    {
      if |energyData| > 0 && !isLiveMode {
        FilterNarrow(energyData, AtOrBefore(selectedTime.value), SameDayUpTo(GetCurrentTime(now)));
      }
    }

    /** subscribe: the callback is appended. */
    method Subscribe(callback: CallbackId)
      modifies this
      ensures observers == old(observers) + [callback]
      ensures selectedTime == old(selectedTime) && isLiveMode == old(isLiveMode)
    {
      observers := observers + [callback];
    }

    /** unsubscribe: every occurrence of the callback goes, the others stay in
        order. */
    method Unsubscribe(callback: CallbackId)
      modifies this
      ensures observers == Filter(old(observers), (obs: CallbackId) => obs != callback)
      ensures callback !in observers
      ensures forall c :: c in old(observers) && c != callback ==> c in observers
      ensures selectedTime == old(selectedTime) && isLiveMode == old(isLiveMode)
    {
      observers := Filter(observers, (obs: CallbackId) => obs != callback);
    }
  }
}
