/** The indoor/outdoor temperature crossing alert of temperature-alerts.js:
    it remembers the last valid reading and which side was warmer, raises an
    alert when the outdoor temperature moves directly from below to above the
    indoor one or back, and keeps a short newest-first history that mutes
    repeats of the same direction for 15 minutes. */
module TemperatureAlerts {
  import opened Telemetry

  const MAX_HISTORY_SIZE: nat := 10
  /** 15 minutes in milliseconds. */
  const COOLDOWN_PERIOD: int := 900000

  /** Which side is warmer. */
  datatype CrossingState = OutdoorHigher | IndoorHigher | Equal

  /** The two alerts: outdoor crossed ABOVE indoor (a warning) or BELOW it
      (information). The alert text names the two temperatures and contains
      "crossed ABOVE" exactly for the first. */
  datatype Crossing = CrossedAbove | CrossedBelow

  datatype AlertType = Warning | Info

  function AlertTypeOf(c: Crossing): AlertType {
    match c
    case CrossedAbove => Warning
    case CrossedBelow => Info
  }

  /** An alert remembered for the cooldown check. */
  datatype HistoryEntry = HistoryEntry(crossing: Crossing, timestamp: int)

  /** A reading is used only when both temperatures are truthy numbers, the
      indoor one above 0 and the outdoor one above -50. An outdoor reading of
      exactly 0 is falsy and is therefore skipped too. */
  predicate ValidReading(indoorTemp: Option<real>, outdoorTemp: Option<real>) {
    indoorTemp.Some? && outdoorTemp.Some? &&
    indoorTemp.value != 0.0 && outdoorTemp.value != 0.0 &&
    indoorTemp.value > 0.0 && outdoorTemp.value > -50.0
  }

  function Classify(indoorTemp: real, outdoorTemp: real): (s: CrossingState)
    ensures s == OutdoorHigher <==> outdoorTemp > indoorTemp
    ensures s == IndoorHigher <==> indoorTemp > outdoorTemp
    ensures s == Equal <==> indoorTemp == outdoorTemp
  {
    if outdoorTemp > indoorTemp then OutdoorHigher
    else if indoorTemp > outdoorTemp then IndoorHigher
    else Equal
  }

  /** The crossing between the last state and the current one, if any. */
  function DetectCrossing(lastState: CrossingState, currentState: CrossingState): (c: Option<Crossing>)
    ensures c == Some(CrossedAbove) <==> lastState == IndoorHigher && currentState == OutdoorHigher
    ensures c == Some(CrossedBelow) <==> lastState == OutdoorHigher && currentState == IndoorHigher
    ensures lastState == Equal || currentState == Equal ==> c == None
  {
    if lastState != currentState && currentState != Equal then
      if lastState == IndoorHigher && currentState == OutdoorHigher then Some(CrossedAbove)
      else if lastState == OutdoorHigher && currentState == IndoorHigher then Some(CrossedBelow)
      else None
    else None
  }

  /** shouldShowAlert: no alert of the same direction in the history is less
      than the cooldown old. */
  predicate ShouldShowAlert(history: seq<HistoryEntry>, crossing: Crossing, currentTime: int) {
    !exists i :: 0 <= i < |history| &&
      history[i].crossing == crossing && currentTime - history[i].timestamp < COOLDOWN_PERIOD
  }

  /** addToHistory: the new entry goes first; only the newest ten are kept. */
  function AddToHistory(history: seq<HistoryEntry>, entry: HistoryEntry): (r: seq<HistoryEntry>)
    ensures |r| == if |history| + 1 > MAX_HISTORY_SIZE then MAX_HISTORY_SIZE else |history| + 1
    ensures r[0] == entry
    ensures forall i :: 1 <= i < |r| ==> r[i] == history[i - 1]
  {
    var h := [entry] + history;
    if |h| > MAX_HISTORY_SIZE then h[..MAX_HISTORY_SIZE] else h
  }

  /** Once an alert is shown, the same direction is muted for the whole
      cooldown, and the other direction is not affected by it. */
  lemma ShownAlertMutesRepeats(history: seq<HistoryEntry>, crossing: Crossing, shownAt: int, currentTime: int)
    requires shownAt <= currentTime < shownAt + COOLDOWN_PERIOD
    ensures !ShouldShowAlert(AddToHistory(history, HistoryEntry(crossing, shownAt)), crossing, currentTime)
    ensures var other := if crossing == CrossedAbove then CrossedBelow else CrossedAbove;
      ShouldShowAlert(history, other, currentTime) ==>
      ShouldShowAlert(AddToHistory(history, HistoryEntry(crossing, shownAt)), other, currentTime)
  {
    var r := AddToHistory(history, HistoryEntry(crossing, shownAt));
    assert r[0].crossing == crossing && currentTime - r[0].timestamp < COOLDOWN_PERIOD;
  }

  /** An entry stops muting once the cooldown has passed. */
  lemma CooldownExpires(entry: HistoryEntry, currentTime: int)
    requires currentTime >= entry.timestamp + COOLDOWN_PERIOD
    ensures ShouldShowAlert([entry], entry.crossing, currentTime)
  {
  }

  class TemperatureCrossingAlert {
    var lastCrossingState: Option<CrossingState>
    var lastIndoorTemp: Option<real>
    var lastOutdoorTemp: Option<real>
    var alertHistory: seq<HistoryEntry>

    /** The history is bounded, and the three remembered values are set
        together. */
    predicate Valid()
      reads this
    {
      |alertHistory| <= MAX_HISTORY_SIZE &&
      lastIndoorTemp.Some? == lastCrossingState.Some? &&
      lastOutdoorTemp.Some? == lastCrossingState.Some?
    }

    constructor()
      ensures Valid()
      ensures lastCrossingState == None && lastIndoorTemp == None && lastOutdoorTemp == None
      ensures alertHistory == []
    {
      lastCrossingState := None;
      lastIndoorTemp := None;
      lastOutdoorTemp := None;
      alertHistory := [];
    }

    /** The alert a valid reading raises: a detected crossing that the
        history does not mute. */
    function PendingAlert(indoorTemp: real, outdoorTemp: real, currentTime: int): Option<Crossing>
      reads this
    {
      if lastIndoorTemp.Some? && lastOutdoorTemp.Some? && lastCrossingState.Some? then
        var c := DetectCrossing(lastCrossingState.value, Classify(indoorTemp, outdoorTemp));
        if c.Some? && ShouldShowAlert(alertHistory, c.value, currentTime) then c else None
      else None
    }

    /** addToHistory. */
    method AddEntry(crossing: Crossing, timestamp: int)
      modifies this
      ensures alertHistory == AddToHistory(old(alertHistory), HistoryEntry(crossing, timestamp))
      ensures lastCrossingState == old(lastCrossingState)
      ensures lastIndoorTemp == old(lastIndoorTemp) && lastOutdoorTemp == old(lastOutdoorTemp)
    {
      alertHistory := [HistoryEntry(crossing, timestamp)] + alertHistory;
      if |alertHistory| > MAX_HISTORY_SIZE {
        alertHistory := alertHistory[..MAX_HISTORY_SIZE];
      }
    }

    /** checkTemperatureCrossing: returns the alert shown, if any. An invalid
        reading changes nothing; a valid one is remembered, and a shown alert
        is added to the history. */
    method CheckTemperatureCrossing(indoorTemp: Option<real>, outdoorTemp: Option<real>, currentTime: int)
      returns (shown: Option<Crossing>)
      requires Valid()
      modifies this
      ensures Valid()
      ensures !ValidReading(indoorTemp, outdoorTemp) ==>
        shown == None && lastCrossingState == old(lastCrossingState) &&
        lastIndoorTemp == old(lastIndoorTemp) && lastOutdoorTemp == old(lastOutdoorTemp) &&
        alertHistory == old(alertHistory)
      ensures ValidReading(indoorTemp, outdoorTemp) ==>
        shown == old(PendingAlert(indoorTemp.value, outdoorTemp.value, currentTime)) &&
        lastIndoorTemp == indoorTemp && lastOutdoorTemp == outdoorTemp &&
        lastCrossingState == Some(Classify(indoorTemp.value, outdoorTemp.value)) &&
        alertHistory == (if shown.Some?
          then AddToHistory(old(alertHistory), HistoryEntry(shown.value, currentTime))
          else old(alertHistory))
    {
      if !ValidReading(indoorTemp, outdoorTemp) {
        return None;
      }
      var indoor := indoorTemp.value;
      var outdoor := outdoorTemp.value;
      var currentState := Classify(indoor, outdoor);
      shown := None;

      if lastIndoorTemp.Some? && lastOutdoorTemp.Some? && lastCrossingState.Some? {
        var crossing := DetectCrossing(lastCrossingState.value, currentState);
        if crossing.Some? {
          if ShouldShowAlert(alertHistory, crossing.value, currentTime) {
            shown := crossing;
            AddEntry(crossing.value, currentTime);
          }
        }
      }

      lastIndoorTemp := indoorTemp;
      lastOutdoorTemp := outdoorTemp;
      lastCrossingState := Some(currentState);
    }
  }

  /** The first valid reading never alerts, and a reading after an equal one
      never alerts, so a change through 'equal' goes unannounced. */
  lemma NoAlertWithoutDirectTransition(a: TemperatureCrossingAlert, indoorTemp: real, outdoorTemp: real, currentTime: int)
    requires a.lastCrossingState == None || a.lastCrossingState == Some(Equal)
    ensures a.PendingAlert(indoorTemp, outdoorTemp, currentTime) == None
  {
  }
}
