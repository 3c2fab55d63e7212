/** The smart refresh of main.js: after each load, the next fetch is timed
    for just after the feed's next quarter-hour update, and at most one such
    timeout is pending at a time. Timers are modelled by their ids and
    delays; what a timeout does when it fires is not modelled. */
module SmartRefresh {
  import opened Telemetry
  import opened Clock
  import QuarterHourForecast

  /** Wait after the quarter-hour mark in the normal case (ms). */
  const BUFFER_MS: int := 25000
  /** Wait after the later mark in the fallback case (ms). */
  const FALLBACK_BUFFER_MS: int := 15000

  /** The next update: the last update's minute rounded up to a quarter,
      seconds and milliseconds zeroed. */
  function NextUpdateTime(lastUpdate: int): int {
    SetMinutes(lastUpdate, CeilQuarter(MinuteOf(lastUpdate)))
  }

  /** The next update is a quarter-hour mark less than 15 minutes after the
      start of the last update's minute; it is the last update itself
      exactly when that is already on a quarter hour. It is the quarter-hour
      forecast's first step too. */
  lemma NextUpdateTimeSpec(lastUpdate: int)
    ensures NextUpdateTime(lastUpdate) == QuarterHourForecast.FirstStep(lastUpdate)
    ensures NextUpdateTime(lastUpdate) % QUARTER == 0
    ensures lastUpdate - lastUpdate % MINUTE <= NextUpdateTime(lastUpdate) < lastUpdate - lastUpdate % MINUTE + QUARTER
    ensures NextUpdateTime(lastUpdate) == lastUpdate <==> lastUpdate % QUARTER == 0
  {
    QuarterHourForecast.FirstStepSpec(lastUpdate);
  }

  /** The delay of the smart-refresh timeout: 25 s after the next update if
      that is still ahead; otherwise 15 s after the mark 15 minutes later,
      with no further check. */
  function RefreshDelay(lastUpdate: int, now: int): (delay: int)
    ensures NextUpdateTime(lastUpdate) + BUFFER_MS > now ==>
      delay > 0 && now + delay == NextUpdateTime(lastUpdate) + BUFFER_MS
    ensures NextUpdateTime(lastUpdate) + BUFFER_MS <= now ==>
      now + delay == NextUpdateTime(lastUpdate) + QUARTER + FALLBACK_BUFFER_MS &&
      delay <= QUARTER + FALLBACK_BUFFER_MS - BUFFER_MS
  {
    var nextUpdateTime := NextUpdateTime(lastUpdate);
    var timeUntilRefresh := nextUpdateTime + BUFFER_MS - now;
    if timeUntilRefresh <= 0 then
      nextUpdateTime + QUARTER + FALLBACK_BUFFER_MS - now
    else
      timeUntilRefresh
  }

  /** The fallback delay can be zero or negative: once the data is more than
      about 15 minutes old the timeout fires at once. */
  lemma StaleDataFiresAtOnce(lastUpdate: int, now: int)
    requires now >= NextUpdateTime(lastUpdate) + QUARTER + FALLBACK_BUFFER_MS
    ensures RefreshDelay(lastUpdate, now) <= 0
  {
  }

  /** While the data is fresh (the next update is still ahead), the timeout
      fires 25 s after the next quarter-hour mark, at most 15 minutes and
      25 s from now. */
  lemma FreshDataWaitsForNextQuarter(lastUpdate: int, now: int)
    requires lastUpdate <= now < NextUpdateTime(lastUpdate)
    ensures 0 < RefreshDelay(lastUpdate, now) <= QUARTER + BUFFER_MS
  {
    NextUpdateTimeSpec(lastUpdate);
  }

  /** A pending timeout: its id and delay in ms. */
  datatype Timeout = Timeout(id: nat, delay: int)

  /** The `smartRefreshTimeout` global and the timer ids handed out. */
  class RefreshScheduler {
    var pending: Option<Timeout>
    var cleared: seq<nat>
    var nextId: nat

    /** Ids are fresh: the pending timeout was never cleared, and every id
        used is below `nextId`. */
    predicate Valid()
      reads this
    {
      (pending.Some? ==> pending.value.id < nextId && pending.value.id !in cleared) &&
      forall i :: 0 <= i < |cleared| ==> cleared[i] < nextId
    }

    /** Browser timer ids start at 1, so the truthiness test on the pending
        id sees every pending timeout. */
    constructor()
      ensures Valid() && pending == None && cleared == [] && nextId == 1
    {
      pending := None;
      cleared := [];
      nextId := 1;
    }

    /** scheduleSmartRefresh: the pending timeout, if any, is cleared first;
        without a last data timestamp nothing is scheduled, otherwise one new
        timeout with the refresh delay. */
    method ScheduleSmartRefresh(lastDataTimestamp: Option<int>, now: int)
      requires Valid()
      modifies this
      ensures Valid()
      ensures cleared == old(cleared) + (if old(pending).Some? then [old(pending).value.id] else [])
      ensures lastDataTimestamp.None? ==> pending == None && nextId == old(nextId)
      ensures lastDataTimestamp.Some? ==>
        pending == Some(Timeout(old(nextId), RefreshDelay(lastDataTimestamp.value, now))) &&
        nextId == old(nextId) + 1
    {
      if pending.Some? {
        cleared := cleared + [pending.value.id];
        pending := None;
      }

      if lastDataTimestamp.None? {
        return;
      }

      var lastUpdate := lastDataTimestamp.value;
      var nextUpdateTime := SetMinutes(lastUpdate, CeilQuarter(MinuteOf(lastUpdate)));
      var refreshTime := nextUpdateTime + BUFFER_MS;
      var timeUntilRefresh := refreshTime - now;

      if timeUntilRefresh <= 0 {
        nextUpdateTime := nextUpdateTime + QUARTER;
        var newRefreshTime := nextUpdateTime + FALLBACK_BUFFER_MS;
        var newTimeUntilRefresh := newRefreshTime - now;
        pending := Some(Timeout(nextId, newTimeUntilRefresh));
      } else {
        pending := Some(Timeout(nextId, timeUntilRefresh));
      }
      nextId := nextId + 1;
    }
  }
}
