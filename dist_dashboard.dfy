/**
  The page driven by static/dist/app.js: the `stats` record, the pause flag and
  the `system-events-log` container, which every poll replaces by the newest
  20 backend lines.
 */
module DistDashboard {
  import opened Text
  import opened Wrappers
  import opened EventClassifier
  import opened LogView
  import opened DashboardStats

  /** The container shows one detailed entry per line of `window`, in window order. */
  predicate ShowsDetailed(entries: seq<Entry>, window: seq<string>, nowMs: nat) {
    |entries| == |window| && forall i :: 0 <= i < |window| ==> entries[i] == CreateDetailedLogEntry(window[i], nowMs)
  }

  class Page {
    var paused: bool
    const stats: Statistics
    const log: LogContainer

    constructor(nowMs: int)
      ensures !paused && fresh(stats) && fresh(log)
      ensures stats.startTime == nowMs && stats.Zeroed() && log.entries == []
      ensures Valid()
    {
      paused := false;
      stats := new Statistics(nowMs);
      log := new LogContainer();
    }

    predicate Valid()
      reads this, stats
    {
      stats.Valid()
    }

    /** `addSystemEventLog(message, type)`: the entry goes in front and the container is trimmed to 50. */
    method AddSystemEventLog(message: string, level: Level, clock: string)
      modifies log
      ensures log.entries == Cap([SystemEntry(message, level, clock)] + old(log.entries))
    {
      log.Prepend(SystemEntry(message, level, clock));
    }

    /**
      `triggerSensor(sensorName)`: the counters move before the request; a
      decoded reply adds its response time; a failed reply or a thrown error is
      logged.  (A successful reply only schedules a later poll.)
     */
    method TriggerSensor(sensorName: string, startMs: int, outcome: Outcome, clock: string)
      requires Valid()
      modifies stats, log
      ensures Valid()
      ensures stats.totalInterrupts == old(stats.totalInterrupts) + 1
      ensures stats.totalEvents == old(stats.totalEvents) + 1
      ensures stats.eventTimestamps == old(stats.eventTimestamps) + [startMs]
      ensures stats.brakeCounts == old(stats.brakeCounts) + (if sensorName == "Brake" then 1 else 0)
      ensures stats.collisionCounts == old(stats.collisionCounts) + (if sensorName == "Collision" then 1 else 0)
      ensures stats.speedCounts == old(stats.speedCounts) + (if sensorName == "Speed" then 1 else 0)
      ensures stats.responseTimes == old(stats.responseTimes) + (if outcome.Replied? then [outcome.endMs - startMs] else [])
      ensures stats.startTime == old(stats.startTime)
      ensures old(stats.Balanced()) && sensorName in {"Brake", "Collision", "Speed"} ==> stats.Balanced()
      ensures outcome.Thrown? ==>
        log.entries == Cap([SystemEntry("✗ Error: " + outcome.message, Error, clock)] + old(log.entries))
      ensures outcome.Replied? && !outcome.success ==>
        log.entries == Cap([SystemEntry("✗ Failed to trigger " + sensorName, Error, clock)] + old(log.entries))
      ensures outcome.Replied? && outcome.success ==> log.entries == old(log.entries)
    {
      stats.RecordTrigger(sensorName, startMs, ResponseOf(startMs, outcome));
      match outcome
      case Thrown(message) =>
        AddSystemEventLog("✗ Error: " + message, Error, clock);
      case Replied(success, _) =>
        if !success {
          AddSystemEventLog("✗ Failed to trigger " + sensorName, Error, clock);
        }
    }

    /**
      `fetchAndDisplayEventLogs()` given the backend lines: a non-empty answer
      replaces the whole container by the newest 20 lines, newest first; an
      empty one leaves it alone.
     */
    method FetchAndDisplayEventLogs(events: seq<string>, nowMs: nat)
      modifies log
      ensures events == [] ==> log.entries == old(log.entries)
      ensures events != [] ==> ShowsDetailed(log.entries, RecentWindow(events), nowMs)
    {
      if |events| > 0 {
        log.Clear();
        log.AppendEach(RecentWindow(events), text => CreateDetailedLogEntry(text, nowMs));
      }
    }

    /** The one-second timer: polls only while not paused. */
    method PollTick(events: seq<string>, nowMs: nat)
      modifies log
      ensures paused ==> log.entries == old(log.entries)
      ensures !paused && events != [] ==> ShowsDetailed(log.entries, RecentWindow(events), nowMs)
    {
      if !paused {
        FetchAndDisplayEventLogs(events, nowMs);
      }
    }

    /** `manualRefresh()`: polls even while paused. */
    method ManualRefresh(events: seq<string>, nowMs: nat)
      modifies log
      ensures events != [] ==> ShowsDetailed(log.entries, RecentWindow(events), nowMs)
      ensures events == [] ==> log.entries == old(log.entries)
    {
      FetchAndDisplayEventLogs(events, nowMs);
    }

    /** `togglePauseSystem()`: flips the flag and logs nothing. */
    method TogglePauseSystem()
      modifies this
      ensures paused == !old(paused)
    {
      paused := !paused;
    }

    /**
      `resetDashboard()`: after the confirmation, and only if the clear-log
      request does not throw, the statistics restart at `nowMs` and the
      container is emptied; otherwise nothing changes.
     */
    method ResetDashboard(confirmed: bool, requestThrew: bool, nowMs: int)
      requires Valid()
      modifies stats, log
      ensures Valid()
      ensures confirmed && !requestThrew ==> stats.Zeroed() && stats.startTime == nowMs && log.entries == []
      ensures !confirmed || requestThrew ==> unchanged(stats) && log.entries == old(log.entries)
    {
      if confirmed && !requestThrew {
        stats.Reset(nowMs);
        log.Clear();
      }
    }

    /** The clear button: once the request returns, the container is emptied (the refresh it schedules is a later poll). */
    method ClearLogButton(requestThrew: bool)
      modifies log
      ensures !requestThrew ==> log.entries == []
      ensures requestThrew ==> log.entries == old(log.entries)
    {
      if !requestThrew {
        log.Clear();
      }
    }

    /** `updateCPULoad()` at time `nowMs`. */
    function CpuLoadAt(nowMs: int): (load: nat)
      reads stats
      ensures load <= 100
      ensures stats.totalEvents == 0 ==> load == 0
    {
      CpuLoad(stats.totalEvents, nowMs - stats.startTime)
    }
  }
}
