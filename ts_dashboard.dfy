/**
  The page driven by static/app.ts: the `stats` record, the pause flag, the
  `system-events-log` container fed only by `addSystemEventLog`, and the
  plain-text report of `exportToPPT`.
 */
module TsDashboard {
  import opened Text
  import opened Wrappers
  import opened EventClassifier
  import opened LogView
  import opened DashboardStats
  import opened SeqMath

  /** `[P<p>] Triggered <name> sensor`, logged before the request. */
  function TriggerMessage(sensor: Sensor): string {
    "[P" + NatToString(sensor.Priority()) + "] " + TriggerText(sensor)
  }

  function TriggerText(sensor: Sensor): string {
    "Triggered " + sensor.Name() + " sensor"
  }

  /** `✓ [P<p>] <name> executed successfully`, logged after a successful reply. */
  function SuccessMessage(sensor: Sensor): string {
    "✓ " + "[P" + NatToString(sensor.Priority()) + "] " + SuccessText(sensor)
  }

  function SuccessText(sensor: Sensor): string {
    sensor.Name() + " executed successfully"
  }

  /** The message and level logged once the request of `triggerSensor` has ended. */
  function ResultMessage(sensor: Sensor, outcome: Outcome): (string, Level) {
    match outcome
    case Thrown(message) => ("✗ Error: " + message, Error)
    case Replied(true, _) => (SuccessMessage(sensor), Success)
    case Replied(false, _) => ("✗ Failed to trigger " + sensor.Name(), Error)
  }

  function TriggerEntry(sensor: Sensor, clock: string): Entry {
    SystemEntry(TriggerMessage(sensor), InfoLevel, clock)
  }

  function ResultEntry(sensor: Sensor, outcome: Outcome, clock: string): Entry {
    SystemEntry(ResultMessage(sensor, outcome).0, ResultMessage(sensor, outcome).1, clock)
  }

  /** The trigger entry shows the sensor's priority as its badge and the rest of the message without the marker. */
  lemma TriggerEntryShowsPriority(sensor: Sensor, clock: string)
    ensures TriggerEntry(sensor, clock).badge == "P" + NatToString(sensor.Priority())
    ensures TriggerEntry(sensor, clock).msg == TriggerText(sensor)
  {
    var rest := TriggerText(sensor);
    EdgesNotBlank("Triggered ", sensor.Name(), " sensor");
    TrimOfTrimmed(rest);
    assert TriggerMessage(sensor) == [] + "[P" + NatToString(sensor.Priority()) + "] " + rest;
    assert [] + rest == rest;
    SystemEntryOfMarkedMessage(TriggerMessage(sensor), [], sensor.Priority(), rest, InfoLevel, clock);
  }

  lemma EdgesNotBlank(a: string, b: string, c: string)
    requires a != [] && c != [] && !IsJsSpace(a[0]) && !IsJsSpace(c[|c| - 1])
    ensures var s := a + b + c; s != [] && !IsJsSpace(s[0]) && !IsJsSpace(s[|s| - 1])
  {
  }

  /** The success entry shows the priority badge and `✓ <name> executed successfully`. */
  lemma SuccessEntryShowsPriority(sensor: Sensor, clock: string)
    ensures SystemEntry(SuccessMessage(sensor), Success, clock).badge == "P" + NatToString(sensor.Priority())
    ensures SystemEntry(SuccessMessage(sensor), Success, clock).msg == "✓ " + SuccessText(sensor)
  {
    var rest := SuccessText(sensor);
    var shown := "✓ " + rest;
    assert rest[0] == sensor.Name()[0];
    assert shown == "✓ " + sensor.Name() + " executed successfully";
    EdgesNotBlank("✓ ", sensor.Name(), " executed successfully");
    TrimOfTrimmed(shown);
    SystemEntryOfMarkedMessage(SuccessMessage(sensor), "✓ ", sensor.Priority(), rest, Success, clock);
  }

  /** `[time] msg`, the text `getRecentEvents` makes of one entry. */
  function EventLine(e: Entry): string {
    "[" + e.time + "] " + e.msg
  }

  /**
    `getRecentEvents(count)`: the first `count` entries (JavaScript `slice(0,
    count)`, so a negative count drops that many from the end) as `[time] msg`.
   */
  function GetRecentEvents(entries: seq<Entry>, count: int): (r: seq<string>)
    ensures count >= 0 ==> |r| == if count < |entries| then count else |entries|
    ensures count < 0 ==> |r| == if |entries| + count > 0 then |entries| + count else 0
    ensures forall i :: 0 <= i < |r| ==> r[i] == EventLine(entries[i])
  {
    var end := if count >= 0 then (if count < |entries| then count else |entries|)
               else (if |entries| + count > 0 then |entries| + count else 0);
    seq(end, i requires 0 <= i < end => EventLine(entries[i]))
  }

  // ---------------------------------------------------------------------------
  // exportToPPT
  // ---------------------------------------------------------------------------

  /** `${index + 1}. [${time}] ${msg}\n` for the entry at position `number - 1`. */
  function ReportItem(number: nat, e: Entry): string {
    NatToString(number) + ". [" + e.time + "] " + e.msg + "\n"
  }

  /** The report lines of `entries`, as the `forEach` accumulates them. */
  function ReportItems(entries: seq<Entry>): string {
    if entries == [] then "" else ReportItems(entries[..|entries| - 1]) + ReportItem(|entries|, entries[|entries| - 1])
  }

  /** The report lines read from the front: the entries in log order, numbered from `first`. */
  function NumberedFrom(entries: seq<Entry>, first: nat): string
    decreases |entries|
  {
    if entries == [] then "" else ReportItem(first, entries[0]) + NumberedFrom(entries[1..], first + 1)
  }

  /** The report numbers the log items 1, 2, 3, ... in log order. */
  lemma {:induction false} ReportItemsNumberedFromOne(entries: seq<Entry>)
    ensures ReportItems(entries) == NumberedFrom(entries, 1)
    decreases |entries|
  {
    if entries != [] {
      var init, last := entries[..|entries| - 1], entries[|entries| - 1];
      ReportItemsNumberedFromOne(init);
      NumberedFromSnoc(init, last, 1);
      assert init + [last] == entries;
    }
  }

  lemma {:induction false} NumberedFromSnoc(entries: seq<Entry>, e: Entry, first: nat)
    ensures NumberedFrom(entries + [e], first) == NumberedFrom(entries, first) + ReportItem(first + |entries|, e)
    decreases |entries|
  {
    if entries == [] {
      assert [] + [e] == [e];
      assert [e][1..] == [];
    } else {
      assert (entries + [e])[0] == entries[0];
      assert (entries + [e])[1..] == entries[1..] + [e];
      NumberedFromSnoc(entries[1..], e, first + 1);
    }
  }

  /** The average as the report prints it: `0 ms` with no response times, otherwise two decimals and ` ms`. */
  function AverageText(times: seq<int>): (t: string)
    ensures times == [] <==> t == "0 ms"
  {
    if times == [] then "0 ms" else ToFixed2(Sum(times), |times|) + " ms"
  }

  const Rule: string := "==========================================\n"

  class Page {
    var paused: bool
    const stats: Statistics
    const log: LogContainer

    /** The page after `DOMContentLoaded`: fresh statistics and the `System initialized` entry. */
    constructor(nowMs: int, clock: string)
      ensures !paused && fresh(stats) && fresh(log)
      ensures stats.startTime == nowMs && stats.Zeroed()
      ensures log.entries == [SystemEntry("System initialized", InfoLevel, clock)]
      ensures Valid()
    {
      paused := false;
      stats := new Statistics(nowMs);
      log := new LogContainer();
      new;
      log.Prepend(SystemEntry("System initialized", InfoLevel, clock));
    }

    /** The statistics invariant; here every trigger names a sensor of the type, so the counters always balance. */
    predicate Valid()
      reads this, stats
    {
      stats.Valid() && stats.Balanced()
    }

    /** `addSystemEventLog(message, type)`. */
    method AddSystemEventLog(message: string, level: Level, clock: string)
      modifies log
      ensures log.entries == Cap([SystemEntry(message, level, clock)] + old(log.entries))
    {
      log.Prepend(SystemEntry(message, level, clock));
    }

    /**
      `triggerSensor(sensor)`: the counters move, the trigger is logged with the
      sensor's priority, and after the request the response time (if a reply
      was decoded) and the outcome are recorded.
     */
    method TriggerSensor(sensor: Sensor, startMs: int, outcome: Outcome, clockTriggered: string, clockDone: string)
      requires Valid()
      modifies stats, log
      ensures Valid()
      ensures stats.totalInterrupts == old(stats.totalInterrupts) + 1
      ensures stats.eventTimestamps == old(stats.eventTimestamps) + [startMs]
      ensures stats.brakeCounts == old(stats.brakeCounts) + (if sensor == Brake then 1 else 0)
      ensures stats.collisionCounts == old(stats.collisionCounts) + (if sensor == Collision then 1 else 0)
      ensures stats.speedCounts == old(stats.speedCounts) + (if sensor == Speed then 1 else 0)
      ensures stats.responseTimes == old(stats.responseTimes) + (if outcome.Replied? then [outcome.endMs - startMs] else [])
      ensures stats.startTime == old(stats.startTime)
      ensures log.entries == Cap([ResultEntry(sensor, outcome, clockDone), TriggerEntry(sensor, clockTriggered)] + old(log.entries))
    {
      stats.RecordTrigger(sensor.Name(), startMs, ResponseOf(startMs, outcome));
      LogTrigger(sensor, outcome, clockTriggered, clockDone);
    }

    method LogTrigger(sensor: Sensor, outcome: Outcome, clockTriggered: string, clockDone: string)
      modifies log
      ensures log.entries == Cap([ResultEntry(sensor, outcome, clockDone), TriggerEntry(sensor, clockTriggered)] + old(log.entries))
    {
      ghost var before := log.entries;
      var first := TriggerEntry(sensor, clockTriggered);
      var second := ResultEntry(sensor, outcome, clockDone);
      log.Prepend(first);
      log.Prepend(second);
      PrependCapped(second, [first] + before);
      assert [second] + ([first] + before) == [second, first] + before;
    }

    /** The clear button: the container emptied, then `Log cleared` logged. */
    method ClearLogButton(clock: string)
      modifies log
      ensures log.entries == [SystemEntry("Log cleared", InfoLevel, clock)]
    {
      log.Clear();
      AddSystemEventLog("Log cleared", InfoLevel, clock);
    }

    /** `manualRefresh()`: logs `✓ Dashboard refreshed manually`. */
    method ManualRefresh(clock: string)
      modifies log
      ensures log.entries == Cap([SystemEntry("✓ Dashboard refreshed manually", Success, clock)] + old(log.entries))
    {
      AddSystemEventLog("✓ Dashboard refreshed manually", Success, clock);
    }

    /** `togglePauseSystem()`: flips the flag and logs the new state. */
    method TogglePauseSystem(clock: string)
      modifies this, log
      ensures paused == !old(paused)
      ensures paused ==> log.entries == Cap([SystemEntry("⏸ System paused", Warning, clock)] + old(log.entries))
      ensures !paused ==> log.entries == Cap([SystemEntry("▶ System resumed", Success, clock)] + old(log.entries))
    {
      paused := !paused;
      if paused {
        AddSystemEventLog("⏸ System paused", Warning, clock);
      } else {
        AddSystemEventLog("▶ System resumed", Success, clock);
      }
    }

    /**
      `resetDashboard()`: after the confirmation, every counter is zero, the
      clock restarts and the container holds exactly the two reset entries,
      newest first.
     */
    method ResetDashboard(confirmed: bool, nowMs: int, clockCleared: string, clockDone: string)
      requires Valid()
      modifies stats, log
      ensures Valid()
      ensures confirmed ==> stats.Zeroed() && stats.startTime == nowMs
      ensures confirmed ==> log.entries == [SystemEntry("✓ Dashboard reset successfully", Success, clockDone),
                                            SystemEntry("System reset - Dashboard cleared", InfoLevel, clockCleared)]
      ensures !confirmed ==> unchanged(stats) && log.entries == old(log.entries)
    {
      if confirmed {
        stats.Reset(nowMs);
        log.Clear();
        AddSystemEventLog("System reset - Dashboard cleared", InfoLevel, clockCleared);
        AddSystemEventLog("✓ Dashboard reset successfully", Success, clockDone);
      }
    }

    /** `interruptsPerSec` of `updateStatistics` at time `nowMs`. */
    function InterruptsPerSecond(nowMs: int): (r: Rate)
      reads stats
      ensures nowMs == stats.startTime && stats.totalInterrupts > 0 ==> r == PosInfinity
      ensures nowMs != stats.startTime ==> r.Finite?
    {
      InterruptRate(stats.totalInterrupts, nowMs - stats.startTime)
    }

    /** `calculateCPULoad()` at time `nowMs`. */
    function CalculateCpuLoad(nowMs: int): (load: nat)
      reads stats
      ensures load <= 100
      ensures stats.totalEvents == 0 ==> load == 0
    {
      CpuLoad(stats.totalEvents, nowMs - stats.startTime)
    }

    /** The report text before its `RECENT EVENTS` items. */
    function ReportHeader(generatedAt: string, nowMs: int): string
      reads stats
    {
      "Real-Time Vehicle Sensor Management System\n"
      + "Interrupt-Driven RTOS Simulation Report\n"
      + Rule + "\n"
      + "Generated: " + generatedAt + "\n\n"
      + "SYSTEM STATISTICS\n"
      + "-----------------\n"
      + "Brake Events (Priority 7): " + NatToString(stats.brakeCounts) + "\n"
      + "Collision Events (Priority 6): " + NatToString(stats.collisionCounts) + "\n"
      + "Speed Events (Priority 5): " + NatToString(stats.speedCounts) + "\n"
      + "Total Events: " + NatToString(stats.totalEvents) + "\n"
      + "Total Interrupts: " + NatToString(stats.totalInterrupts) + "\n"
      + "Average Response Time: " + AverageText(stats.responseTimes) + "\n"
      + "System Uptime: " + FormatUptime(nowMs - stats.startTime) + "\n"
      + "CPU Load: " + NatToString(CalculateCpuLoad(nowMs)) + "%\n\n"
      + "RECENT EVENTS\n"
      + "-------------\n"
    }

    /**
      `exportToPPT()`: logs that a report is being generated, builds the report
      (whose items therefore start with that entry), and logs its success.
      The download itself is not part of the model.
     */
    method ExportReport(generatedAt: string, nowMs: int, clockStart: string, clockDone: string) returns (report: string)
      modifies log
      ensures var shown := Cap([SystemEntry("📊 Generating PowerPoint presentation...", InfoLevel, clockStart)] + old(log.entries));
              && report == ReportHeader(generatedAt, nowMs) + ReportItems(shown) + "\n\n" + Rule + "End of Report\n"
              && log.entries == Cap([SystemEntry("✓ PowerPoint report exported successfully", Success, clockDone)] + shown)
    {
      ghost var shown := Cap([SystemEntry("📊 Generating PowerPoint presentation...", InfoLevel, clockStart)] + log.entries);
      var header := ReportHeader(generatedAt, nowMs);
      AddSystemEventLog("📊 Generating PowerPoint presentation...", InfoLevel, clockStart);
      assert log.entries == shown;
      var items := WriteItems(log.entries);
      report := header + items + "\n\n" + Rule + "End of Report\n";
      AddSystemEventLog("✓ PowerPoint report exported successfully", Success, clockDone);
      assert header == ReportHeader(generatedAt, nowMs);
    }
  }

  /** The `forEach` over the log items, each appended as `<index + 1>. [<time>] <msg>`. */
  method WriteItems(items: seq<Entry>) returns (text: string)
    ensures text == ReportItems(items)
  {
    text := "";
    var i := 0;
    while i < |items|
      invariant 0 <= i <= |items|
      invariant text == ReportItems(items[..i])
    {
      assert items[..i + 1][..i] == items[..i];
      text := text + ReportItem(i + 1, items[i]);
      i := i + 1;
    }
    assert items[..|items|] == items;
  }
}
