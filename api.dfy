/**
  The request handlers of run.py that compute something: the sensor check of
  `trigger_sensor`, the event counts and interrupt rate of
  `get_system_stats`, and the clear-then-log sequence of `clear_log`.
 */
module Api {
  import opened Text
  import opened EventLogger
  import opened TaskModel
  import opened RtosSimulator
  import opened InterruptControllerModel

  /** The `valid_sensors` list of `trigger_sensor`. */
  const ValidSensors: seq<string> := ["Brake", "Collision", "Speed"]

  /** The handler's list admits exactly the sensors of the controller's `interrupt_map`. */
  lemma ValidSensorsMapped(name: string)
    ensures name in ValidSensors <==> SensorNamed(name).Some?
  {
    assert ValidSensors[0] == "Brake" && ValidSensors[1] == "Collision" && ValidSensors[2] == "Speed";
  }

  /** What `trigger_sensor` answers: a 400 error for an unknown sensor, or success with the controller's result. */
  datatype TriggerResponse =
    | BadRequest(message: string)
    | Success(message: string, result: TriggerOutcome)

  /** The HTTP status of a response. */
  function StatusCode(r: TriggerResponse): nat {
    if r.BadRequest? then 400 else 200
  }

  /**
    `POST /api/trigger-sensor/<sensor_name>` at time `nowUs`: an unknown sensor
    is answered with 400 and never reaches the controller; a known one is
    passed on, and the controller's `ValueError` cannot occur.  While
    interrupts are enabled the controller counts the trigger, logs it and the
    ISR lines, drains its queue and signals the tasks; while they are disabled
    nothing changes.
   */
  method TriggerSensor(ic: InterruptController, sensorName: string, nowUs: nat, signalUs: nat) returns (resp: TriggerResponse)
    requires ic.log.Valid()
    modifies ic, ic.log, ic.RtosFrame()
    ensures ic.log.Valid()
    ensures StatusCode(resp) == 400 <==> sensorName !in ValidSensors
    ensures sensorName in ValidSensors <==> SensorNamed(sensorName).Some?
    ensures ic.rtos == old(ic.rtos) && ic.interruptEnabled == old(ic.interruptEnabled) && ic.isrStack == old(ic.isrStack)
    ensures sensorName !in ValidSensors ==>
      && resp == BadRequest("Unknown sensor: " + sensorName)
      && ic.interruptCount == old(ic.interruptCount) && ic.interruptQueue == old(ic.interruptQueue)
      && ic.log.history == old(ic.log.history)
      && (ic.rtos != null ==> ic.rtos.State() == old(ic.rtos.State()))
    ensures sensorName in ValidSensors ==>
      && resp.Success? && resp.message == sensorName + " interrupt triggered"
      && (resp.result.Disabled? <==> !old(ic.interruptEnabled))
      && (resp.result.Triggered? <==> old(ic.interruptEnabled))
    ensures sensorName in ValidSensors && !old(ic.interruptEnabled) ==>
      && ic.interruptCount == old(ic.interruptCount) && ic.interruptQueue == old(ic.interruptQueue)
      && ic.log.history == old(ic.log.history)
      && (ic.rtos != null ==> ic.rtos.State() == old(ic.rtos.State()))
    ensures sensorName in ValidSensors && old(ic.interruptEnabled) ==>
      var id := SensorNamed(sensorName).value;
      var order := ServiceOrder(old(ic.interruptQueue) + [Request(id, nowUs)]);
      && resp.result == Triggered(IntNumber(id), IntPriority(id), nowUs)
      && ic.interruptCount == old(ic.interruptCount) + 1 && ic.interruptQueue == []
      && ic.log.history == old(ic.log.history) + [TriggerLine(id, nowUs)] + IsrLog(order)
      && (ic.rtos != null ==> ic.rtos.State() == SignalAll(old(ic.rtos.State()), order, signalUs).(history := ic.rtos.log.history))
  {
    ValidSensorsMapped(sensorName);
    if sensorName !in ValidSensors {
      return BadRequest("Unknown sensor: " + sensorName);
    }
    var result := ic.TriggerInterrupt(sensorName, nowUs, signalUs);
    resp := Success(sensorName + " interrupt triggered", result);
  }

  /** A line `get_system_stats` counts as an event of the sensor named `name`. */
  predicate CountedFor(name: string, line: string) {
    Contains(line, name) && Contains(line, "INTERRUPT:")
  }

  /** `sum(1 for log in logs if name in log and 'INTERRUPT:' in log)`. */
  function EventCount(logs: seq<string>, name: string): (n: nat)
    ensures n <= |logs|
  {
    |Filter(logs, (line: string) => CountedFor(name, line))|
  }

  /** One more line adds one to a sensor's count exactly when it is counted for that sensor. */
  lemma EventCountAppend(logs: seq<string>, line: string, name: string)
    ensures EventCount(logs + [line], name) == EventCount(logs, name) + if CountedFor(name, line) then 1 else 0
  {
    var p := (l: string) => CountedFor(name, l);
    FilterAppend(logs, [line], p);
    assert [line][..0] == [];
  }

  /** A string of decimal digits holds no other character. */
  lemma DigitsLack(s: string, c: char)
    requires AllDigits(s) && !IsDigit(c)
    ensures c !in s
  {
  }

  /** A character that is no digit, bracket or space and is missing from `rest` is missing from the stamped line. */
  lemma LineLacks(t: nat, rest: string, c: char)
    requires !IsDigit(c) && c != '[' && c != ']' && c != ' ' && c !in rest
    ensures c !in Line(t, rest)
  {
    DigitsLack(NatToString(t), c);
  }

  /** The text of the line `trigger_interrupt` logs, after its sensor's name. */
  function TriggerTail(id: TaskId): string {
    " (INT" + NatToString(IntNumber(id)) + ") - Priority: " + NatToString(IntPriority(id))
  }

  /** The line `trigger_interrupt` logs is counted for its own sensor. */
  lemma TriggerLineCountedOwn(id: TaskId, t: nat)
    ensures CountedFor(SensorName(id), TriggerLine(id, t))
  {
    var s := SensorName(id);
    var front := "[" + NatToString(t) + "] ";
    var rest := "INTERRUPT: " + s + TriggerTail(id);
    assert TriggerLine(id, t) == front + rest;
    ContainsPrefix("INTERRUPT: ", "INTERRUPT:");
    ContainsLeft("INTERRUPT: ", s, "INTERRUPT:");
    ContainsLeft("INTERRUPT: " + s, TriggerTail(id), "INTERRUPT:");
    ContainsRight(front, rest, "INTERRUPT:");
    ContainsPrefix(s, s);
    ContainsRight("INTERRUPT: ", s, s);
    ContainsLeft("INTERRUPT: " + s, TriggerTail(id), s);
    ContainsRight(front, rest, s);
  }

  /** The line `trigger_interrupt` logs is counted for no other sensor. */
  lemma TriggerLineNotCountedOther(id: TaskId, t: nat, k: TaskId)
    requires k != id
    ensures !CountedFor(SensorName(k), TriggerLine(id, t))
  {
    var rest := "INTERRUPT: " + SensorName(id) + TriggerTail(id);
    assert TriggerLine(id, t) == Line(t, rest);
    var c := SensorName(k)[0];
    assert c == 'B' || c == 'C' || c == 'S';
    assert c !in SensorName(id);
    assert c !in "INTERRUPT: " && c !in " (INT" && c !in ") - Priority: ";
    DigitsLack(NatToString(IntNumber(id)), c);
    DigitsLack(NatToString(IntPriority(id)), c);
    assert c !in TriggerTail(id);
    LineLacks(t, rest, c);
    MissingCharNotContained(TriggerLine(id, t), SensorName(k), c);
  }

  /** The line `trigger_interrupt` logs is counted for its own sensor and for no other. */
  lemma TriggerLineCounted(id: TaskId, t: nat, k: TaskId)
    ensures CountedFor(SensorName(k), TriggerLine(id, t)) <==> k == id
  {
    if k == id {
      TriggerLineCountedOwn(id, t);
    } else {
      TriggerLineNotCountedOther(id, t, k);
    }
  }

  /** The two lines an ISR logs are never counted as events. */
  lemma IsrLinesNotCounted(k: TaskId, t: nat, name: string)
    ensures forall line :: line in IsrLines(k, t) ==> !CountedFor(name, line)
  {
    var lines := IsrLines(k, t);
    assert 'P' !in IsrName(k);
    assert 'P' !in "ISR_ENTRY: " && 'P' !in "ISR_EXIT: " && 'P' !in " - Task Signaled";
    LineLacks(IsrEntry(k, t), "ISR_ENTRY: " + IsrName(k), 'P');
    LineLacks(IsrExit(k, t), "ISR_EXIT: " + IsrName(k) + " - Task Signaled", 'P');
    MissingCharNotContained(lines[0], "INTERRUPT:", 'P');
    MissingCharNotContained(lines[1], "INTERRUPT:", 'P');
  }

  /** No task name holds a capital I. */
  lemma NameLacksI(t: TaskId)
    ensures 'I' !in t.Name()
  {
  }

  /** What the scheduler logs for `e` after the time stamp. */
  function SchedulerText(e: SchedEvent): string {
    match e
    case Preempted(r, t, _) => "TASK_PREEMPT: " + r.Name() + " preempted by " + t.Name()
    case Started(t, _) => "TASK_START: " + t.Name() + " - Priority: " + NatToString(t.Priority())
    case Ended(t, _) => "TASK_END: " + t.Name()
    case Resumed(t, _) => "TASK_RESUME: " + t.Name()
  }

  /** No line text of the scheduler holds a capital I. */
  lemma SchedulerTextLacksI(e: SchedEvent)
    ensures LineOf(e) == Line(e.at, SchedulerText(e))
    ensures 'I' !in SchedulerText(e)
  {
    match e
    case Preempted(r, t, at) =>
      NameLacksI(r);
      NameLacksI(t);
      assert 'I' !in "TASK_PREEMPT: " && 'I' !in " preempted by ";
    case Started(t, at) =>
      NameLacksI(t);
      DigitsLack(NatToString(t.Priority()), 'I');
      assert 'I' !in "TASK_START: " && 'I' !in " - Priority: ";
    case Ended(t, at) =>
      NameLacksI(t);
      assert 'I' !in "TASK_END: ";
    case Resumed(t, at) =>
      NameLacksI(t);
      assert 'I' !in "TASK_RESUME: ";
  }

  /** The lines the scheduler logs are never counted as events. */
  lemma SchedulerLineNotCounted(e: SchedEvent, name: string)
    ensures !CountedFor(name, LineOf(e))
  {
    SchedulerTextLacksI(e);
    LineLacks(e.at, SchedulerText(e), 'I');
    MissingCharNotContained(LineOf(e), "INTERRUPT:", 'I');
  }

  /** The fixed `avg_response_time` of `get_system_stats`, in microseconds. */
  const AvgResponseTimeUs: nat := 5

  /**
    The event and interrupt figures of `get_system_stats`.  The rate is the
    fraction `rateNum / rateDen` interrupts per second, before rounding.
   */
  datatype EventStats = EventStats(
    brakeEvents: nat, collisionEvents: nat, speedEvents: nat, totalEvents: nat,
    totalInterrupts: nat, rateNum: nat, rateDen: nat, avgResponseTime: nat)

  /**
    `get_system_stats` over the log lines `logs`, with `interruptCount`
    interrupts counted over an uptime of `uptimeUs` microseconds: the rate
    divides by the uptime in seconds, but never by less than one second (a
    negative uptime, after the wall clock went back, divides by one second),
    so it never exceeds the number of interrupts.
   */
  function SystemEventStats(logs: seq<string>, interruptCount: nat, uptimeUs: int): (st: EventStats)
    ensures st.brakeEvents == EventCount(logs, "Brake") && st.collisionEvents == EventCount(logs, "Collision")
    ensures st.speedEvents == EventCount(logs, "Speed")
    ensures st.totalEvents == st.brakeEvents + st.collisionEvents + st.speedEvents
    ensures st.totalInterrupts == interruptCount
    ensures st.rateDen >= 1_000_000 && st.rateNum == interruptCount * 1_000_000
    ensures st.rateDen >= uptimeUs && (st.rateDen == uptimeUs || st.rateDen == 1_000_000)
    ensures st.rateNum <= interruptCount * st.rateDen
    ensures st.avgResponseTime == 5
  {
    var b, c, s := EventCount(logs, "Brake"), EventCount(logs, "Collision"), EventCount(logs, "Speed");
    var den := if uptimeUs > 1_000_000 then uptimeUs else 1_000_000;
    EventStats(b, c, s, b + c + s, interruptCount, interruptCount * 1_000_000, den, AvgResponseTimeUs)
  }

  /** The line `clear_log` logs; it carries its own `[...]` prefix, so the logger stores it without a clock stamp. */
  const ClearedLine: string := "[SYSTEM] Event log cleared"

  /** The line is stored as it is, and an empty deque with room for it holds just that line afterwards. */
  lemma ClearedLineKept(maxLogs: nat, nowUs: nat)
    requires maxLogs > 0
    ensures Stamp(ClearedLine, nowUs) == ClearedLine
    ensures [] + [Stamp(ClearedLine, nowUs)] == [ClearedLine]
    ensures Bounded([ClearedLine], maxLogs) == [ClearedLine]
  {
    var m := ClearedLine;
    assert m[0] == '[' && m[7] == ']';
    assert HasTimestamp(m);
  }

  /** `POST /api/clear-log`: the log is emptied, then holds exactly the one line saying so. */
  method ClearLog(log: Logger, nowUs: nat)
    requires log.maxLogs > 0
    modifies log
    ensures log.Valid()
    ensures log.logs == [ClearedLine] && log.history == [ClearedLine]
  {
    log.Clear();
    ClearedLineKept(log.maxLogs, nowUs);
    log.Log(ClearedLine, "INFO", nowUs);
  }
}
