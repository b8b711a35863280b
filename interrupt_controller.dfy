/**
  The interrupt controller of interrupt_controller.py: the `interrupt_map`
  of the three sensors, the priority queue of pending interrupts, the ISR
  context stack, and the three ISRs that log their entry and exit and signal
  the sensor's task in the scheduler.
 */
module InterruptControllerModel {
  import opened Wrappers
  import opened Text
  import opened EventLogger
  import opened TaskModel
  import opened RtosSimulator

  /** The key of a sensor in `interrupt_map`; a sensor is identified with the task its ISR signals. */
  function SensorName(id: TaskId): string {
    match id
    case Brake => "Brake"
    case Collision => "Collision"
    case Speed => "Speed"
  }

  /** The interrupt line of a sensor: INT0, INT1 and INT2. */
  function IntNumber(id: TaskId): nat {
    match id
    case Brake => 0
    case Collision => 1
    case Speed => 2
  }

  /** The interrupt priority of a sensor: 7, 6 and 5. */
  function IntPriority(id: TaskId): nat {
    match id
    case Brake => 7
    case Collision => 6
    case Speed => 5
  }

  /** `sensor_name in self.interrupt_map`, and which sensor it names. */
  function SensorNamed(name: string): (s: Option<TaskId>)
    ensures s.Some? ==> SensorName(s.value) == name
    ensures s.None? ==> forall id: TaskId :: SensorName(id) != name
  {
    if name == "Brake" then Some(Brake)
    else if name == "Collision" then Some(Collision)
    else if name == "Speed" then Some(Speed)
    else None
  }

  /** The `isrs` table: which ISR serves an interrupt line. */
  function IsrFor(number: nat): (k: Option<TaskId>)
    ensures k.Some? ==> IntNumber(k.value) == number
    ensures k.None? ==> forall id: TaskId :: IntNumber(id) != number
  {
    if number == 0 then Some(Brake)
    else if number == 1 then Some(Collision)
    else if number == 2 then Some(Speed)
    else None
  }

  /** Each sensor's interrupt is served by its own ISR, and its priority is that of the task the ISR signals. */
  lemma InterruptMapConsistent(id: TaskId)
    ensures SensorNamed(SensorName(id)) == Some(id)
    ensures IsrFor(IntNumber(id)) == Some(id)
    ensures IntPriority(id) == id.Priority()
  {
  }

  /** An entry `(-priority, int_number, sensor_name, timestamp)` of `interrupt_queue`. */
  datatype IntRequest = IntRequest(priority: nat, number: nat, sensor: TaskId, timestamp: nat)

  /** The entry `trigger_interrupt` queues for a sensor at time `t`. */
  function Request(id: TaskId, t: nat): IntRequest {
    IntRequest(IntPriority(id), IntNumber(id), id, t)
  }

  /** The position of a sensor's name in string order: "Brake" < "Collision" < "Speed". */
  function NameRank(id: TaskId): nat {
    match id
    case Brake => 0
    case Collision => 1
    case Speed => 2
  }

  /**
    `a` leaves the priority queue no later than `b`: the tuples compare by
    descending priority, then ascending line number, sensor name and timestamp.
   */
  predicate ServedNoLaterThan(a: IntRequest, b: IntRequest) {
    || a.priority > b.priority
    || (a.priority == b.priority && a.number < b.number)
    || (a.priority == b.priority && a.number == b.number && NameRank(a.sensor) < NameRank(b.sensor))
    || (a.priority == b.priority && a.number == b.number && a.sensor == b.sensor && a.timestamp <= b.timestamp)
  }

  /** Where the entry `get_nowait` returns sits (the first of equal ones). */
  function NextIndex(q: seq<IntRequest>): (i: nat)
    requires q != []
    ensures i < |q|
    decreases |q|
  {
    if |q| == 1 then 0
    else
      var k := NextIndex(q[1..]);
      if ServedNoLaterThan(q[0], q[1..][k]) then 0 else k + 1
  }

  /** The entry at `NextIndex(q)` is served no later than any other queued entry. */
  lemma {:induction false} NextIndexFirst(q: seq<IntRequest>)
    requires q != []
    ensures forall j :: 0 <= j < |q| ==> ServedNoLaterThan(q[NextIndex(q)], q[j])
    decreases |q|
  {
    if |q| > 1 {
      NextIndexFirst(q[1..]);
      assert forall j :: 1 <= j < |q| ==> q[j] == q[1..][j - 1];
    }
  }

  /** The queue without its entry at `i`. */
  function Without(q: seq<IntRequest>, i: nat): (r: seq<IntRequest>)
    requires i < |q|
    ensures |r| == |q| - 1
    ensures multiset(r) == multiset(q) - multiset{q[i]}
  {
    assert q == q[..i] + [q[i]] + q[i + 1..];
    q[..i] + q[i + 1..]
  }

  /** The order in which draining the queue serves its entries. */
  function ServiceOrder(q: seq<IntRequest>): seq<IntRequest>
    decreases |q|
  {
    if q == [] then []
    else
      var i := NextIndex(q);
      [q[i]] + ServiceOrder(Without(q, i))
  }

  /** Draining serves every queued entry exactly once. */
  lemma {:induction false} ServiceOrderPermutes(q: seq<IntRequest>)
    ensures multiset(ServiceOrder(q)) == multiset(q)
    decreases |q|
  {
    if q != [] {
      var i := NextIndex(q);
      ServiceOrderPermutes(Without(q, i));
      assert multiset(q) == multiset(Without(q, i)) + multiset{q[i]};
    }
  }

  /** Entries in the order they leave the queue. */
  predicate InServiceOrder(o: seq<IntRequest>) {
    forall i, j :: 0 <= i < j < |o| ==> ServedNoLaterThan(o[i], o[j])
  }

  /** The entry `get_nowait` returns is served no later than anything else in the queue. */
  lemma FirstBeforeAll(q: seq<IntRequest>, x: IntRequest)
    requires x in q
    ensures ServedNoLaterThan(q[NextIndex(q)], x)
  {
    var j :| 0 <= j < |q| && q[j] == x;
    NextIndexFirst(q);
  }

  /** An entry served no later than each of a sorted tail, put in front of it, keeps the order sorted. */
  lemma ConsInServiceOrder(m: IntRequest, rest: seq<IntRequest>)
    requires InServiceOrder(rest)
    requires forall b :: 0 <= b < |rest| ==> ServedNoLaterThan(m, rest[b])
    ensures InServiceOrder([m] + rest)
  {
    var o := [m] + rest;
    forall a, b | 0 <= a < b < |o|
      ensures ServedNoLaterThan(o[a], o[b])
    {
      assert o[b] == rest[b - 1];
      if a > 0 {
        assert o[a] == rest[a - 1];
      }
    }
  }

  /** Draining serves the entries highest priority first, ties broken by line number, name and timestamp. */
  lemma {:induction false} ServiceOrderSorted(q: seq<IntRequest>)
    ensures InServiceOrder(ServiceOrder(q))
    decreases |q|
  {
    if q != [] {
      var i := NextIndex(q);
      var w := Without(q, i);
      var rest := ServiceOrder(w);
      ServiceOrderSorted(w);
      ServiceOrderPermutes(w);
      forall b | 0 <= b < |rest|
        ensures ServedNoLaterThan(q[i], rest[b])
      {
        assert rest[b] in multiset(w);
        FirstBeforeAll(q, rest[b]);
      }
      ConsInServiceOrder(q[i], rest);
    }
  }

  /** Simulated time at which a sensor's ISR logs its entry, for an interrupt raised at `t`. */
  function IsrEntry(k: TaskId, t: nat): (e: nat)
    ensures e > t
  {
    match k
    case Brake => t + 1_000_000
    case Collision => t + 2_000_000
    case Speed => t + 3_000_000
  }

  /** Simulated time at which a sensor's ISR logs its exit. */
  function IsrExit(k: TaskId, t: nat): (x: nat)
    ensures x > IsrEntry(k, t) > t
  {
    match k
    case Brake => IsrEntry(k, t) + 1_000_000
    case Collision => IsrEntry(k, t) + 1_000_000
    case Speed => IsrEntry(k, t) + 2_000_000
  }

  /** The ISR's name in its log lines. */
  function IsrName(k: TaskId): string {
    match k
    case Brake => "Brake_ISR"
    case Collision => "Collision_ISR"
    case Speed => "Speed_ISR"
  }

  /** The two lines an ISR logs for an interrupt raised at `t`: its entry, then its exit after signalling. */
  function IsrLines(k: TaskId, t: nat): seq<string> {
    [Line(IsrEntry(k, t), "ISR_ENTRY: " + IsrName(k)), Line(IsrExit(k, t), "ISR_EXIT: " + IsrName(k) + " - Task Signaled")]
  }

  /** What serving one queue entry logs: its ISR's two lines, or nothing for a line without an ISR. */
  function HandledLines(r: IntRequest): seq<string> {
    match IsrFor(r.number)
    case None => []
    case Some(k) => IsrLines(k, r.timestamp)
  }

  /** What serving the entries of `order` logs, in order. */
  function IsrLog(order: seq<IntRequest>): seq<string>
    decreases |order|
  {
    if order == [] then [] else IsrLog(order[..|order| - 1]) + HandledLines(order[|order| - 1])
  }

  /** What serving one entry does to the scheduler: its ISR signals the task of the same sensor. */
  function SignalFor(s: SchedState, r: IntRequest, at: nat): SchedState {
    match IsrFor(r.number)
    case None => s
    case Some(k) => Signal(s, k.Name(), at)
  }

  /** What serving the entries of `order` does to the scheduler. */
  function SignalAll(s: SchedState, order: seq<IntRequest>, at: nat): SchedState
    decreases |order|
  {
    if order == [] then s else SignalFor(SignalAll(s, order[..|order| - 1], at), order[|order| - 1], at)
  }

  /** The entries a drain serves: all of the queue when interrupts are enabled, none otherwise. */
  function Served(enabled: bool, q: seq<IntRequest>): seq<IntRequest> {
    if enabled then ServiceOrder(q) else []
  }

  /** Serving one more entry logs that entry's lines after the others. */
  lemma IsrLogSnoc(order: seq<IntRequest>, r: IntRequest)
    ensures IsrLog(order + [r]) == IsrLog(order) + HandledLines(r)
  {
    assert (order + [r])[..|order|] == order;
  }

  /** Serving one more entry signals that entry's task after the others. */
  lemma SignalAllSnoc(s: SchedState, order: seq<IntRequest>, r: IntRequest, at: nat)
    ensures SignalAll(s, order + [r], at) == SignalFor(SignalAll(s, order, at), r, at)
  {
    assert (order + [r])[..|order|] == order;
  }

  /** Signalling does not look at the log. */
  lemma SignalForHistory(s: SchedState, r: IntRequest, at: nat, h: seq<string>, h': seq<string>)
    ensures SignalFor(s.(history := h), r, at).(history := h') == SignalFor(s, r, at).(history := h')
  {
  }

  /** The line `trigger_interrupt` logs for a sensor at time `t`. */
  function TriggerLine(id: TaskId, t: nat): string {
    Line(t, "INTERRUPT: " + SensorName(id) + " (INT" + NatToString(IntNumber(id)) + ") - Priority: " + NatToString(IntPriority(id)))
  }

  /**
    An interrupt raised on an empty queue is served at once: its ISR logs its
    entry and exit, in that time order, and signals exactly the sensor's task.
   */
  lemma {:induction false} LoneInterruptServed(id: TaskId, t: nat, s: SchedState, at: nat)
    ensures ServiceOrder([Request(id, t)]) == [Request(id, t)]
    ensures IsrLog(ServiceOrder([Request(id, t)])) == IsrLines(id, t)
    ensures SignalAll(s, ServiceOrder([Request(id, t)]), at) == Signal(s, id.Name(), at)
    ensures t < IsrEntry(id, t) < IsrExit(id, t)
  {
    var r := Request(id, t);
    assert NextIndex([r]) == 0;
    assert Without([r], 0) == [];
    assert ServiceOrder([r]) == [r] + ServiceOrder([]);
    assert [r][..0] == [];
    assert IsrLog([r]) == IsrLog([]) + HandledLines(r);
    assert SignalAll(s, [r], at) == SignalFor(SignalAll(s, [], at), r, at);
  }

  /** The result of `trigger_interrupt`. */
  datatype TriggerOutcome =
    | Disabled                     // `{'status': 'disabled', ...}`
    | UnknownSensor                // the `ValueError` it raises
    | Triggered(intNumber: nat, priority: nat, timestamp: nat)

  class InterruptController {
    const log: Logger
    var rtos: RTOSSimulator?
    var interruptCount: nat
    var interruptQueue: seq<IntRequest>
    /** The saved ISR contexts `(int_number, timestamp, sensor_name)`. */
    var isrStack: seq<IntRequest>
    var interruptEnabled: bool

    /** `InterruptController(logger)`: enabled, nothing counted or pending, no scheduler attached yet. */
    constructor(log: Logger)
      ensures this.log == log && rtos == null && interruptCount == 0
      ensures interruptQueue == [] && isrStack == [] && interruptEnabled
    {
      this.log := log;
      rtos := null;
      interruptCount := 0;
      interruptQueue := [];
      isrStack := [];
      interruptEnabled := true;
    }

    /** The objects signalling a task may change: the scheduler and its three tasks. */
    ghost function RtosFrame(): set<object>
      reads this
    {
      if rtos == null then {} else {rtos, rtos.brake, rtos.collision, rtos.speed}
    }

    /** `set_rtos(rtos)`. */
    method SetRtos(r: RTOSSimulator?)
      modifies this
      ensures rtos == r
      ensures interruptCount == old(interruptCount) && interruptQueue == old(interruptQueue)
      ensures isrStack == old(isrStack) && interruptEnabled == old(interruptEnabled)
    {
      rtos := r;
    }

    /** `set_interrupt_enabled(enabled)` at time `nowUs`: the flag is set and the change logged. */
    method SetInterruptEnabled(enabled: bool, nowUs: nat)
      requires log.Valid()
      modifies this, log
      ensures log.Valid()
      ensures interruptEnabled == enabled && rtos == old(rtos) && interruptCount == old(interruptCount)
      ensures interruptQueue == old(interruptQueue) && isrStack == old(isrStack)
      ensures log.history == old(log.history) +
        [Line(nowUs, if enabled then "INTERRUPT_ENABLE: Interrupts enabled" else "INTERRUPT_DISABLE: Interrupts disabled")]
    {
      interruptEnabled := enabled;
      if enabled {
        log.LogLine(nowUs, "INTERRUPT_ENABLE: Interrupts enabled");
      } else {
        log.LogLine(nowUs, "INTERRUPT_DISABLE: Interrupts disabled");
      }
    }

    /**
      `brake_isr`, `collision_isr` and `speed_isr`: the ISR of sensor `k` for an
      interrupt raised at `entryTimestamp` logs its entry, signals the sensor's
      task (when a scheduler is attached; `signalUs` is the scheduler's clock),
      then logs its exit.
     */
    method Isr(k: TaskId, entryTimestamp: nat, signalUs: nat)
      requires log.Valid()
      modifies log, RtosFrame()
      ensures log.Valid()
      ensures log.history == old(log.history) + IsrLines(k, entryTimestamp)
      ensures rtos != null ==> rtos.State() == Signal(old(rtos.State()), k.Name(), signalUs).(history := rtos.log.history)
    {
      var entry := IsrEntry(k, entryTimestamp);
      var exit := IsrExit(k, entryTimestamp);
      log.LogLine(entry, "ISR_ENTRY: " + IsrName(k));
      if rtos != null {
        rtos.SignalTask(k.Name(), signalUs);
      }
      log.LogLine(exit, "ISR_EXIT: " + IsrName(k) + " - Task Signaled");
    }

    /** Serving one entry taken off the queue: its context is pushed, its ISR runs, and the context is popped again. */
    method Dispatch(item: IntRequest, signalUs: nat)
      requires log.Valid()
      modifies this, log, RtosFrame()
      ensures log.Valid()
      ensures rtos == old(rtos) && interruptCount == old(interruptCount) && interruptEnabled == old(interruptEnabled)
      ensures interruptQueue == old(interruptQueue) && isrStack == old(isrStack)
      ensures log.history == old(log.history) + HandledLines(item)
      ensures rtos != null ==> rtos.State() == SignalFor(old(rtos.State()), item, signalUs).(history := rtos.log.history)
    {
      match IsrFor(item.number)
      case None =>
        assert old(log.history) + HandledLines(item) == old(log.history);
      case Some(k) =>
        isrStack := isrStack + [item];
        Isr(k, item.timestamp, signalUs);
        if isrStack != [] {
          isrStack := isrStack[..|isrStack| - 1];
        }
    }

    /** One pass of the `process_interrupts` loop: the first entry is taken off the queue and served. */
    method ServeNext(signalUs: nat)
      requires log.Valid() && interruptQueue != []
      modifies this, log, RtosFrame()
      ensures log.Valid()
      ensures rtos == old(rtos) && interruptCount == old(interruptCount) && interruptEnabled == old(interruptEnabled)
      ensures isrStack == old(isrStack)
      ensures var item := old(interruptQueue[NextIndex(interruptQueue)]);
        && interruptQueue == Without(old(interruptQueue), NextIndex(old(interruptQueue)))
        && log.history == old(log.history) + HandledLines(item)
        && (rtos != null ==> rtos.State() == SignalFor(old(rtos.State()), item, signalUs).(history := rtos.log.history))
    {
      var i := NextIndex(interruptQueue);
      var item := interruptQueue[i];
      interruptQueue := Without(interruptQueue, i);
      Dispatch(item, signalUs);
    }

    /**
      `process_interrupts()`: while interrupts are enabled, the pending entries
      are served highest priority first until the queue is empty; with
      interrupts disabled nothing is served.  The ISR stack is left as it was.
     */
    method ProcessInterrupts(signalUs: nat)
      requires log.Valid()
      modifies this, log, RtosFrame()
      ensures log.Valid()
      ensures rtos == old(rtos) && interruptCount == old(interruptCount) && interruptEnabled == old(interruptEnabled)
      ensures isrStack == old(isrStack)
      ensures interruptQueue == if old(interruptEnabled) then [] else old(interruptQueue)
      ensures log.history == old(log.history) + IsrLog(Served(old(interruptEnabled), old(interruptQueue)))
      ensures rtos != null ==>
        rtos.State() == SignalAll(old(rtos.State()), Served(old(interruptEnabled), old(interruptQueue)), signalUs).(history := rtos.log.history)
    {
      ghost var q0 := interruptQueue;
      ghost var done: seq<IntRequest> := [];
      ghost var r0 := if rtos == null then SchedState([], None, None, [], 0, true, [], PerTask(Blocked, Blocked, Blocked), PerTask(0, 0, 0)) else rtos.State();
      while interruptQueue != [] && interruptEnabled
        invariant log.Valid()
        invariant rtos == old(rtos) && interruptCount == old(interruptCount) && interruptEnabled == old(interruptEnabled)
        invariant isrStack == old(isrStack)
        invariant !interruptEnabled ==> done == [] && interruptQueue == q0
        invariant ServiceOrder(q0) == done + ServiceOrder(interruptQueue)
        invariant log.history == old(log.history) + IsrLog(done)
        invariant rtos != null ==> rtos.State() == SignalAll(r0, done, signalUs).(history := rtos.log.history)
        decreases |interruptQueue|
      {
        ghost var d0 := done;
        ghost var item := interruptQueue[NextIndex(interruptQueue)];
        ghost var h := log.history;
        ghost var before := if rtos == null then r0 else rtos.State();
        assert ServiceOrder(interruptQueue) == [item] + ServiceOrder(Without(interruptQueue, NextIndex(interruptQueue)));
        ServeNext(signalUs);
        done := d0 + [item];
        AppendBatches(d0, [item], ServiceOrder(interruptQueue));
        IsrLogSnoc(d0, item);
        AppendBatches(old(log.history), IsrLog(d0), HandledLines(item));
        if rtos != null {
          SignalAllSnoc(r0, d0, item, signalUs);
          SignalForHistory(SignalAll(r0, d0, signalUs), item, signalUs, before.history, rtos.log.history);
        }
      }
      assert done == Served(old(interruptEnabled), q0) by {
        if interruptEnabled {
          assert ServiceOrder(interruptQueue) == [];
          assert done + [] == done;
        }
      }
    }

    /**
      `trigger_interrupt(sensor_name)` at time `nowUs`: refused while
      interrupts are disabled, an error for a sensor outside `interrupt_map`
      (neither touches the count or the log); otherwise the interrupt is
      counted, logged, queued and the queue drained.
     */
    method TriggerInterrupt(sensorName: string, nowUs: nat, signalUs: nat) returns (r: TriggerOutcome)
      requires log.Valid()
      modifies this, log, RtosFrame()
      ensures log.Valid()
      ensures rtos == old(rtos) && interruptEnabled == old(interruptEnabled) && isrStack == old(isrStack)
      ensures r.Disabled? <==> !old(interruptEnabled)
      ensures r.UnknownSensor? <==> old(interruptEnabled) && SensorNamed(sensorName).None?
      ensures !r.Triggered? ==>
        && interruptCount == old(interruptCount) && interruptQueue == old(interruptQueue)
        && log.history == old(log.history)
        && (rtos != null ==> rtos.State() == old(rtos.State()))
      ensures r.Triggered? ==>
        var id := SensorNamed(sensorName).value;
        var order := ServiceOrder(old(interruptQueue) + [Request(id, nowUs)]);
        && SensorNamed(sensorName).Some?
        && r == Triggered(IntNumber(id), IntPriority(id), nowUs)
        && interruptCount == old(interruptCount) + 1 && interruptQueue == []
        && log.history == old(log.history) + [TriggerLine(id, nowUs)] + IsrLog(order)
        && (rtos != null ==> rtos.State() == SignalAll(old(rtos.State()), order, signalUs).(history := rtos.log.history))
    {
      if !interruptEnabled {
        return Disabled;
      }
      match SensorNamed(sensorName)
      case None =>
        return UnknownSensor;
      case Some(id) =>
        ghost var r0 := if rtos == null then SchedState([], None, None, [], 0, true, [], PerTask(Blocked, Blocked, Blocked), PerTask(0, 0, 0)) else rtos.State();
        interruptCount := interruptCount + 1;
        log.LogLine(nowUs, "INTERRUPT: " + SensorName(id) + " (INT" + NatToString(IntNumber(id)) + ") - Priority: " + NatToString(IntPriority(id)));
        interruptQueue := interruptQueue + [Request(id, nowUs)];
        ghost var r1 := if rtos == null then r0 else rtos.State();
        assert rtos != null ==> r1 == r0.(history := rtos.log.history);
        ProcessInterrupts(signalUs);
        r := Triggered(IntNumber(id), IntPriority(id), nowUs);
        if rtos != null {
          SignalAllHistory(r0, ServiceOrder(old(interruptQueue) + [Request(id, nowUs)]), signalUs, r1.history, rtos.log.history);
        }
    }
  }

  /** Signalling a sequence of entries does not look at the log. */
  lemma {:induction false} SignalAllHistory(s: SchedState, order: seq<IntRequest>, at: nat, h: seq<string>, h': seq<string>)
    ensures SignalAll(s.(history := h), order, at).(history := h') == SignalAll(s, order, at).(history := h')
    decreases |order|
  {
    if order != [] {
      var n := |order| - 1;
      SignalAllHistory(s, order[..n], at, h, h);
      SignalForHistory(SignalAll(s, order[..n], at), order[n], at, h, h');
      SignalForHistory(SignalAll(s, order[..n], at), order[n], at, SignalAll(s, order[..n], at).history, h');
    }
  }
}
