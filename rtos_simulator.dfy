/**
  The scheduler of rtos_simulator.py: the priority queue of ready tasks, the
  running task, the stack of preempted contexts, and one iteration of the
  `run_scheduler` loop, which takes the most urgent queued task, runs it to
  completion with its fixed simulated timing, and resumes the most recently
  preempted task.
 */
module RtosSimulator {
  import opened Wrappers
  import opened Text
  import opened EventLogger
  import opened SharedData
  import opened TaskModel
  import BrakeTaskModel
  import CollisionTaskModel
  import SpeedTaskModel

  /** An entry `(-priority, timestamp, task)` of `task_queue`. */
  datatype QueueItem = QueueItem(priority: nat, timestamp: nat, task: TaskId)

  /** A saved context `{'task', 'timestamp', 'state'}` of `task_stack`. */
  datatype StackItem = StackItem(task: TaskId, timestamp: nat, state: TaskState)

  /** `a` comes out of the priority queue no later than `b`: a higher priority, or the same and a timestamp no later. */
  predicate AtLeastAsUrgent(a: QueueItem, b: QueueItem) {
    a.priority > b.priority || (a.priority == b.priority && a.timestamp <= b.timestamp)
  }

  /** Where the smallest tuple `(-priority, timestamp, ...)` sits (the first such, should there be equal ones). */
  function MinIndex(q: seq<QueueItem>): (i: nat)
    requires q != []
    ensures i < |q|
    decreases |q|
  {
    if |q| == 1 then 0
    else
      var k := MinIndex(q[1..]);
      if AtLeastAsUrgent(q[0], q[1..][k]) then 0 else k + 1
  }

  /** The entry at `MinIndex(q)` is at least as urgent as every queued entry. */
  lemma {:induction false} MinIndexMostUrgent(q: seq<QueueItem>)
    requires q != []
    ensures forall j :: 0 <= j < |q| ==> AtLeastAsUrgent(q[MinIndex(q)], q[j])
    decreases |q|
  {
    if |q| > 1 {
      MinIndexMostUrgent(q[1..]);
      assert forall j :: 1 <= j < |q| ==> q[j] == q[1..][j - 1];
    }
  }

  /** The queue without its entry at `i`, the others in their order. */
  function RemoveAt(q: seq<QueueItem>, i: nat): (r: seq<QueueItem>)
    requires i < |q|
    ensures |r| == |q| - 1
  {
    q[..i] + q[i + 1..]
  }

  /** Removing the entry at `i` takes exactly that entry out of the queue's multiset. */
  lemma RemoveAtMultiset(q: seq<QueueItem>, i: nat)
    requires i < |q|
    ensures multiset(RemoveAt(q, i)) == multiset(q) - multiset{q[i]}
  {
    assert q == q[..i] + [q[i]] + q[i + 1..];
  }

  /** How long after its queue timestamp a task's simulated start is logged, in microseconds. */
  function StartOffset(t: TaskId): nat {
    match t
    case Brake => 1_000_000
    case Collision => 1_000_000
    case Speed => 2_000_000
  }

  /** The simulated duration of a task, in microseconds. */
  function Duration(t: TaskId): nat {
    match t
    case Brake => 2_000_000
    case Collision => 3_000_000
    case Speed => 4_000_000
  }

  /** A line the scheduler logs, before it is rendered: what happened to which task, and when. */
  datatype SchedEvent =
    | Preempted(running: TaskId, preempter: TaskId, at: nat)
    | Started(task: TaskId, at: nat)
    | Ended(task: TaskId, at: nat)
    | Resumed(task: TaskId, at: nat)

  /** The text of the line logged for `e`. */
  function LineOf(e: SchedEvent): string {
    match e
    case Preempted(r, t, at) => Line(at, "TASK_PREEMPT: " + r.Name() + " preempted by " + t.Name())
    case Started(t, at) => Line(at, "TASK_START: " + t.Name() + " - Priority: " + NatToString(t.Priority()))
    case Ended(t, at) => Line(at, "TASK_END: " + t.Name())
    case Resumed(t, at) => Line(at, "TASK_RESUME: " + t.Name())
  }

  /**
    The lines logged for `events`, in order.  The rendering is done by
    `RenderedLines`; the split lets the verifier render lines only where a proof
    asks for them.
   */
  function Lines(events: seq<SchedEvent>): seq<string>
    decreases |events|, 1
  {
    RenderedLines(events)
  }

  function RenderedLines(events: seq<SchedEvent>): seq<string>
    decreases |events|, 0
  {
    if events == [] then [] else Lines(events[..|events| - 1]) + [LineOf(events[|events| - 1])]
  }

  /** No events give no lines. */
  lemma LinesEmpty(h: seq<string>)
    ensures h + Lines([]) == h
  {
    assert Lines([]) == RenderedLines([]);
    assert h + [] == h;
  }

  /** One event gives one line. */
  lemma LinesSingle(e: SchedEvent)
    ensures Lines([e]) == [LineOf(e)]
  {
    assert Lines([e]) == RenderedLines([e]);
    assert [e][..0] == [];
    assert Lines([]) == RenderedLines([]);
  }

  /** Rendering event by event: the lines of two batches of events are the lines of the first, then those of the second. */
  lemma {:induction false} LinesAppend(a: seq<SchedEvent>, b: seq<SchedEvent>)
    ensures Lines(a + b) == Lines(a) + Lines(b)
    decreases |b|
  {
    if b == [] {
      assert a + b == a;
      LinesEmpty(Lines(a));
    } else {
      var n := |b| - 1;
      var x := LineOf(b[n]);
      assert (a + b)[..|a + b| - 1] == a + b[..n];
      assert Lines(a + b) == Lines(a + b[..n]) + [x] by {
        assert Lines(a + b) == RenderedLines(a + b);
      }
      assert Lines(b) == Lines(b[..n]) + [x] by {
        assert Lines(b) == RenderedLines(b);
      }
      LinesAppend(a, b[..n]);
      AppendBatches(Lines(a), Lines(b[..n]), [x]);
    }
  }

  /** One line per event. */
  lemma {:induction false} LinesLength(events: seq<SchedEvent>)
    ensures |Lines(events)| == |events|
    decreases |events|
  {
    assert Lines(events) == RenderedLines(events);
    if events != [] {
      LinesLength(events[..|events| - 1]);
    }
  }

  /** The record a run of task `t` writes. */
  function ProcessFor(t: TaskId, data: Record): (r: Record)
    requires NumericFields(data)
    ensures NumericFields(r)
  {
    match t
    case Brake => BrakeTaskModel.Process(data)
    case Collision => CollisionTaskModel.Process(data)
    case Speed => SpeedTaskModel.Process(data)
  }

  /** The semaphore the `run()` of task `t` acquires and releases. */
  function SemaphoreOf(t: TaskId): (n: string)
    ensures n in SemaphoreNames
  {
    match t
    case Brake => "brake_sem"
    case Collision => "collision_sem"
    case Speed => "speed_sem"
  }

  /** The semaphores after a run of task `t`: its own one as `SemaphoreAfterRun` leaves it, every other one unchanged. */
  function SemaphoresAfterRun(t: TaskId, sems: map<string, nat>): (r: map<string, nat>)
    requires SemaphoreOf(t) in sems
    ensures r.Keys == sems.Keys && r[SemaphoreOf(t)] >= 1
    ensures forall n :: n in sems && n != SemaphoreOf(t) ==> r[n] == sems[n]
  {
    sems[SemaphoreOf(t) := SemaphoreAfterRun(sems[SemaphoreOf(t)])]
  }

  /** The context pushed when the running task is preempted by `t`, if it is. */
  function PreemptedBy(running: Option<TaskId>, runningState: TaskState, enabled: bool, t: TaskId, nowUs: nat): (c: Option<StackItem>)
    ensures c.Some? <==> running.Some? && enabled && running.value.Priority() < t.Priority()
    ensures c.Some? ==> c.value.task == running.value && c.value.timestamp == nowUs
  {
    if running.Some? && enabled && running.value.Priority() < t.Priority() then Some(StackItem(running.value, nowUs, runningState))
    else None
  }

  /** The stack after the context `c`, if any, is pushed. */
  function Pushed(stack: seq<StackItem>, c: Option<StackItem>): seq<StackItem> {
    if c.Some? then stack + [c.value] else stack
  }

  /** The most recently saved context, if any. */
  function Top(stack: seq<StackItem>): Option<StackItem> {
    if stack == [] then None else Some(stack[|stack| - 1])
  }

  /** The stack with its most recent context popped (an empty one stays empty). */
  function Pop(stack: seq<StackItem>): seq<StackItem> {
    if stack == [] then [] else stack[..|stack| - 1]
  }

  /** The queue entry of a saved context put back at time `at`, if there is one. */
  function Requeue(c: Option<StackItem>, at: nat): seq<QueueItem> {
    if c.Some? then [QueueItem(c.value.task.Priority(), at, c.value.task)] else []
  }

  /** The preemption event, if `t` preempts. */
  function PreemptEvents(preempted: Option<StackItem>, t: TaskId, nowUs: nat): seq<SchedEvent> {
    if preempted.Some? then [Preempted(preempted.value.task, t, nowUs)] else []
  }

  /** The resume event at time `at`, if a context is popped. */
  function ResumeEvents(resumed: Option<StackItem>, at: nat): seq<SchedEvent> {
    if resumed.Some? then [Resumed(resumed.value.task, at)] else []
  }

  /** One value per task of the table. */
  datatype PerTask<T> = PerTask(brake: T, collision: T, speed: T) {
    function Get(id: TaskId): T {
      match id
      case Brake => brake
      case Collision => collision
      case Speed => speed
    }

    function Set(id: TaskId, v: T): PerTask<T> {
      match id
      case Brake => this.(brake := v)
      case Collision => this.(collision := v)
      case Speed => this.(speed := v)
    }
  }

  /** Setting one task's value changes that task's value and no other. */
  lemma GetSet<T>(p: PerTask<T>, t: TaskId, v: T, id: TaskId)
    ensures p.Set(t, v).Get(id) == if id == t then v else p.Get(id)
  {
  }

  /** The execution counts with one more run of `t`. */
  function Counted(c: PerTask<int>, t: TaskId): PerTask<int> {
    c.Set(t, c.Get(t) + 1)
  }

  /** The state of the running task, if any (any value when none runs). */
  function RunningState(running: Option<TaskId>, s: PerTask<TaskState>): TaskState {
    if running.Some? then s.Get(running.value) else Blocked
  }

  /** The states with the task of the saved context `c`, if any, made ready. */
  function ReadyIf(s: PerTask<TaskState>, c: Option<StackItem>): PerTask<TaskState> {
    if c.Some? then s.Set(c.value.task, Ready) else s
  }



  /** The scheduler's state as the loop sees it: its own fields, what it has logged, and the tasks' states and run counts. */
  datatype SchedState = SchedState(
    queue: seq<QueueItem>,
    running: Option<TaskId>,
    preempted: Option<TaskId>,
    stack: seq<StackItem>,
    readyCount: nat,
    preemptionEnabled: bool,
    history: seq<string>,
    states: PerTask<TaskState>,
    counts: PerTask<int>)

  /** `signal_task(name)`: a known task is made ready, counted as ready and queued with its priority at `nowUs`; an unknown name changes nothing. */
  function Signal(s: SchedState, name: string, nowUs: nat): SchedState {
    match TaskNamed(name)
    case None => s
    case Some(id) =>
      s.(states := s.states.Set(id, Ready), readyCount := s.readyCount + 1,
         queue := s.queue + [QueueItem(id.Priority(), nowUs, id)])
  }

  /** The entry the next iteration takes. */
  function Next(s: SchedState): QueueItem
    requires s.queue != []
  {
    s.queue[MinIndex(s.queue)]
  }

  /** When the task of `item` is logged as started. */
  function StartOf(item: QueueItem): nat {
    item.timestamp + StartOffset(item.task)
  }

  /** When the task of `item` is logged as ended. */
  function EndOf(item: QueueItem): nat {
    StartOf(item) + Duration(item.task)
  }

  /** The context the next iteration saves at `nowUs`, if it preempts. */
  function PreemptedIn(s: SchedState, nowUs: nat): Option<StackItem>
    requires s.queue != []
  {
    PreemptedBy(s.running, RunningState(s.running, s.states), s.preemptionEnabled, Next(s).task, nowUs)
  }

  /** The context the next iteration pops after its run, if any. */
  function ResumedIn(s: SchedState, nowUs: nat): Option<StackItem>
    requires s.queue != []
  {
    Top(Pushed(s.stack, PreemptedIn(s, nowUs)))
  }

  /** `get_nowait()`: the most urgent entry leaves the queue. */
  function TakePhase(s: SchedState): SchedState
    requires s.queue != []
  {
    s.(queue := RemoveAt(s.queue, MinIndex(s.queue)))
  }

  /** The preemption branch for the task `t` at `nowUs`: a running task of strictly lower priority, with preemption on, is logged, saved, made ready and queued again. */
  function PreemptPhase(s: SchedState, t: TaskId, nowUs: nat): SchedState {
    if s.running.Some? && s.preemptionEnabled && s.running.value.Priority() < t.Priority() then
      var r := s.running.value;
      s.(history := s.history + Lines([Preempted(r, t, nowUs)]), preempted := Some(r),
         stack := s.stack + [StackItem(r, nowUs, s.states.Get(r))], states := s.states.Set(r, Ready),
         queue := s.queue + [QueueItem(r.Priority(), nowUs, r)])
    else s
  }

  /** `t` becomes the running task and its start is logged at `start`. */
  function BeginPhase(s: SchedState, t: TaskId, start: nat): SchedState {
    s.(running := Some(t), states := s.states.Set(t, Running), history := s.history + Lines([Started(t, start)]))
  }

  /** `task.run()` as the scheduler sees it: the run of `t` is counted (what it writes to the record is `ProcessFor`). */
  function RunPhase(s: SchedState, t: TaskId): SchedState {
    s.(counts := Counted(s.counts, t))
  }

  /** The end is logged at `end`, `t` is blocked, nothing runs and the ready count drops, not below zero. */
  function FinishPhase(s: SchedState, t: TaskId, end: nat): SchedState {
    s.(history := s.history + Lines([Ended(t, end)]), states := s.states.Set(t, Blocked), running := None,
       readyCount := if s.readyCount > 0 then s.readyCount - 1 else 0)
  }

  /** The run of the task of `item` with its simulated timing. */
  function ExecutePhase(s: SchedState, item: QueueItem): SchedState {
    FinishPhase(RunPhase(BeginPhase(s, item.task, StartOf(item)), item.task), item.task, EndOf(item))
  }

  /** The preemption branch for the task of `item`, then its run. */
  function DispatchPhase(s: SchedState, item: QueueItem, nowUs: nat): SchedState {
    ExecutePhase(PreemptPhase(s, item.task, nowUs), item)
  }

  /** What an iteration does once `item` is taken: dispatch, then resume one microsecond after the end. */
  function ServePhase(s: SchedState, item: QueueItem, nowUs: nat): SchedState {
    ResumePhase(DispatchPhase(s, item, nowUs), EndOf(item) + 1)
  }

  /** The resume branch at time `at`: the most recent saved context, if any, is popped, logged, made ready and queued. */
  function ResumePhase(s: SchedState, at: nat): SchedState {
    if s.stack == [] then s
    else
      var c := s.stack[|s.stack| - 1];
      s.(stack := s.stack[..|s.stack| - 1], history := s.history + Lines([Resumed(c.task, at)]),
         states := s.states.Set(c.task, Ready), queue := s.queue + [QueueItem(c.task.Priority(), at, c.task)])
  }

  /**
    One iteration of `run_scheduler` on a non-empty queue: the most urgent
    entry is taken; a running task of strictly lower priority (with
    preemption on) is saved, made ready and queued again; the task runs with
    its fixed start offset and duration; then the most recently saved
    context is popped and queued again one microsecond after the end.
   */
  function Step(s: SchedState, nowUs: nat): SchedState
    requires s.queue != []
  {
    ServePhase(TakePhase(s), Next(s), nowUs)
  }

  /** A run logs its start line, then its end line. */
  lemma ExecuteLog(s: SchedState, item: QueueItem)
    ensures ExecutePhase(s, item).history == s.history + Lines([Started(item.task, StartOf(item)), Ended(item.task, EndOf(item))])
  {
    var e1, e2 := Started(item.task, StartOf(item)), Ended(item.task, EndOf(item));
    LinesAppend([e1], [e2]);
    assert [e1] + [e2] == [e1, e2];
    AppendBatches(s.history, Lines([e1]), Lines([e2]));
  }

  /** The preemption branch, told through the context it saves, if any. */
  lemma PreemptParts(s: SchedState, t: TaskId, nowUs: nat)
    ensures var c, s' := PreemptedBy(s.running, RunningState(s.running, s.states), s.preemptionEnabled, t, nowUs), PreemptPhase(s, t, nowUs);
            && s'.queue == s.queue + Requeue(c, nowUs) && s'.stack == Pushed(s.stack, c)
            && s'.states == ReadyIf(s.states, c) && s'.history == s.history + Lines(PreemptEvents(c, t, nowUs))
            && s'.preempted == (if c.Some? then Some(c.value.task) else s.preempted)
            && s'.running == s.running && s'.readyCount == s.readyCount
            && s'.preemptionEnabled == s.preemptionEnabled && s'.counts == s.counts
  {
    if !(s.running.Some? && s.preemptionEnabled && s.running.value.Priority() < t.Priority()) {
      LinesEmpty(s.history);
      assert s.queue + [] == s.queue;
    }
  }

  /** The resume branch, told through the context it pops, if any. */
  lemma ResumeParts(s: SchedState, at: nat)
    ensures var c, s' := Top(s.stack), ResumePhase(s, at);
            && s'.queue == s.queue + Requeue(c, at) && s'.stack == Pop(s.stack)
            && s'.states == ReadyIf(s.states, c) && s'.history == s.history + Lines(ResumeEvents(c, at))
            && s'.preempted == s.preempted && s'.running == s.running && s'.readyCount == s.readyCount
            && s'.preemptionEnabled == s.preemptionEnabled && s'.counts == s.counts
  {
    if s.stack == [] {
      LinesEmpty(s.history);
      assert s.queue + [] == s.queue;
    }
  }

  /** A run leaves the queue, the stack and the preemption fields alone; the task ends blocked and counted, and nothing runs. */
  lemma ExecuteParts(s: SchedState, item: QueueItem)
    ensures var s' := ExecutePhase(s, item);
            && s'.queue == s.queue && s'.stack == s.stack && s'.preempted == s.preempted
            && s'.preemptionEnabled == s.preemptionEnabled && s'.running == None
            && s'.readyCount == (if s.readyCount > 0 then s.readyCount - 1 else 0)
            && s'.states == s.states.Set(item.task, Blocked) && s'.counts == Counted(s.counts, item.task)
            && s'.history == s.history + Lines([Started(item.task, StartOf(item)), Ended(item.task, EndOf(item))])
  {
    ExecuteLog(s, item);
    var t := item.task;
    assert s.states.Set(t, Running).Set(t, Blocked) == s.states.Set(t, Blocked);
  }

  /** What an iteration does to the log: the preemption line if any, the start and end lines, then the resume line if any. */
  lemma StepLog(s: SchedState, nowUs: nat)
    requires s.queue != []
    ensures var item := Next(s);
            Step(s, nowUs).history == s.history + Lines(PreemptEvents(PreemptedIn(s, nowUs), item.task, nowUs)
              + [Started(item.task, StartOf(item)), Ended(item.task, EndOf(item))]
              + ResumeEvents(ResumedIn(s, nowUs), EndOf(item) + 1))
  {    var item := Next(s);
    var s2 := PreemptPhase(TakePhase(s), item.task, nowUs);
    var s3 := ExecutePhase(s2, item);
    PreemptParts(TakePhase(s), item.task, nowUs);
    ExecuteParts(s2, item);
    ResumeParts(s3, EndOf(item) + 1);
    var pe := PreemptEvents(PreemptedIn(s, nowUs), item.task, nowUs);
    var se := [Started(item.task, StartOf(item)), Ended(item.task, EndOf(item))];
    var re := ResumeEvents(ResumedIn(s, nowUs), EndOf(item) + 1);
    assert Step(s, nowUs).history == s3.history + Lines(re);
    LinesAppend(pe, se);
    LinesAppend(pe + se, re);
    AppendBatches(s.history, Lines(pe), Lines(se));
    AppendBatches(s.history, Lines(pe) + Lines(se), Lines(re));
  }

  /** The entry an iteration runs is the most urgent one queued; it starts and ends strictly after its queue timestamp, and exactly its run is counted. */
  lemma StepRunsMostUrgent(s: SchedState, nowUs: nat, id: TaskId)
    requires s.queue != []
    ensures var item := Next(s);
            && item in s.queue && (forall j :: 0 <= j < |s.queue| ==> AtLeastAsUrgent(item, s.queue[j]))
            && item.timestamp < StartOf(item) < EndOf(item)
            && EndOf(item) - StartOf(item) == Duration(item.task)
            && Step(s, nowUs).counts.Get(id) == s.counts.Get(id) + (if id == item.task then 1 else 0)
  {
    MinIndexMostUrgent(s.queue);
  }

  /** After an iteration nothing runs, the ready count has dropped by one (not below zero) and the preemption switch is as it was. */
  lemma StepEndsIdle(s: SchedState, nowUs: nat)
    requires s.queue != []
    ensures var s' := Step(s, nowUs);
            && s'.running == None
            && s'.readyCount == (if s.readyCount > 0 then s.readyCount - 1 else 0)
            && s'.preemptionEnabled == s.preemptionEnabled
            && s'.preempted == (if PreemptedIn(s, nowUs).Some? then Some(s.running.value) else s.preempted)
  {    var item := Next(s);
    var s2 := PreemptPhase(TakePhase(s), item.task, nowUs);
    var s3 := ExecutePhase(s2, item);
    PreemptParts(TakePhase(s), item.task, nowUs);
    ExecuteParts(s2, item);
    ResumeParts(s3, EndOf(item) + 1);
    assert Step(s, nowUs) == ResumePhase(s3, EndOf(item) + 1);
  }

  /**
    A preempting iteration pops the context it has just pushed, so the stack
    ends as it began; otherwise the most recent saved context, if any, is
    popped.
   */
  lemma StepStack(s: SchedState, nowUs: nat)
    requires s.queue != []
    ensures var c, r, stack := PreemptedIn(s, nowUs), ResumedIn(s, nowUs), Step(s, nowUs).stack;
            && (c.Some? <==> s.running.Some? && s.preemptionEnabled && s.running.value.Priority() < Next(s).task.Priority())
            && (c.Some? ==> r == c && stack == s.stack)
            && (c.None? && s.stack == [] ==> r.None? && stack == [])
            && (c.None? && s.stack != [] ==> r == Some(s.stack[|s.stack| - 1]) && stack + [s.stack[|s.stack| - 1]] == s.stack)
  {    var item := Next(s);
    var s2 := PreemptPhase(TakePhase(s), item.task, nowUs);
    var s3 := ExecutePhase(s2, item);
    PreemptParts(TakePhase(s), item.task, nowUs);
    ExecuteParts(s2, item);
    ResumeParts(s3, EndOf(item) + 1);
    var c := PreemptedIn(s, nowUs);
    assert Step(s, nowUs).stack == Pop(Pushed(s.stack, c));
    if c.Some? {
      assert Pushed(s.stack, c) == s.stack + [c.value];
    }
  }

  /** The queue after an iteration: the entry taken is gone, and what was preempted or popped is back in. */
  lemma StepQueue(s: SchedState, nowUs: nat)
    requires s.queue != []
    ensures multiset(Step(s, nowUs).queue) == multiset(s.queue) - multiset{Next(s)}
              + multiset(Requeue(PreemptedIn(s, nowUs), nowUs)) + multiset(Requeue(ResumedIn(s, nowUs), EndOf(Next(s)) + 1))
  {    var item := Next(s);
    var s2 := PreemptPhase(TakePhase(s), item.task, nowUs);
    var s3 := ExecutePhase(s2, item);
    PreemptParts(TakePhase(s), item.task, nowUs);
    ExecuteParts(s2, item);
    ResumeParts(s3, EndOf(item) + 1);
    assert Step(s, nowUs).queue == RemoveAt(s.queue, MinIndex(s.queue)) + Requeue(PreemptedIn(s, nowUs), nowUs)
                                   + Requeue(ResumedIn(s, nowUs), EndOf(item) + 1);
    RemoveAtMultiset(s.queue, MinIndex(s.queue));
  }

  /** A task preempted in an iteration is queued twice: once when it is preempted and once more when its context is popped. */
  lemma PreemptedTaskQueuedTwice(s: SchedState, nowUs: nat)
    requires s.queue != []
    requires s.running.Some? && s.preemptionEnabled && s.running.value.Priority() < Next(s).task.Priority()
    ensures var q, r := Step(s, nowUs).queue, s.running.value;
            q[|q| - 2..] == [QueueItem(r.Priority(), nowUs, r), QueueItem(r.Priority(), EndOf(Next(s)) + 1, r)]
  {    var item := Next(s);
    var s2 := PreemptPhase(TakePhase(s), item.task, nowUs);
    var s3 := ExecutePhase(s2, item);
    PreemptParts(TakePhase(s), item.task, nowUs);
    ExecuteParts(s2, item);
    ResumeParts(s3, EndOf(item) + 1);
    var r := s.running.value;
    var a, b := QueueItem(r.Priority(), nowUs, r), QueueItem(r.Priority(), EndOf(item) + 1, r);
    assert s2.queue == RemoveAt(s.queue, MinIndex(s.queue)) + [a];
    assert Top(s3.stack) == Some(StackItem(r, nowUs, RunningState(s.running, s.states)));
    var q := Step(s, nowUs).queue;
    assert q == s2.queue + [b];
    assert q[|q| - 2..] == [a, b];
  }

  /** An iteration that starts idle never preempts, and pops one saved context if there is one. */
  lemma IdleIterationDoesNotPreempt(s: SchedState, nowUs: nat)
    requires s.queue != [] && s.running.None?
    ensures PreemptedIn(s, nowUs).None?
    ensures |Step(s, nowUs).stack| == if s.stack == [] then 0 else |s.stack| - 1
  {    var item := Next(s);
    var s2 := PreemptPhase(TakePhase(s), item.task, nowUs);
    var s3 := ExecutePhase(s2, item);
    PreemptParts(TakePhase(s), item.task, nowUs);
    ExecuteParts(s2, item);
    ResumeParts(s3, EndOf(item) + 1);
    assert Step(s, nowUs).stack == Pop(s.stack);
  }

  /** After an iteration the popped task is ready (it wins when it is also the one that ran), the task that ran is otherwise blocked, and every other task keeps its state unless it was preempted. */
  lemma StepStates(s: SchedState, nowUs: nat, id: TaskId)
    requires s.queue != []
    ensures var c, r := PreemptedIn(s, nowUs), ResumedIn(s, nowUs);
            Step(s, nowUs).states.Get(id) ==
              if r.Some? && r.value.task == id then Ready
              else if id == Next(s).task then Blocked
              else if c.Some? && c.value.task == id then Ready
              else s.states.Get(id)
  {    var item := Next(s);
    var s2 := PreemptPhase(TakePhase(s), item.task, nowUs);
    var s3 := ExecutePhase(s2, item);
    PreemptParts(TakePhase(s), item.task, nowUs);
    ExecuteParts(s2, item);
    ResumeParts(s3, EndOf(item) + 1);
    var c, r := PreemptedIn(s, nowUs), ResumedIn(s, nowUs);
    var st1 := ReadyIf(s.states, c);
    var st2 := st1.Set(item.task, Blocked);
    assert Step(s, nowUs).states == ReadyIf(st2, r);
    if c.Some? {
      GetSet(s.states, c.value.task, Ready, id);
    }
    GetSet(st1, item.task, Blocked, id);
    if r.Some? {
      GetSet(st2, r.value.task, Ready, id);
    }
  }

  /** A signalled task of a priority above every queued entry's is the one the next iteration runs. */
  lemma SignalledTopPriorityRunsNext(s: SchedState, id: TaskId, nowUs: nat)
    requires forall j :: 0 <= j < |s.queue| ==> s.queue[j].priority < id.Priority()
    ensures var s' := Signal(s, id.Name(), nowUs);
            s'.queue != [] && Next(s') == QueueItem(id.Priority(), nowUs, id)
  {
    assert TaskNamed(id.Name()) == Some(id) by {
      TaskTableInjective(TaskNamed(id.Name()).value, id);
    }
    var q := s.queue + [QueueItem(id.Priority(), nowUs, id)];
    MinIndexMostUrgent(q);
    assert forall j :: 0 <= j < |s.queue| ==> q[j] == s.queue[j];
    assert AtLeastAsUrgent(q[MinIndex(q)], q[|s.queue|]);
    assert MinIndex(q) == |s.queue|;
  }

  /** `get_statistics()` without the CPU figure. */
  datatype RtosStatistics = RtosStatistics(totalTasks: nat, runningTasks: nat, readyTasks: nat, blockedTasks: nat)

  class RTOSSimulator {
    const log: Logger
    const shared: SharedResources
    const brake: BrakeTaskModel.BrakeTask
    const collision: CollisionTaskModel.CollisionTask
    const speed: SpeedTaskModel.SpeedTask
    var taskQueue: seq<QueueItem>
    var runningTask: Option<TaskId>
    var preemptedTask: Option<TaskId>
    var taskStack: seq<StackItem>
    var readyCount: nat
    var preemptionEnabled: bool

    /** `RTOSSimulator(logger, shared_resources, ...)`: three blocked tasks, nothing queued, nothing running, preemption on. */
    constructor(log: Logger, shared: SharedResources)
      ensures this.log == log && this.shared == shared
      ensures fresh(brake) && fresh(collision) && fresh(speed)
      ensures State() == SchedState([], None, None, [], 0, true, log.history, PerTask(Blocked, Blocked, Blocked), PerTask(0, 0, 0))
      ensures log.Valid() && shared.Valid() && NumericFields(shared.data) ==> Valid()
    {
      this.log := log;
      this.shared := shared;
      brake := new BrakeTaskModel.BrakeTask();
      collision := new CollisionTaskModel.CollisionTask();
      speed := new SpeedTaskModel.SpeedTask();
      taskQueue := [];
      runningTask := None;
      preemptedTask := None;
      taskStack := [];
      readyCount := 0;
      preemptionEnabled := true;
    }

    /** The log and the shared resources keep their invariants, and the record holds numbers where the tasks compute. */
    ghost predicate Valid()
      reads log, shared
    {
      log.Valid() && shared.Valid() && NumericFields(shared.data)
    }

    /** The scheduler's state, including what it has logged so far. */
    ghost function State(): SchedState
      reads this, log, brake, collision, speed
    {
      SchedState(taskQueue, runningTask, preemptedTask, taskStack, readyCount, preemptionEnabled,
                 log.history, States(), Counts())
    }

    /** The `state` of each task. */
    function States(): PerTask<TaskState>
      reads brake, collision, speed
    {
      PerTask(brake.state, collision.state, speed.state)
    }

    /** The `execution_count` of each task. */
    function Counts(): PerTask<int>
      reads brake, collision, speed
    {
      PerTask(brake.executionCount, collision.executionCount, speed.executionCount)
    }

    method SetState(id: TaskId, s: TaskState)
      modifies brake, collision, speed
      ensures States() == old(States()).Set(id, s)
      ensures Counts() == old(Counts())
    {
      match id
      case Brake => brake.state := s;
      case Collision => collision.state := s;
      case Speed => speed.state := s;
    }

    /** `signal_task(name)` at time `nowUs`. */
    method SignalTask(name: string, nowUs: nat)
      modifies this, brake, collision, speed
      ensures State() == Signal(old(State()), name, nowUs)
    {
      match TaskNamed(name)
      case None =>
      case Some(id) =>
        SetState(id, Ready);
        readyCount := readyCount + 1;
        taskQueue := taskQueue + [QueueItem(id.Priority(), nowUs, id)];
    }

    /** `get_current_task()`: the running task's name, or `Idle` exactly when none runs. */
    function CurrentTask(): (name: string)
      reads this
      ensures name == "Idle" <==> runningTask.None?
      ensures runningTask.Some? ==> name == runningTask.value.Name()
    {
      if runningTask.Some? then runningTask.value.Name() else "Idle"
    }

    /** How many of the three tasks are in state `s`. */
    function CountState(s: TaskState): (n: nat)
      reads brake, collision, speed
      ensures n <= 3
    {
      (if brake.state == s then 1 else 0) + (if collision.state == s then 1 else 0) + (if speed.state == s then 1 else 0)
    }

    /** `get_statistics()`: three tasks in all, at most one running, the ready and blocked tasks counted by state, and every task in one of the three states. */
    function Statistics(): (st: RtosStatistics)
      reads this, brake, collision, speed
      ensures st.totalTasks == 3 && st.runningTasks <= 1 && (st.runningTasks == 1 <==> runningTask.Some?)
      ensures st.readyTasks == CountState(Ready) && st.blockedTasks == CountState(Blocked)
      ensures st.readyTasks + st.blockedTasks + CountState(Running) == st.totalTasks
    {
      RtosStatistics(3, if runningTask.Some? then 1 else 0, CountState(Ready), CountState(Blocked))
    }

    /** The line `run_scheduler` logs before its loop. */
    method StartScheduler(nowUs: nat)
      requires Valid()
      modifies log
      ensures Valid()
      ensures State() == old(State()).(history := old(log.history) + [Line(nowUs, "SCHEDULER_START: RTOS Scheduler initialized")])
    {
      log.LogLine(nowUs, "SCHEDULER_START: RTOS Scheduler initialized");
    }

    /** One iteration of the `run_scheduler` loop at time `nowUs` (the clock the preemption line reads); an empty queue changes nothing. */
    method SchedulerStep(nowUs: nat)
      requires Valid()
      modifies this, log, shared, brake, collision, speed
      ensures Valid()
      ensures old(taskQueue) == [] ==> State() == old(State()) && unchanged(shared)
      ensures old(taskQueue) != [] ==> State() == Step(old(State()), nowUs)
      ensures old(taskQueue) != [] ==> shared.data == ProcessFor(Next(old(State())).task, old(shared.data))
      ensures old(taskQueue) != [] ==> shared.semaphores == SemaphoresAfterRun(Next(old(State())).task, old(shared.semaphores))
      ensures shared.msgQueues == old(shared.msgQueues)
    {
      if taskQueue == [] {
        return;
      }
      ghost var s0 := State();
      var item := TakeNext();
      ghost var s1 := State();
      var end := Dispatch(item, nowUs);
      ghost var s2 := State();
      ResumeLast(end + 1);
      assert s1 == TakePhase(s0) && item == Next(s0);
      assert s2 == DispatchPhase(s1, item, nowUs);
      assert State() == ResumePhase(s2, EndOf(item) + 1);
    }

    /** The taken entry's task preempts a lower-priority running task if it may, then runs. */
    method Dispatch(item: QueueItem, nowUs: nat) returns (end: nat)
      requires Valid()
      modifies this, log, shared, brake, collision, speed
      ensures Valid()
      ensures end == EndOf(item)
      ensures State() == DispatchPhase(old(State()), item, nowUs)
      ensures shared.data == ProcessFor(item.task, old(shared.data))
      ensures shared.semaphores == SemaphoresAfterRun(item.task, old(shared.semaphores))
      ensures shared.msgQueues == old(shared.msgQueues)
    {
      PreemptIfLower(item.task, nowUs);
      end := Execute(item);
    }

    /** `task_queue.get_nowait()`: the most urgent entry leaves the queue. */
    method TakeNext() returns (item: QueueItem)
      requires taskQueue != []
      modifies this
      ensures item == Next(old(State()))
      ensures State() == TakePhase(old(State()))
    {
      var i := MinIndex(taskQueue);
      item := taskQueue[i];
      taskQueue := RemoveAt(taskQueue, i);
    }

    /**
      The preemption branch: when a running task of strictly lower priority
      than `t` exists and preemption is on, it is logged as preempted, its
      context is saved, and it is made ready and queued again at `nowUs`.
     */
    method PreemptIfLower(t: TaskId, nowUs: nat)
      requires Valid()
      modifies this, log, brake, collision, speed
      ensures Valid()
      ensures State() == PreemptPhase(old(State()), t, nowUs)
    {
      if runningTask.Some? && preemptionEnabled && runningTask.value.Priority() < t.Priority() {
        var r := runningTask.value;
        log.LogLine(nowUs, "TASK_PREEMPT: " + r.Name() + " preempted by " + t.Name());
        LinesSingle(Preempted(r, t, nowUs));
        preemptedTask := Some(r);
        taskStack := taskStack + [StackItem(r, nowUs, States().Get(r))];
        SetState(r, Ready);
        taskQueue := taskQueue + [QueueItem(r.Priority(), nowUs, r)];
      }
    }

    /** The task of `item` runs: it is logged at its start and end times, its run writes the record, and it ends blocked with nothing running. */
    method Execute(item: QueueItem) returns (end: nat)
      requires Valid()
      modifies this, log, shared, brake, collision, speed
      ensures Valid()
      ensures end == EndOf(item)
      ensures State() == ExecutePhase(old(State()), item)
      ensures shared.data == ProcessFor(item.task, old(shared.data))
      ensures shared.semaphores == SemaphoresAfterRun(item.task, old(shared.semaphores))
      ensures shared.msgQueues == old(shared.msgQueues)
    {
      BeginRun(item.task, StartOf(item));
      RunTask(item.task);
      end := StartOf(item) + Duration(item.task);
      FinishRun(item.task, end);
    }

    /** The task becomes the running one and its start is logged. */
    method BeginRun(t: TaskId, start: nat)
      requires Valid()
      modifies this, log, brake, collision, speed
      ensures Valid()
      ensures State() == BeginPhase(old(State()), t, start)
    {
      runningTask := Some(t);
      SetState(t, Running);
      log.LogLine(start, "TASK_START: " + t.Name() + " - Priority: " + NatToString(t.Priority()));
      LinesSingle(Started(t, start));
    }

    /** `task.run()` of the task `t`. */
    method RunTask(t: TaskId)
      requires Valid()
      modifies shared, brake, collision, speed
      ensures Valid()
      ensures State() == RunPhase(old(State()), t)
      ensures shared.data == ProcessFor(t, old(shared.data))
      ensures shared.semaphores == SemaphoresAfterRun(t, old(shared.semaphores))
      ensures shared.msgQueues == old(shared.msgQueues)
    {
      match t
      case Brake => brake.Run(shared);
      case Collision => collision.Run(shared);
      case Speed => speed.Run(shared);
    }

    /** The end is logged, the task is blocked, nothing runs, and the ready count drops by one but not below zero. */
    method FinishRun(t: TaskId, end: nat)
      requires Valid()
      modifies this, log, brake, collision, speed
      ensures Valid()
      ensures State() == FinishPhase(old(State()), t, end)
    {
      log.LogLine(end, "TASK_END: " + t.Name());
      LinesSingle(Ended(t, end));
      SetState(t, Blocked);
      runningTask := None;
      readyCount := if readyCount > 0 then readyCount - 1 else 0;
    }

    /**
      The resume branch: when a context is saved, the most recent one is
      popped, logged as resumed at `resumeUs`, made ready and queued again.
     */
    method ResumeLast(resumeUs: nat)
      requires Valid()
      modifies this, log, brake, collision, speed
      ensures Valid()
      ensures State() == ResumePhase(old(State()), resumeUs)
    {
      if taskStack != [] {
        var top := taskStack[|taskStack| - 1];
        taskStack := taskStack[..|taskStack| - 1];
        log.LogLine(resumeUs, "TASK_RESUME: " + top.task.Name());
        LinesSingle(Resumed(top.task, resumeUs));
        SetState(top.task, Ready);
        taskQueue := taskQueue + [QueueItem(top.task.Priority(), resumeUs, top.task)];
      }
    }
  }
}
