# Real-Time Vehicle Sensor Management System — a Dafny model

The system simulates an interrupt-driven RTOS for a vehicle.

- **Sensors.** Three sensors (Brake, Collision, Speed) raise prioritised interrupts: INT0/7, INT1/6 and INT2/5.
- **Interrupt service.** Each interrupt service routine logs its entry and exit at fixed microsecond offsets and signals its task.
- **Scheduler.** A priority scheduler runs the three tasks (BrakeTask, CollisionTask, SpeedTask), with preemption and a LIFO resume stack.
- **Monitoring.** A deadline monitor, a task analyzer and a verifier summarise the run.
- **Logging.** Everything is written to a bounded event log whose lines carry a `[<microseconds>]` stamp.
- **Dashboards.** A web dashboard polls that log and shows it as a capped list of classified entries, with statistics of its own. It exists in three diverging versions: `static/script.js`, `static/dist/app.js` and `static/app.ts`.

The model has one module per source file. The frontend modules are:

- **`EventClassifier`:** the classification and timestamp rendering of a raw log line.
- **`LogView`:** the 50-entry log container and its three update policies.
- **`DashboardStats`:** the page's `stats` record and the figures derived from it.
- **`ScriptDashboard`, `DistDashboard`, `TsDashboard`:** the three pages.

The backend modules are:

- **`EventLogger`:** `logger.py`.
- **`SharedData`:** `shared_resources.py`.
- **`TaskModel`** and the three task modules: `tasks/*.py`.
- **`RtosSimulator`:** one iteration of `run_scheduler`, `signal_task` and the statistics.
- **`InterruptControllerModel`:** `interrupt_controller.py`.
- **`DeadlineMonitorModel`:** `deadline_monitor.py`.
- **`TaskAnalyzerModel`:** `task_analyzer.py`.
- **`RtosVerifierModel`:** `verifier.py`.
- **`Api`:** the validation, counting and clearing logic of `run.py`.

`Text`, `Wrappers` and `SeqMath` are helper modules: decimal digits, `padStart`, substring search, JavaScript `trim`, `Option`, and the sum of a sequence.

How the model treats the original's environment:

- **Stateful parts are classes.** Objects whose fields the source updates in place are classes: the logger, the shared resources, the tasks, the scheduler, the interrupt controller, the monitors, the page state and the log container.
- **Pure computations are functions.**
- **Each loop is a `method` with a `while` loop.** This covers the interrupt drain, the `analyze_tasks` loop, the poll's `forEach`, the trimming loop and the report's `forEach`. Each loop's method is proved against a specification function.
- **Clocks become parameters.** `time.time()`, `time.time_ns()` and `Date.now()` are given as integer parameters (`nowUs`, `nowMs`, `signalUs`).
- **HTTP becomes inputs.** What a request returned is an input (`events`, `outcome`, `requestThrew`, `confirmed`).

## Model

| member | source | states |
|---|---|---|
| EventClassifier.FindMarker | static/script.js:201-202 | the leftmost `[` lead digits `]` token at or after `from`: none before it, and `None` only when there is no token at all |
| EventClassifier.MarkerDigits | static/script.js:201-202 | the captured group is a non-empty run of digits |
| EventClassifier.MarkerEnd | static/script.js:235 | the token ends inside the text, on its closing bracket |
| EventClassifier.RemoveMarker | static/script.js:235 | removing a token always shortens the text |
| EventClassifier.RemoveMarkerCuts | static/script.js:235 | the replace cuts out exactly the token and the white space after it, keeping what is before and after |
| EventClassifier.FormatMicrosecondTimestamp | static/script.js:242-254 | the text is 15 characters, `HH:MM:SS.UUUUUU` with the separators in place |
| EventClassifier.FormatMicrosecondTimestampDecodes | static/script.js:242-254 | every field reads back: the fraction is `micros mod 1_000_000` in six digits, hours < 24, minutes and seconds < 60, and together they give the second of the day |
| EventClassifier.Categorize | static/script.js:207-229 | the first match in the order Brake, Collision, Speed, PREEMPT, ISR_ENTRY/ISR_EXIT, TASK_START/TASK_END, each case stated as an if-and-only-if; `info` when none matches |
| EventClassifier.Badge | static/script.js:208-229 | the badge is empty exactly for `info` entries |
| EventClassifier.EventMicros | static/script.js:201-205 | the time shown is the digits of the first `[digits]` token, and `Date.now()` in milliseconds when there is no token |
| EventClassifier.DisplayMessage | static/script.js:235 | the text is unchanged without a token; otherwise it is strictly shorter |
| EventClassifier.DisplayMessageCutsFirstToken | static/script.js:235 | only the first token and the white space after it are removed; a `[P7]` marker elsewhere stays |
| EventClassifier.StampedTextRoundTrip | static/script.js:200-235 | a backend line `[t] rest` is shown with time `t` and message `rest`, whatever `rest` contains |
| EventClassifier.CreateLogEntry | static/script.js:195-239 | the entry is keyed by its raw text, classified by `Categorize` with that category's badge (none for `info`), shows the text without its first `[digits]` token, and shows that token's time (or the clock's) as a 15-character `HH:MM:SS.UUUUUU` |
| EventClassifier.CreateDetailedLogEntry | static/dist/app.js:276-319 | the same entry as `createLogEntry`, without the `data-event` key |
| LogView.Cap | static/script.js:185-187 | the trimming loop keeps the first 50 entries: a prefix of at most 50, the whole list when it is short enough |
| LogView.PrependCapped | static/script.js:262-269 | prepending and trimming keeps the new entry first and the older entries after it in order, evicting the oldest |
| LogView.RecentWindow | static/script.js:175 | `slice(-20).reverse()`: at most 20 lines, newest first, element by element |
| LogView.LogContainer.Append | static/script.js:179 | one entry added at the end |
| LogView.LogContainer.AppendEach | static/dist/app.js:260-265 | one entry per line, in order, after the existing ones |
| LogView.LogContainer.Clear | static/dist/app.js:255 | `innerHTML = ''` leaves no entries |
| LogView.LogContainer.TrimToCap | static/script.js:185-187 | the loop removing the last child leaves `Cap` of the old entries |
| LogView.LogContainer.Prepend | static/script.js:264-269 | the new entry is first, and the container is `Cap` of it followed by the old entries |
| LogView.SystemEntry | static/app.ts:122-167 | the entry has the given level and clock and no key; without a `[P<n>]` marker there is no badge and the message is unchanged; with one, the badge is `P<n>` and the message is the trimmed text left after cutting out the first marker and the white space after it |
| LogView.SystemEntryOfMarkedMessage | static/app.ts:129-142 | `pre + "[P<p>] " + rest` shows badge `P<p>` and message `trim(pre + rest)` |
| LogView.SystemEntryOfPlainMessage | static/app.ts:129-143 | a message with no `[` gets no badge and is shown unchanged |
| DashboardStats.Sensor.Name | static/app.ts:4 | a sensor's name is one of Brake, Collision, Speed |
| DashboardStats.Sensor.Priority | static/app.ts:7-11 | a sensor's priority lies between 5 and 7 |
| DashboardStats.SensorTableInjective | static/app.ts:7-11 | distinct sensors have distinct names and distinct priorities |
| DashboardStats.ResponseOf | static/app.ts:59-67 | a response time exists exactly when a reply was decoded, and it is the elapsed time since the trigger |
| DashboardStats.Statistics.constructor | static/app.ts:14-23 | every counter is zero, the lists are empty and the clock starts at `now` |
| DashboardStats.Statistics.RecordTrigger | static/app.ts:47-67 | both totals go up by one and exactly the named sensor's counter goes up; the start time is pushed; a response time is pushed only for a decoded reply; the counters stay balanced |
| DashboardStats.Statistics.Reset | static/app.ts:334-341 | everything is zeroed and the clock restarts at `now` |
| DashboardStats.RoundHalfUp | static/app.ts:295 | `Math.round` of a non-negative rational: the nearest integer, with halves rounded up |
| DashboardStats.CpuLoad | static/app.ts:468-472 | the load is at most 100, is 0 without events, and below one second equals the event count capped at 100 |
| DashboardStats.CpuLoadIsNearestRate | static/app.ts:468-472 | below saturation the load is within one half of the events-per-second rate |
| DashboardStats.CpuLoadMonotonic | static/app.ts:468-472 | more events never lower the load |
| DashboardStats.InterruptRate | static/app.ts:262-263 | the rate times the elapsed time is 1000 times the interrupts; at zero elapsed time it is NaN or +Infinity, since there is no guard |
| DashboardStats.AverageResponse | static/app.ts:267-268 | there is no average exactly when the list is empty; otherwise the average times the count is the sum |
| DashboardStats.AverageWithinBounds | static/app.ts:267-268 | the average lies between the smallest and the largest response time |
| DashboardStats.Pad | static/app.ts:282 | at least two characters; for `n >= 0` digits that read back as `n`; for a negative `n` exactly `0-` followed by the digits of `-n` |
| DashboardStats.JsRem | static/app.ts:451-452 | JavaScript's `%`: a remainder with the sign of the dividend, below the divisor in size, leaving a multiple of the divisor |
| DashboardStats.Clock | static/app.ts:283 | at least eight characters; with minutes and seconds below 60, an `H:MM:SS` text with its two colons in place |
| DashboardStats.ClockDecodes | static/app.ts:282-283 | the three fields of the clock text read back as hours, minutes and seconds |
| DashboardStats.FormatUptime | static/app.ts:449-455 | the uptime text has at least eight characters, and shows a minus sign after its first digit exactly when the elapsed time is negative (a wall clock gone back) |
| DashboardStats.UptimeOfClockGoneBack | static/app.ts:449-455 | one millisecond behind the start shows `0-1:0-1:0-1` |
| DashboardStats.FormatUptimeDecodes | static/app.ts:449-455 | the hours are whole hours elapsed; minutes and seconds are two digits below 60; together they give the whole seconds elapsed |
| DashboardStats.UptimeFields | static/app.ts:450-452 | minutes and seconds are below 60, and the three fields make up `ms / 1000` |
| DashboardStats.FormatUptimeSeconds | static/script.js:156-161 | the script.js uptime text has at least eight characters and starts with a minus sign exactly when the uptime is negative |
| DashboardStats.UptimeSecondsGoneBack | static/script.js:156-161 | one second before the start shows `-1:-1:-1` |
| DashboardStats.UptimeFormatsAgree | static/script.js:156-161 | `formatUptime(s)` of script.js equals `formatUptime(1000 s)` of app.ts |
| DashboardStats.ToFixed2 | static/app.ts:263 | a sign exactly for negatives, then a point with two decimals |
| DashboardStats.ToFixed2Decodes | static/app.ts:263-269 | the digits read back as the nearest hundredth of the quotient |
| ScriptDashboard.LogEntryAtKeyedByLine | static/script.js:195-198 | every entry of a poll is keyed by its own line |
| ScriptDashboard.IngestStep | static/script.js:176-181 | one `forEach` step throws on an unsafe selector, skips a line already shown, and otherwise appends it |
| ScriptDashboard.IngestAbortsOnlyOnUnsafe | static/script.js:175-182 | a poll throws exactly when one of its lines cannot be put into a selector |
| ScriptDashboard.IngestAppendsFreshLines | static/script.js:175-182 | a poll only appends; each appended entry is built from a window line, and no text is appended twice or appended when already shown |
| ScriptDashboard.IngestShowsEveryLine | static/script.js:175-182 | a poll that does not throw leaves every line of its window shown |
| ScriptDashboard.IngestExtends | static/script.js:175-182 | the old entries stay as a prefix |
| ScriptDashboard.IngestAddsWindowLines | static/script.js:175-182 | every appended entry comes from a window line |
| ScriptDashboard.IngestAddsNoDuplicate | static/script.js:175-182 | no text is appended twice, and no text that was already shown is appended |
| ScriptDashboard.Page.constructor | static/script.js:1 | not paused, with an empty container |
| ScriptDashboard.Page.FetchEventLog | static/script.js:164-192 | nothing changes while paused or for an empty answer; otherwise the result is the ingest of the newest 20 lines, then the trim unless a selector threw |
| ScriptDashboard.Page.IngestWindow | static/script.js:175-182 | the loop's result is the `Ingest` specification, including whether it threw |
| ScriptDashboard.Page.AddEventLog | static/script.js:257-271 | the entry for `"[<Date.now()>] " + message` is prepended, then the container is trimmed |
| ScriptDashboard.Page.TogglePause | static/script.js:378-391 | the flag flips, and `System paused` or `System resumed` is logged |
| ScriptDashboard.CompletedPollShowsWindow | static/script.js:175-187 | a poll whose lines all fit in a selector runs to its end and shows each of the newest 20 lines before the trim |
| ScriptDashboard.AddedEntryShowsMessage | static/script.js:262 | a locally added message shows the time `nowMs` and the message itself |
| DistDashboard.Page.constructor | static/dist/app.js:19-28 | fresh statistics and an empty container, not paused |
| DistDashboard.Page.AddSystemEventLog | static/dist/app.js:121-170 | the new entry goes in front, then the container is trimmed to 50 |
| DistDashboard.Page.TriggerSensor | static/dist/app.js:36-81 | the counters move as in `RecordTrigger`; a thrown request or a failed reply logs an error; success leaves the container to a later poll |
| DistDashboard.Page.FetchAndDisplayEventLogs | static/dist/app.js:245-273 | a non-empty answer replaces the container with the newest 20 lines, newest first; an empty one leaves it alone |
| DistDashboard.Page.PollTick | static/dist/app.js:472-476 | the one-second timer does nothing while paused, and otherwise polls |
| DistDashboard.Page.ManualRefresh | static/dist/app.js:398-401 | polls even while paused |
| DistDashboard.Page.TogglePauseSystem | static/dist/app.js:403-416 | the flag flips and the container is untouched |
| DistDashboard.Page.ResetDashboard | static/dist/app.js:418-450 | only after confirmation, and only when the request does not throw: stats zeroed, clock restarted, container emptied; otherwise nothing changes |
| DistDashboard.Page.ClearLogButton | static/dist/app.js:172-194 | the container is emptied unless the request throws |
| DistDashboard.Page.CpuLoadAt | static/dist/app.js:381-391 | the load is at most 100, and 0 without events |
| TsDashboard.TriggerEntryShowsPriority | static/app.ts:57 | the trigger entry shows the sensor's priority as its badge and `Triggered <name> sensor` as its message |
| TsDashboard.SuccessEntryShowsPriority | static/app.ts:70 | the success entry shows the priority badge and `✓ <name> executed successfully` |
| TsDashboard.GetRecentEvents | static/app.ts:457-466 | `slice(0, count)` taken from the front, negative counts included, each line `[time] msg` |
| TsDashboard.ReportItemsNumberedFromOne | static/app.ts:423-429 | the report numbers the log items 1, 2, 3, … in log order |
| TsDashboard.AverageText | static/app.ts:393-395 | the text is `0 ms` exactly when there are no response times |
| TsDashboard.Page.constructor | static/app.ts:357-376 | fresh statistics, and the single entry `System initialized` |
| TsDashboard.Page.AddSystemEventLog | static/app.ts:122-175 | the new entry goes in front, then the container is trimmed to 50 |
| TsDashboard.Page.TriggerSensor | static/app.ts:33-80 | the counters move as in `RecordTrigger`; the trigger entry and then the outcome entry are prepended |
| TsDashboard.Page.LogTrigger | static/app.ts:57-78 | the trigger entry and then the outcome entry are prepended, and the container is trimmed |
| TsDashboard.Page.ClearLogButton | static/app.ts:178-189 | the container holds exactly the `Log cleared` entry |
| TsDashboard.Page.ManualRefresh | static/app.ts:307-310 | `✓ Dashboard refreshed manually` is prepended |
| TsDashboard.Page.TogglePauseSystem | static/app.ts:313-327 | the flag flips, and the paused or resumed entry is prepended |
| TsDashboard.Page.ResetDashboard | static/app.ts:330-354 | after confirmation every counter is zero, the clock restarts, and the container is exactly the two reset entries, newest first |
| TsDashboard.Page.InterruptsPerSecond | static/app.ts:262-263 | +Infinity at zero elapsed time with interrupts, and finite whenever the elapsed time is not zero |
| TsDashboard.Page.CalculateCpuLoad | static/app.ts:468-472 | the load is at most 100, and 0 without events |
| TsDashboard.Page.ExportReport | static/app.ts:379-447 | the report is the header, the numbered items of the shown entries and the footer; the two log entries it adds are prepended; a clock that went back past the start is rendered, not refused |
| TsDashboard.WriteItems | static/app.ts:420-430 | the `forEach` with `+=` builds exactly `ReportItems` |
| EventLogger.Stamp | logger.py:24-28 | a stored line always carries a stamp; an already-stamped message is stored as it is; the message is always the line's suffix |
| EventLogger.StampIdempotent | logger.py:25-28 | logging a stored line again stores it unchanged |
| EventLogger.StampedLineShowsTime | logger.py:28 | an unstamped message becomes `[now] message`, and the dashboard shows back `now` and the message |
| EventLogger.LineKept | logger.py:25-26 | a line `[t] rest` built by a component is stored verbatim |
| EventLogger.Bounded | logger.py:12 | `deque(maxlen=n)` keeps the newest `n` lines, as a suffix |
| EventLogger.BoundedSuffixAppend | logger.py:12 | bounding before more lines arrive loses nothing that the final bound would keep |
| EventLogger.Logger.constructor | logger.py:11-16 | an empty log with the given bound |
| EventLogger.Logger.Log | logger.py:18-30 | exactly one stamped line is appended at the end, the oldest is dropped once the log is full, the bound holds, and the level plays no part |
| EventLogger.Logger.LogLine | logger.py:25-30 | a line `[t] rest` is appended verbatim |
| EventLogger.Logger.GetLogs | logger.py:32-35 | the lines in logging order, with nothing changed |
| EventLogger.Logger.Clear | logger.py:37-40 | no lines remain |
| SharedData.Get | tasks/collision_task.py:29-32 | `dict.get`: the stored value, or the default when the key is missing |
| SharedData.Put | shared_resources.py:50-58 | `put_nowait` is refused exactly when 10 messages are queued, and a queue never exceeds 10 |
| SharedData.Take | shared_resources.py:60-67 | empty exactly when the queue is empty; otherwise the head and the rest |
| SharedData.QueueIsFifo | shared_resources.py:50-67 | a message put behind others comes out after them |
| SharedData.SemaphoreAfterRun | tasks/brake_task.py:21-46 | after acquire and an unconditional release, the count is unchanged when it was positive and is exactly 1 when it was 0 |
| SharedData.SharedResources.constructor | shared_resources.py:10-28 | an empty record, three semaphores at 1 and three empty queues |
| SharedData.SharedResources.WriteData | shared_resources.py:29-32 | the whole record is replaced |
| SharedData.SharedResources.ReadData | shared_resources.py:34-37 | the last record written |
| SharedData.SharedResources.AcquireSemaphore | shared_resources.py:39-43 | succeeds exactly for a known semaphore with a positive count, which drops by one; otherwise nothing changes |
| SharedData.SharedResources.ReleaseSemaphore | shared_resources.py:45-48 | a known count goes up by one; an unknown name changes nothing |
| SharedData.SharedResources.SendMessage | shared_resources.py:50-58 | False for an unknown or full queue, which is left unchanged; otherwise the message joins the back |
| SharedData.SharedResources.ReceiveMessage | shared_resources.py:60-67 | None for an unknown or empty queue; otherwise the FIFO head is removed and returned |
| TaskModel.TaskNamed | rtos_simulator.py:46-49 | the task the name selects; `None` exactly when no task has that name |
| TaskModel.TaskTableInjective | rtos_simulator.py:24-28 | distinct tasks have distinct names and priorities |
| BrakeTaskModel.Process | tasks/brake_task.py:28-33 | the written record keeps numeric fields numeric |
| BrakeTaskModel.BrakedSpeed | tasks/brake_task.py:29 | after `k` runs the speed is the starting speed minus `10 k`, but never below 0 |
| BrakeTaskModel.ProcessFields | tasks/brake_task.py:28-33 | exactly four keys: speed `max(0, speed - 10)` (never negative), temperature passed through with default 25, `Braking`, `Active` |
| BrakeTaskModel.BrakeTask.constructor | tasks/brake_task.py:6-13 | BrakeTask, priority 7, BLOCKED, WCET 50, never run |
| BrakeTaskModel.BrakeTask.Run | tasks/brake_task.py:15-49 | the count goes up by one, the record is replaced by the braked one, and `brake_sem` is acquired and released |
| CollisionTaskModel.Process | tasks/collision_task.py:28-33 | the written record keeps numeric fields numeric |
| CollisionTaskModel.ProcessIdempotent | tasks/collision_task.py:28-33 | a second collision run writes the same record |
| CollisionTaskModel.ProcessFields | tasks/collision_task.py:28-33 | exactly four keys: `Monitoring`, with speed, temperature and brake status passed through (defaults 0, 25, `Off`) |
| CollisionTaskModel.CollisionTask.constructor | tasks/collision_task.py:6-13 | CollisionTask, priority 6, BLOCKED, WCET 40, never run |
| CollisionTaskModel.CollisionTask.Run | tasks/collision_task.py:15-48 | the count goes up by one, the record is replaced, and `collision_sem` is acquired and released |
| SpeedTaskModel.Process | tasks/speed_task.py:28-33 | the written record keeps numeric fields numeric |
| SpeedTaskModel.MonitoredFields | tasks/speed_task.py:28-33 | `k` runs raise the temperature by `k / 2` and keep the other fields as the first run wrote them |
| SpeedTaskModel.ProcessFields | tasks/speed_task.py:28-33 | exactly four keys: temperature plus 0.5 (default 25); speed, collision and brake status passed through (defaults 0, `Clear`, `Off`) |
| SpeedTaskModel.SpeedTask.constructor | tasks/speed_task.py:6-13 | SpeedTask, priority 5, BLOCKED, WCET 30, never run |
| SpeedTaskModel.SpeedTask.Run | tasks/speed_task.py:15-48 | the count goes up by one, the record is replaced, and `speed_sem` is acquired and released |
| RtosSimulator.MinIndex | rtos_simulator.py:97 | the index of the entry `get_nowait` takes lies inside the queue |
| RtosSimulator.MinIndexMostUrgent | rtos_simulator.py:53 | the entry taken has the highest priority, and the earliest timestamp among equal priorities |
| RtosSimulator.RemoveAt | rtos_simulator.py:97 | taking an entry shortens the queue by one |
| RtosSimulator.RemoveAtMultiset | rtos_simulator.py:97 | taking removes exactly that entry from the queue's multiset |
| RtosSimulator.ProcessFor | rtos_simulator.py:143 | the record a task's run writes keeps numeric fields numeric |
| RtosSimulator.SemaphoreOf | tasks/brake_task.py:21 | each task's semaphore is one of the three of the shared resources |
| RtosSimulator.SemaphoresAfterRun | tasks/brake_task.py:20-46 | the acquire/release pair of a run keeps the set of semaphores, leaves the task's own at least 1 and every other one unchanged |
| RtosSimulator.PreemptedBy | rtos_simulator.py:100-115 | a context is saved exactly when a task runs, preemption is on and the running priority is strictly lower; it records the running task and the preemption time |
| RtosSimulator.ExecuteLog | rtos_simulator.py:121-150 | a run logs its TASK_START line, then its TASK_END line |
| RtosSimulator.PreemptParts | rtos_simulator.py:100-119 | the preemption branch logs, pushes, readies and re-queues the preempted task, and does nothing otherwise |
| RtosSimulator.ResumeParts | rtos_simulator.py:157-163 | the resume branch pops the newest context, logs TASK_RESUME, makes it ready and re-queues it |
| RtosSimulator.ExecuteParts | rtos_simulator.py:121-154 | a run leaves the queue, the stack and the preemption switch alone; the task ends BLOCKED and counted, and nothing runs |
| RtosSimulator.StepLog | rtos_simulator.py:97-163 | an iteration logs the preemption line if any, the start and end lines, then the resume line if any |
| RtosSimulator.StepRunsMostUrgent | rtos_simulator.py:97-150 | the task run is the most urgent queued; ts < start < end with the per-task offsets; exactly its run is counted |
| RtosSimulator.StepEndsIdle | rtos_simulator.py:152-154 | after an iteration nothing runs, `ready_count = max(0, old - 1)`, and preemption is unchanged |
| RtosSimulator.StepStack | rtos_simulator.py:100-163 | the stack after an iteration: the preempted context pushed, then the newest context popped |
| RtosSimulator.StepQueue | rtos_simulator.py:97-163 | the queue loses the entry taken, and the preempted or resumed task is back in |
| RtosSimulator.PreemptedTaskQueuedTwice | rtos_simulator.py:100-163 | a preempted task is queued once at preemption and once more when its context is popped |
| RtosSimulator.IdleIterationDoesNotPreempt | rtos_simulator.py:100-101 | an iteration that starts idle never preempts, and pops one saved context if there is one |
| RtosSimulator.StepStates | rtos_simulator.py:117-162 | the resumed task ends READY, the task run otherwise ends BLOCKED, and every other task keeps its state unless preempted |
| RtosSimulator.SignalledTopPriorityRunsNext | rtos_simulator.py:44-54 | a signalled task that outranks everything queued is the one the next iteration runs |
| RtosSimulator.RTOSSimulator.constructor | rtos_simulator.py:14-42 | three blocked tasks, nothing queued, running or stacked, and preemption on |
| RtosSimulator.RTOSSimulator.SignalTask | rtos_simulator.py:44-54 | the new state is `Signal`: an unknown name is a no-op; a known task becomes READY, is counted and is queued once |
| RtosSimulator.RTOSSimulator.CurrentTask | rtos_simulator.py:56-60 | `Idle` exactly when no task runs, and otherwise the running task's name |
| RtosSimulator.RTOSSimulator.CountState | rtos_simulator.py:73-74 | at most three tasks are in any state |
| RtosSimulator.RTOSSimulator.Statistics | rtos_simulator.py:69-82 | three tasks in all, one running exactly when a task runs, the ready and blocked counts are the numbers of tasks in those states, and the three counts add up to three |
| RtosSimulator.RTOSSimulator.StartScheduler | rtos_simulator.py:84-87 | only the SCHEDULER_START line is logged |
| RtosSimulator.RTOSSimulator.SchedulerStep | rtos_simulator.py:89-166 | an empty queue changes nothing, the shared resources included; otherwise the new state is `Step`, the record is the one the taken task writes, and only the taken task's semaphore changes, as `SemaphoreAfterRun` says; the message queues are never touched |
| RtosSimulator.RTOSSimulator.Dispatch | rtos_simulator.py:97-150 | the preemption branch, then the run: the record the task writes, only its semaphore changed, the message queues untouched |
| RtosSimulator.RTOSSimulator.TakeNext | rtos_simulator.py:97 | the most urgent entry leaves the queue and is returned |
| RtosSimulator.RTOSSimulator.PreemptIfLower | rtos_simulator.py:100-119 | the state becomes `PreemptPhase` |
| RtosSimulator.RTOSSimulator.Execute | rtos_simulator.py:121-154 | the run with its simulated start and end, returning the end time; the record the task writes, only its semaphore changed, the message queues untouched |
| RtosSimulator.RTOSSimulator.BeginRun | rtos_simulator.py:122-140 | the task becomes RUNNING and its start is logged |
| RtosSimulator.RTOSSimulator.RunTask | rtos_simulator.py:143 | the task's `run()` writes its record and is counted; only its own semaphore changes, as `SemaphoresAfterRun` gives it, and the message queues stay as they were |
| RtosSimulator.RTOSSimulator.FinishRun | rtos_simulator.py:149-154 | the end is logged, the task is BLOCKED, nothing runs, and the ready count drops but not below 0 |
| RtosSimulator.RTOSSimulator.ResumeLast | rtos_simulator.py:156-163 | the newest saved context, if any, is popped, logged, made READY and re-queued |
| InterruptControllerModel.SensorNamed | interrupt_controller.py:21-25 | the sensor the name selects; `None` exactly for unknown names |
| InterruptControllerModel.IsrFor | interrupt_controller.py:28-32 | the ISR of an interrupt number; `None` exactly for numbers without one |
| InterruptControllerModel.InterruptMapConsistent | interrupt_controller.py:21-32 | the sensor table and the ISR table agree, and the interrupt priority is the task priority |
| InterruptControllerModel.NextIndex | interrupt_controller.py:73 | the index of the entry taken lies inside the queue |
| InterruptControllerModel.NextIndexFirst | interrupt_controller.py:63 | the entry taken is first in `(-priority, number, name, timestamp)` order |
| InterruptControllerModel.Without | interrupt_controller.py:73 | taking removes exactly that entry |
| InterruptControllerModel.ServiceOrderPermutes | interrupt_controller.py:69-91 | draining serves every queued interrupt exactly once |
| InterruptControllerModel.ServiceOrderSorted | interrupt_controller.py:69-91 | draining serves in tuple order: highest priority first, then by INT number |
| InterruptControllerModel.IsrEntry | interrupt_controller.py:93-158 | the ISR entry comes strictly after the interrupt |
| InterruptControllerModel.IsrExit | interrupt_controller.py:93-158 | the ISR exit comes strictly after the entry |
| InterruptControllerModel.LoneInterruptServed | interrupt_controller.py:45-91 | a single interrupt is served alone: its two ISR lines, its own task signalled, t < entry < exit |
| InterruptControllerModel.InterruptController.constructor | interrupt_controller.py:11-32 | nothing counted or queued, no RTOS, interrupts enabled |
| InterruptControllerModel.InterruptController.SetRtos | interrupt_controller.py:34-35 | only the RTOS reference changes |
| InterruptControllerModel.InterruptController.SetInterruptEnabled | interrupt_controller.py:37-43 | the flag is set, and one ENABLE or DISABLE line is logged |
| InterruptControllerModel.InterruptController.Isr | interrupt_controller.py:93-158 | the ENTRY and EXIT lines, with the task's own signal between them |
| InterruptControllerModel.InterruptController.Dispatch | interrupt_controller.py:76-88 | the push and pop leave `isr_stack` as it was; the ISR of the number runs, and an unknown number does nothing |
| InterruptControllerModel.InterruptController.ServeNext | interrupt_controller.py:71-88 | the most urgent entry leaves the queue and is dispatched |
| InterruptControllerModel.InterruptController.ProcessInterrupts | interrupt_controller.py:69-91 | when enabled the queue is drained in `ServiceOrder` with every ISR logged and signalled; when disabled nothing happens |
| InterruptControllerModel.InterruptController.TriggerInterrupt | interrupt_controller.py:45-67 | disabled: a result with nothing changed; unknown sensor: an error with nothing changed; otherwise the count goes up by one, the INTERRUPT line is logged, and the queue is drained |
| DeadlineMonitorModel.DeadlineMonitor.constructor | deadline_monitor.py:10-20 | deadlines Brake 50, Collision 40, Speed 30, and empty lists |
| DeadlineMonitorModel.DeadlineMonitor.SetDeadline | deadline_monitor.py:22-27 | only a task already in the table changes, and DEADLINE_SET is logged; otherwise nothing changes |
| DeadlineMonitorModel.DeadlineMonitor.CheckDeadline | deadline_monitor.py:29-60 | True for an unknown task, with nothing recorded; otherwise True iff `end - start <= deadline`, and exactly one list grows; a miss records a positive overage and logs DEADLINE_MISS |
| DeadlineMonitorModel.DeadlineMonitor.Statistics | deadline_monitor.py:71-78 | the list lengths, and the last five misses or fewer |
| DeadlineMonitorModel.DeadlineMonitor.DetailedMissesOverran | deadline_monitor.py:47-52 | every reported miss has overage = execution − deadline > 0 |
| TaskAnalyzerModel.RecordedSummarizes | task_analyzer.py:18-25 | recording `x` keeps the metrics equal to the count, sum, minimum and maximum of the samples |
| TaskAnalyzerModel.SummaryBounds | task_analyzer.py:18-25 | min is infinite exactly when there are no runs, and otherwise min ≤ max |
| TaskAnalyzerModel.AnalysisOf | task_analyzer.py:31-43 | `never_executed` iff runs = 0; otherwise runs, total, min and max are copied |
| TaskAnalyzerModel.TaskAnalyzer.constructor | task_analyzer.py:9-16 | three tasks with no runs |
| TaskAnalyzerModel.TaskAnalyzer.RecordExecution | task_analyzer.py:18-25 | an unknown task changes nothing; otherwise only that task changes: runs + 1, total + x, min ≤ x ≤ max |
| TaskAnalyzerModel.TaskAnalyzer.AnalyzeTasks | task_analyzer.py:27-45 | one analysis per task, `AnalysisOf` its metrics, `never_executed` iff no sample was recorded |
| RtosVerifierModel.PriorityOrder | verifier.py:14-30 | always verified, with no violations |
| RtosVerifierModel.DeadlineCompliance | verifier.py:32-39 | compliant iff there are no misses; the counts are copied |
| RtosVerifierModel.DeadlockFree | verifier.py:41-47 | always deadlock-free |
| RtosVerifierModel.Wcet | verifier.py:49-65 | always compliant, with no violations |
| RtosVerifierModel.Preemption | verifier.py:67-75 | counts the TASK_PREEMPT lines; the details are the last five or fewer of them |
| RtosVerifierModel.Status | verifier.py:91-96 | ISSUES_FOUND iff some consulted value is falsy, and VERIFIED iff all pass |
| RtosVerifierModel.ConsultedStatus | verifier.py:92-96 | with the constant checks passing, the status fails iff the `verified` count is zero |
| RtosVerifierModel.StatusFollowsVerifiedCount | verifier.py:77-100 | ISSUES_FOUND iff no task has been verified, even with zero misses |
| RtosVerifierModel.Verifier.constructor | verifier.py:9-12 | holds the logger and the monitor |
| RtosVerifierModel.Verifier.VerifyAll | verifier.py:77-100 | the report of the sub-checks, ISSUES_FOUND iff no task has been verified, and exactly one VERIFICATION_COMPLETE line |
| Api.ValidSensorsMapped | run.py:59-61 | the names the route accepts are exactly the controller's sensors |
| Api.TriggerSensor | run.py:55-72 | 400 iff the name is not a sensor, and then the controller is untouched; otherwise success, whose result is disabled or triggered as interrupts are disabled or enabled. Disabled: nothing changes. Triggered: the count rises by one, the trigger line and the ISR lines of the service order are logged, the queue is drained and the RTOS is signalled in that order |
| Api.EventCount | run.py:114-116 | no more events than lines |
| Api.EventCountAppend | run.py:114-116 | one more line adds one exactly when it names the sensor and `INTERRUPT:` |
| Api.TriggerLineCountedOwn | run.py:114-116 | an INTERRUPT line counts for its own sensor |
| Api.TriggerLineNotCountedOther | run.py:115-116 | an INTERRUPT line does not count for another sensor |
| Api.TriggerLineCounted | run.py:114-116 | an INTERRUPT line counts for sensor `k` iff `k` is its own sensor |
| Api.IsrLinesNotCounted | run.py:114-116 | ISR_ENTRY and ISR_EXIT lines are never counted |
| Api.SchedulerLineNotCounted | run.py:114-116 | scheduler lines (start, end, preempt, resume) are never counted |
| Api.SystemEventStats | run.py:112-124 | the three counts, their total, the interrupt count, an average of 5, and the rate `interrupt_count / max(uptime, 1)` as the fraction `rateNum / rateDen` in microseconds: the divisor is the larger of the uptime and one second, so the rate never exceeds the interrupt count |
| Api.ClearedLineKept | run.py:179-180 | the cleared line is stored verbatim and fits any positive bound |
| Api.ClearLog | run.py:175-183 | the log is exactly `["[SYSTEM] Event log cleared"]` |

## Left out

- HTTP is not modelled: the Flask routes, `jsonify`, status 500 handlers and every `fetch`/`await`. What a request returned is an input of the method.
- The DOM is not modelled. This covers `animateCarForSensor`, `updateCarStatus`, button wiring, `setInterval`/`setTimeout` scheduling, `confirm`, and badge markup beyond the category tag.
- script.js `triggerSensor`, `fetchSensorData`, `fetchSystemStats`, `checkHealth`, `downloadLogs`, `clearEventLog` and `exportEventLog` are left out: they only fetch, set DOM text or download. The local entries they add go through `AddEventLog`, which is modelled.
- script.js `clearData` is left out: after its request it replaces the `system-events-log` container with a single placeholder `System initialized` entry.
- Blob downloads and `Logger.export_logs` (file I/O) are left out. Only the report text of `exportToPPT` is modelled.
- Threads, locks, semaphore blocking and queue timeouts are left out. So are the `run_scheduler` infinite loop and its exception handler, and `monitor_deadlines`. One scheduler iteration is modelled as a sequential method.
- Busy-wait loops on `time.perf_counter` and the ISR busy wait are left out; they have no observable effect besides time.
- Clocks are parameters. In one drain of `process_interrupts`, every signal of `signal_task` reads one shared clock value `signalUs`.
- The ISRs' `entry_timestamp is None` default is not modelled: `process_interrupts` always passes a timestamp.
- Floating point is left out: `get_cpu_usage`, `total_execution_time`, `avg_time_us`, `cpu_percentage`, and the two-place rounding of `interrupts_per_sec`.
- `Api.SystemEventStats` gives the interrupt rate as an exact fraction. It does not round it to two places.
- DashboardStats.FormatUptimeSeconds: takes a whole number of seconds. script.js receives the backend's float uptime (`time.time() - start_time`). For a non-negative uptime this renders the same text as its floor. A negative fractional uptime, after the wall clock went back, is not modelled: `-0.5` shows `-1:-1:-1` and `-59.5` shows `-1:-1:-60`, while the whole seconds `-1` and `-60` give `-1:-1:-1` and `-1:-1:00`.
- EventClassifier.EventMicros: reads the `[digits]` token as an exact natural number. `parseInt` gives a double, which is exact only below 2^53 microseconds (about the year 2255), and a token too long for a double parses as `Infinity`.
- EventClassifier.FormatMicrosecondTimestamp: exact integer arithmetic. The double arithmetic of script.js is exact only below 2^53 microseconds. The `NaN` texts it shows for a time past what `Date` accepts (8.64e18 microseconds), or for an `Infinity` parse (`000NaN` as the fraction), are not modelled.
- EventClassifier.CreateLogEntry: the message is kept as plain text. script.js writes it through `innerHTML`, so markup in a log line would be parsed as HTML.
- `toFixed(2)` and `Math.round` are modelled on exact rationals, rounding halves away from zero, rather than on doubles.
- Local time is taken as UTC in `FormatMicrosecondTimestamp`. `toLocaleTimeString` is a string parameter (`clock`).
- When two entries of the task queue tie on priority and timestamp, Python compares the task objects themselves. The model takes the first such entry instead.
- `verify_priority_order`'s exception path is left out, because `get_logs` cannot raise in the model.
- `get_sensor_data`, `get_event_log`, `get_task_analysis`, `verify_rtos` and `export_log` in run.py are pass-throughs to modelled members.
- The `ValueError` of an unknown sensor in `trigger_interrupt` is the `UnknownSensor` outcome.
- `health_check` and the page routes return constants and are left out.
- ScriptDashboard.SelectorSafe: script.js `querySelector('[data-event="<text>"]')` usually throws on a text holding a double quote, a line break or a form feed, and `SelectorSafe` counts every such text, and a text with a backslash, as throwing; `Ingest` then ends the poll. The browser differs in three cases the model does not follow:
  - a double quote can close the attribute and open a second valid selector: `x"],[data-event="y` gives a valid selector list, which does not throw and matches on other keys;
  - a backslash starts a CSS escape: the lookup does not throw and usually misses, so the line is appended again on every poll;
  - a NUL character is read as U+FFFD: the lookup misses, so the line is appended again on every poll, where the model finds it by its text and appends it once.

  The backend's own lines contain no backslash and no NUL.
- RtosSimulator.RTOSSimulator.constructor: the `start_time` clock and `cpu_usage` are not modelled.
- TaskAnalyzerModel.TaskAnalyzer.AnalyzeTasks: the `avg_time_us` and `cpu_percentage` strings are not produced, because they are float formatting.
