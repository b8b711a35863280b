/**
  The deadline monitor of deadline_monitor.py: a table of per-task deadlines
  in microseconds, and the append-only lists of the runs that met their
  deadline and of those that missed it.
 */
module DeadlineMonitorModel {
  import opened Text
  import opened EventLogger

  /** The `deadlines` table a new monitor starts with: BrakeTask 50, CollisionTask 40 and SpeedTask 30 microseconds. */
  function DefaultDeadlines(): map<string, int> {
    map["BrakeTask" := 50, "CollisionTask" := 40, "SpeedTask" := 30]
  }

  /** An entry `{'task', 'execution', 'deadline'}` of `verified_tasks`. */
  datatype VerifiedRun = VerifiedRun(task: string, execution: int, deadline: int)

  /** An entry `{'task', 'execution', 'deadline', 'overage'}` of `deadline_misses`. */
  datatype Miss = Miss(task: string, execution: int, deadline: int, overage: int)

  /** What `get_statistics()` reports. */
  datatype DeadlineStats = DeadlineStats(misses: nat, verified: nat, missDetails: seq<Miss>)

  /** How many misses `get_statistics()` details at most. */
  const MissDetailCount: nat := 5

  /** The unit suffix of the monitor's lines. */
  const Micros: string := "\U{03BC}s"

  /** What `set_deadline` logs after the time stamp. */
  function DeadlineSetText(task: string, deadlineUs: int): string {
    "DEADLINE_SET: " + task + " deadline = " + IntToString(deadlineUs) + Micros
  }

  /** What `check_deadline` logs after the time stamp for a miss. */
  function DeadlineMissText(task: string, execution: int, deadline: int): string {
    "DEADLINE_MISS: " + task + " - Execution: " + IntToString(execution) + Micros + ", Deadline: "
      + IntToString(deadline) + Micros + ", Overage: " + IntToString(execution - deadline) + Micros
  }

  class DeadlineMonitor {
    const log: Logger
    var deadlines: map<string, int>
    var deadlineMisses: seq<Miss>
    var verifiedTasks: seq<VerifiedRun>

    /**
      The table always names the same three tasks, every recorded miss ran
      over its deadline by its overage, and every verified run stayed within
      its deadline.
     */
    ghost predicate Valid()
      reads this
    {
      && deadlines.Keys == DefaultDeadlines().Keys
      && (forall i :: 0 <= i < |deadlineMisses| ==>
            deadlineMisses[i].overage == deadlineMisses[i].execution - deadlineMisses[i].deadline > 0)
      && (forall i :: 0 <= i < |verifiedTasks| ==> verifiedTasks[i].execution <= verifiedTasks[i].deadline)
    }

    /** `DeadlineMonitor(logger, rtos)`: the default table, nothing recorded. */
    constructor(log: Logger)
      ensures this.log == log && deadlines == DefaultDeadlines()
      ensures deadlineMisses == [] && verifiedTasks == []
      ensures Valid()
    {
      this.log := log;
      deadlines := DefaultDeadlines();
      deadlineMisses := [];
      verifiedTasks := [];
    }

    /** `set_deadline(task_name, deadline_us)` at time `nowUs`: only a task already in the table gets a new deadline, and the change is logged. */
    method SetDeadline(taskName: string, deadlineUs: int, nowUs: nat)
      requires Valid() && log.Valid()
      modifies this, log
      ensures Valid() && log.Valid()
      ensures deadlineMisses == old(deadlineMisses) && verifiedTasks == old(verifiedTasks)
      ensures taskName in old(deadlines) ==>
        deadlines == old(deadlines)[taskName := deadlineUs] && log.history == old(log.history) + [Line(nowUs, DeadlineSetText(taskName, deadlineUs))]
      ensures taskName !in old(deadlines) ==> deadlines == old(deadlines) && log.history == old(log.history)
    {
      if taskName in deadlines {
        deadlines := deadlines[taskName := deadlineUs];
        log.LogLine(nowUs, DeadlineSetText(taskName, deadlineUs));
      }
    }

    /**
      `check_deadline(task_name, start_time_us, end_time_us)` at time `nowUs`:
      a task outside the table passes and nothing is recorded; otherwise the
      run passes exactly when it took no longer than the task's deadline, and
      exactly one of the two lists grows by that run; a miss is also logged.
     */
    method CheckDeadline(taskName: string, startUs: int, endUs: int, nowUs: nat) returns (met: bool)
      requires Valid() && log.Valid()
      modifies this, log
      ensures Valid() && log.Valid()
      ensures deadlines == old(deadlines)
      ensures taskName !in deadlines ==>
        met && deadlineMisses == old(deadlineMisses) && verifiedTasks == old(verifiedTasks) && log.history == old(log.history)
      ensures taskName in deadlines ==>
        var execution, deadline := endUs - startUs, deadlines[taskName];
        && (met <==> execution <= deadline)
        && |deadlineMisses| + |verifiedTasks| == |old(deadlineMisses)| + |old(verifiedTasks)| + 1
        && (met ==>
              && verifiedTasks == old(verifiedTasks) + [VerifiedRun(taskName, execution, deadline)]
              && deadlineMisses == old(deadlineMisses) && log.history == old(log.history))
        && (!met ==>
              && deadlineMisses == old(deadlineMisses) + [Miss(taskName, execution, deadline, execution - deadline)]
              && verifiedTasks == old(verifiedTasks)
              && log.history == old(log.history) + [Line(nowUs, DeadlineMissText(taskName, execution, deadline))])
    {
      if taskName !in deadlines {
        return true;
      }
      var execution := endUs - startUs;
      var deadline := deadlines[taskName];
      met := execution <= deadline;
      if met {
        verifiedTasks := verifiedTasks + [VerifiedRun(taskName, execution, deadline)];
      } else {
        deadlineMisses := deadlineMisses + [Miss(taskName, execution, deadline, execution - deadline)];
        log.LogLine(nowUs, DeadlineMissText(taskName, execution, deadline));
      }
    }

    /** `get_statistics()`: how many runs missed and met their deadlines, and the latest misses, at most five, oldest first. */
    function Statistics(): (st: DeadlineStats)
      reads this
      ensures st.misses == |deadlineMisses| && st.verified == |verifiedTasks|
      ensures |st.missDetails| == if |deadlineMisses| < MissDetailCount then |deadlineMisses| else MissDetailCount
      ensures st.missDetails == deadlineMisses[|deadlineMisses| - |st.missDetails|..]
    {
      DeadlineStats(|deadlineMisses|, |verifiedTasks|, if deadlineMisses != [] then Bounded(deadlineMisses, MissDetailCount) else [])
    }

    /** Every miss `get_statistics()` details ran over its deadline. */
    lemma DetailedMissesOverran()
      requires Valid()
      ensures forall m :: m in Statistics().missDetails ==> m.overage == m.execution - m.deadline > 0
    {
      var st := Statistics();
      forall m | m in st.missDetails
        ensures m.overage == m.execution - m.deadline > 0
      {
        var k :| 0 <= k < |st.missDetails| && st.missDetails[k] == m;
        assert m == deadlineMisses[|deadlineMisses| - |st.missDetails| + k];
      }
    }
  }
}
