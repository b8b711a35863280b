/**
  The task analyzer of task_analyzer.py: per-task run counts, total, minimum
  and maximum execution times, and the read-only analysis built from them.
 */
module TaskAnalyzerModel {
  import opened SeqMath

  /** The keys of `task_metrics`, in the order the table was built. */
  const TaskNames: seq<string> := ["BrakeTask", "CollisionTask", "SpeedTask"]

  /** `min`, which starts at `float('inf')` before the first run. */
  datatype MinTime = Infinite | Finite(value: int)

  /** An entry `{'runs', 'total_time', 'min', 'max'}` of `task_metrics`. */
  datatype Metrics = Metrics(runs: nat, totalTime: int, min: MinTime, max: int)

  /** The entry a task starts with. */
  const NoRuns: Metrics := Metrics(0, 0, Infinite, 0)

  /** Python's `min(m, x)` with `m` possibly infinite. */
  function MinWith(m: MinTime, x: int): MinTime {
    match m
    case Infinite => Finite(x)
    case Finite(v) => Finite(if x < v then x else v)
  }

  /** The entry after `record_execution` of a run that took `x` microseconds. */
  function Recorded(m: Metrics, x: int): Metrics {
    Metrics(m.runs + 1, m.totalTime + x, MinWith(m.min, x), if x > m.max then x else m.max)
  }

  /** `m` is the least of the samples `xs`, or infinite when there are none. */
  predicate IsMinimum(m: MinTime, xs: seq<int>) {
    if xs == [] then m == Infinite
    else m.Finite? && m.value in xs && forall i :: 0 <= i < |xs| ==> m.value <= xs[i]
  }

  /** `v` is the largest of 0 and the samples `xs`, since `max` starts at 0. */
  predicate IsMaximumFromZero(v: int, xs: seq<int>) {
    (v == 0 || v in xs) && v >= 0 && forall i :: 0 <= i < |xs| ==> xs[i] <= v
  }

  /** The entry is what the recorded samples `xs` give: their number, their sum, their least and greatest (with 0). */
  predicate Summarizes(m: Metrics, xs: seq<int>) {
    m.runs == |xs| && m.totalTime == Sum(xs) && IsMinimum(m.min, xs) && IsMaximumFromZero(m.max, xs)
  }

  /** Recording a sample keeps the entry a summary of all samples recorded so far. */
  lemma RecordedSummarizes(m: Metrics, xs: seq<int>, x: int)
    requires Summarizes(m, xs)
    ensures Summarizes(Recorded(m, x), xs + [x])
  {
    var ys := xs + [x];
    assert ys[..|ys| - 1] == xs;
    var r := Recorded(m, x);
    forall i | 0 <= i < |ys|
      ensures r.min.value <= ys[i] && ys[i] <= r.max
    {
      if i < |xs| {
        assert ys[i] == xs[i];
      }
    }
    if xs != [] && x >= m.min.value {
      var j :| 0 <= j < |xs| && xs[j] == m.min.value;
      assert ys[j] == m.min.value;
    }
    if m.max != 0 && x <= m.max {
      var j :| 0 <= j < |xs| && xs[j] == m.max;
      assert ys[j] == m.max;
    }
  }

  /** Once a task has run, its minimum is a real number no greater than its maximum. */
  lemma SummaryBounds(m: Metrics, xs: seq<int>)
    requires Summarizes(m, xs)
    ensures m.runs == 0 <==> m.min == Infinite
    ensures m.runs > 0 ==> m.min.Finite? && m.min.value <= m.max
  {
    if xs != [] {
      assert xs[0] <= m.max;
    }
  }

  /** An entry of `analyze_tasks()`, without the floating-point average and CPU share. */
  datatype Analysis =
    | NeverExecuted
    | Executed(runs: nat, totalTimeUs: int, minTimeUs: MinTime, maxTimeUs: int)

  /** The analysis of one entry: `never_executed` exactly when the task has not run. */
  function AnalysisOf(m: Metrics): (a: Analysis)
    ensures a.NeverExecuted? <==> m.runs == 0
    ensures a.Executed? ==> a.runs == m.runs && a.totalTimeUs == m.totalTime && a.minTimeUs == m.min && a.maxTimeUs == m.max
  {
    if m.runs > 0 then Executed(m.runs, m.totalTime, m.min, m.max) else NeverExecuted
  }

  class TaskAnalyzer {
    var taskMetrics: map<string, Metrics>
    /** The execution times recorded for each task, oldest first. */
    ghost var samples: map<string, seq<int>>

    /** The table names the three tasks and each entry summarizes that task's samples. */
    ghost predicate Valid()
      reads this
    {
      && taskMetrics.Keys == {"BrakeTask", "CollisionTask", "SpeedTask"}
      && samples.Keys == taskMetrics.Keys
      && forall name :: name in taskMetrics ==> Summarizes(taskMetrics[name], samples[name])
    }

    /** `TaskAnalyzer(logger, rtos)`: no task has run. */
    constructor()
      ensures Valid()
      ensures taskMetrics == map["BrakeTask" := NoRuns, "CollisionTask" := NoRuns, "SpeedTask" := NoRuns]
    {
      taskMetrics := map["BrakeTask" := NoRuns, "CollisionTask" := NoRuns, "SpeedTask" := NoRuns];
      samples := map["BrakeTask" := [], "CollisionTask" := [], "SpeedTask" := []];
    }

    /**
      `record_execution(task_name, execution_time_us)`: a known task's entry
      counts one more run of `x` microseconds; nothing else changes, and an
      unknown task changes nothing.
     */
    method RecordExecution(taskName: string, x: int)
      requires Valid()
      modifies this
      ensures Valid()
      ensures taskName !in old(taskMetrics) ==> taskMetrics == old(taskMetrics)
      ensures taskName in old(taskMetrics) ==>
        && taskMetrics == old(taskMetrics)[taskName := Recorded(old(taskMetrics)[taskName], x)]
        && samples[taskName] == old(samples)[taskName] + [x]
        && taskMetrics[taskName].runs == old(taskMetrics)[taskName].runs + 1
        && taskMetrics[taskName].totalTime == old(taskMetrics)[taskName].totalTime + x
        && taskMetrics[taskName].min.Finite? && taskMetrics[taskName].min.value <= x <= taskMetrics[taskName].max
    {
      if taskName in taskMetrics {
        var m := taskMetrics[taskName];
        RecordedSummarizes(m, samples[taskName], x);
        taskMetrics := taskMetrics[taskName := Recorded(m, x)];
        samples := samples[taskName := samples[taskName] + [x]];
      }
    }

    /** `analyze_tasks()`: one analysis per task of the table, built in the table's order; nothing changes. */
    method AnalyzeTasks() returns (analysis: map<string, Analysis>)
      requires Valid()
      ensures analysis.Keys == taskMetrics.Keys
      ensures forall name :: name in analysis ==> analysis[name] == AnalysisOf(taskMetrics[name])
      ensures forall name :: name in analysis ==> (analysis[name].NeverExecuted? <==> samples[name] == [])
    {
      analysis := map[];
      var i := 0;
      while i < |TaskNames|
        invariant 0 <= i <= |TaskNames|
        invariant analysis.Keys == set j | 0 <= j < i :: TaskNames[j]
        invariant forall name :: name in analysis ==> name in taskMetrics && analysis[name] == AnalysisOf(taskMetrics[name])
      {
        var name := TaskNames[i];
        analysis := analysis[name := AnalysisOf(taskMetrics[name])];
        i := i + 1;
      }
      assert analysis.Keys == taskMetrics.Keys by {
        assert TaskNames[0] == "BrakeTask" && TaskNames[1] == "CollisionTask" && TaskNames[2] == "SpeedTask";
      }
    }
  }
}
