/**
  The verifier of verifier.py: five checks over the event log and the
  deadline statistics, and the overall status `verify_all` derives from
  their `verified` and `compliant` entries.
 */
module RtosVerifierModel {
  import opened Wrappers
  import opened Text
  import opened EventLogger
  import opened DeadlineMonitorModel

  /** What `verify_priority_order()` returns when `get_logs` does not raise. */
  datatype PriorityOrderResult = PriorityOrderResult(verified: bool, violations: seq<string>)

  /** What `verify_deadline_compliance()` returns. */
  datatype DeadlineComplianceResult = DeadlineComplianceResult(compliant: bool, misses: nat, verified: nat)

  /** What `verify_deadlock_free()` returns. */
  datatype DeadlockFreeResult = DeadlockFreeResult(deadlockFree: bool, reason: string)

  /** What `verify_wcet()` returns. */
  datatype WcetResult = WcetResult(compliant: bool, violations: seq<string>)

  /** What `verify_preemption()` returns. */
  datatype PreemptionResult = PreemptionResult(preemptionsDetected: nat, details: seq<string>)

  /** The dictionary `verify_all()` returns. */
  datatype Report = Report(
    timestamp: nat,
    priorityOrder: PriorityOrderResult,
    deadlineCompliance: DeadlineComplianceResult,
    deadlockFree: DeadlockFreeResult,
    wcetCompliance: WcetResult,
    preemption: PreemptionResult,
    overallStatus: string)

  /** The per-task worst-case execution times of `verify_wcet`, in microseconds. */
  function WcetTable(): map<string, int> {
    map["BrakeTask" := 50, "CollisionTask" := 40, "SpeedTask" := 30]
  }

  /** `verify_priority_order()`: its loop over the log looks at no line, so it always passes with no violations. */
  function PriorityOrder(logs: seq<string>): (r: PriorityOrderResult)
    ensures r.verified && r.violations == []
  {
    PriorityOrderResult(true, [])
  }

  /** `verify_deadline_compliance()`: compliant exactly when no run missed its deadline. */
  function DeadlineCompliance(stats: DeadlineStats): (r: DeadlineComplianceResult)
    ensures r.compliant <==> stats.misses == 0
    ensures r.misses == stats.misses && r.verified == stats.verified
  {
    DeadlineComplianceResult(stats.misses == 0, stats.misses, stats.verified)
  }

  /** `verify_deadlock_free()`: always deadlock-free. */
  function DeadlockFree(): (r: DeadlockFreeResult)
    ensures r.deadlockFree
  {
    DeadlockFreeResult(true, "Simple priority queue - no complex locks")
  }

  /** `verify_wcet()`: its loop over the table records nothing, so it always complies. */
  function Wcet(): (r: WcetResult)
    ensures r.compliant && r.violations == []
  {
    WcetResult(true, [])
  }

  /** A line that reports a preemption. */
  predicate IsPreemptionLine(line: string) {
    Contains(line, "TASK_PREEMPT")
  }

  /** `verify_preemption()`: how many lines report a preemption, and the latest five of them, oldest first. */
  function Preemption(logs: seq<string>): (r: PreemptionResult)
    ensures r.preemptionsDetected == |Filter(logs, IsPreemptionLine)| <= |logs|
    ensures |r.details| <= 5 && |r.details| <= r.preemptionsDetected
    ensures r.details == Filter(logs, IsPreemptionLine)[r.preemptionsDetected - |r.details|..]
    ensures r.preemptionsDetected <= 5 ==> r.details == Filter(logs, IsPreemptionLine)
    ensures forall line :: line in r.details ==> IsPreemptionLine(line) && line in logs
  {
    var p := Filter(logs, IsPreemptionLine);
    PreemptionResult(|p|, if p != [] then Bounded(p, 5) else [])
  }

  /** A value stored under `verified` or `compliant`: a boolean or a count. */
  datatype Value = Flag(b: bool) | Count(n: nat)

  /** Python's truth value of such a value. */
  predicate Truthy(v: Value) {
    match v
    case Flag(b) => b
    case Count(n) => n != 0
  }

  /** The `verified` and `compliant` entries of one sub-result, where present. */
  datatype Entries = Entries(verified: Option<Value>, compliant: Option<Value>)

  /** `v.get('verified', v.get('compliant', True))` is true: `verified` decides when present, then `compliant`. */
  predicate Passes(e: Entries) {
    Truthy(e.verified.GetOr(e.compliant.GetOr(Flag(true))))
  }

  /** The entries `verify_all` consults in each dictionary of the report, in the report's order; the timestamp is no dictionary and is skipped. */
  function Consulted(r: Report): seq<Entries> {
    [ Entries(Some(Flag(r.priorityOrder.verified)), None),
      Entries(Some(Count(r.deadlineCompliance.verified)), Some(Flag(r.deadlineCompliance.compliant))),
      Entries(None, None),
      Entries(None, Some(Flag(r.wcetCompliance.compliant))),
      Entries(None, None) ]
  }

  /** `ISSUES_FOUND` when some consulted dictionary fails, `VERIFIED` otherwise. */
  function Status(entries: seq<Entries>): (s: string)
    ensures s == "ISSUES_FOUND" <==> exists i :: 0 <= i < |entries| && !Passes(entries[i])
    ensures s == "VERIFIED" <==> forall i :: 0 <= i < |entries| ==> Passes(entries[i])
  {
    if exists i :: 0 <= i < |entries| && !Passes(entries[i]) then "ISSUES_FOUND" else "VERIFIED"
  }

  /** The report of `verify_all()` at time `nowUs` over the log lines `logs` and the deadline statistics `stats`. */
  function VerifyAllReport(nowUs: nat, logs: seq<string>, stats: DeadlineStats): Report {
    var r := Report(nowUs, PriorityOrder(logs), DeadlineCompliance(stats), DeadlockFree(), Wcet(), Preemption(logs), "VERIFIED");
    r.(overallStatus := Status(Consulted(r)))
  }

  /** With the priority and WCET checks passing, a report fails exactly when its deadline check counts no verified run. */
  lemma ConsultedStatus(r: Report)
    requires r.priorityOrder.verified && r.wcetCompliance.compliant
    ensures Status(Consulted(r)) == "ISSUES_FOUND" <==> r.deadlineCompliance.verified == 0
  {
    var e := Consulted(r);
    if r.deadlineCompliance.verified == 0 {
      assert !Passes(e[1]);
    } else {
      assert Passes(e[0]) && Passes(e[1]) && Passes(e[2]) && Passes(e[3]) && Passes(e[4]);
      assert forall i :: 0 <= i < |e| ==> Passes(e[i]);
    }
  }

  /**
    Since `verified` of the deadline check holds the count of runs that met
    their deadline, the status is `ISSUES_FOUND` exactly when no run has met
    its deadline yet, whatever the number of misses; the log plays no part.
   */
  lemma StatusFollowsVerifiedCount(nowUs: nat, logs: seq<string>, stats: DeadlineStats)
    ensures VerifyAllReport(nowUs, logs, stats).overallStatus == "ISSUES_FOUND" <==> stats.verified == 0
    ensures VerifyAllReport(nowUs, logs, stats).overallStatus == "VERIFIED" <==> stats.verified > 0
  {
    var r0 := Report(nowUs, PriorityOrder(logs), DeadlineCompliance(stats), DeadlockFree(), Wcet(), Preemption(logs), "VERIFIED");
    ConsultedStatus(r0);
  }

  /** The line `verify_all()` logs. */
  function CompletionText(status: string): string {
    "VERIFICATION_COMPLETE: Status = " + status
  }

  class Verifier {
    const log: Logger
    const monitor: DeadlineMonitor

    /** `Verifier(logger, rtos, deadline_monitor)`. */
    constructor(log: Logger, monitor: DeadlineMonitor)
      ensures this.log == log && this.monitor == monitor
    {
      this.log := log;
      this.monitor := monitor;
    }

    /**
      `verify_all()` at time `nowUs`: the report over the lines the log holds
      and the monitor's statistics, then exactly one line with its status
      appended to the log.
     */
    method VerifyAll(nowUs: nat) returns (r: Report)
      requires log.Valid()
      modifies log
      ensures log.Valid()
      ensures r == VerifyAllReport(nowUs, old(log.logs), monitor.Statistics())
      ensures r.overallStatus == "ISSUES_FOUND" <==> monitor.Statistics().verified == 0
      ensures log.history == old(log.history) + [Line(nowUs, CompletionText(r.overallStatus))]
    {
      var logs := log.GetLogs();
      var stats := monitor.Statistics();
      r := Report(nowUs, PriorityOrder(logs), DeadlineCompliance(stats), DeadlockFree(), Wcet(), Preemption(logs), "VERIFIED");
      ConsultedStatus(r);
      if Status(Consulted(r)) == "ISSUES_FOUND" {
        r := r.(overallStatus := "ISSUES_FOUND");
      }
      log.LogLine(nowUs, CompletionText(r.overallStatus));
    }
  }
}
