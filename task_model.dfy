/**
  What the three task modules and the scheduler share: the task states and
  the identities of the three tasks, as the scheduler's `tasks` table names
  them.
 */
module TaskModel {
  import opened Wrappers

  /** The `state` strings `"BLOCKED"`, `"READY"` and `"RUNNING"`. */
  datatype TaskState = Blocked | Ready | Running

  /** The three tasks of the `tasks` table. */
  datatype TaskId = Brake | Collision | Speed {
    /** The key of the table and the task's `name`. */
    function Name(): string {
      match this
      case Brake => "BrakeTask"
      case Collision => "CollisionTask"
      case Speed => "SpeedTask"
    }

    /** The task's fixed `priority`: 7, 6 and 5. */
    function Priority(): nat {
      match this
      case Brake => 7
      case Collision => 6
      case Speed => 5
    }
  }

  /** `task_name in self.tasks`, and which task it names. */
  function TaskNamed(name: string): (t: Option<TaskId>)
    ensures t.Some? ==> t.value.Name() == name
    ensures t.None? ==> forall id: TaskId :: id.Name() != name
  {
    if name == "BrakeTask" then Some(Brake)
    else if name == "CollisionTask" then Some(Collision)
    else if name == "SpeedTask" then Some(Speed)
    else None
  }

  /** Distinct tasks have distinct names and distinct priorities. */
  lemma TaskTableInjective(a: TaskId, b: TaskId)
    ensures a.Name() == b.Name() <==> a == b
    ensures a.Priority() == b.Priority() <==> a == b
  {
    if a != b {
      assert a.Name()[0] != b.Name()[0];
    }
  }
}
