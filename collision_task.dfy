/** tasks/collision_task.py: the collision monitor, which marks the record as monitored. */
module CollisionTaskModel {
  import opened SharedData
  import opened TaskModel

  /** The record a collision run writes: speed, temperature and brake status kept (with their defaults), the collision status `Monitoring`. */
  function Process(data: Record): (r: Record)
    ensures NumericFields(data) ==> NumericFields(r)
  {
    map["speed" := Get(data, "speed", Num(0.0)),
        "temperature" := Get(data, "temperature", Num(25.0)),
        "collision_status" := Text("Monitoring"),
        "brake_status" := Get(data, "brake_status", Text("Off"))]
  }

  /** A second collision run writes the same record as the first. */
  lemma ProcessIdempotent(data: Record)
    ensures Process(Process(data)) == Process(data)
  {
    var r := Process(data);
    ProcessFields(data);
    ProcessFields(r);
    assert forall k :: k in r ==> Process(r)[k] == r[k];
  }

  /** A collision run writes exactly the four task fields: speed, temperature and brake status carried over (or defaulted), the collision status monitoring. */
  lemma ProcessFields(data: Record)
    ensures Process(data).Keys == RecordKeys
    ensures var r := Process(data);
            "speed" in r && "temperature" in r && "collision_status" in r && "brake_status" in r
            && r["speed"] == Get(data, "speed", Num(0.0))
            && r["temperature"] == Get(data, "temperature", Num(25.0))
            && r["brake_status"] == Get(data, "brake_status", Text("Off"))
            && r["collision_status"] == Text("Monitoring")
  {
  }

  class CollisionTask {
    const name: string := "CollisionTask"
    const priority: nat := 6
    var state: TaskState
    const wcetUs: nat := 40
    var executionCount: nat

    /** `CollisionTask(...)`: priority 6, blocked, 40 µs worst case, never run. */
    constructor()
      ensures name == Collision.Name() && priority == Collision.Priority() && priority == 6
      ensures state == Blocked && wcetUs == 40 && executionCount == 0
    {
      state := Blocked;
      executionCount := 0;
    }

    /** `run()`: counts the run, takes and gives back `collision_sem`, and overwrites the record. */
    method Run(shared: SharedResources)
      requires shared.Valid() && NumericFields(shared.data)
      modifies this, shared
      ensures executionCount == old(executionCount) + 1 && state == old(state)
      ensures shared.data == Process(old(shared.data))
      ensures shared.semaphores == old(shared.semaphores)["collision_sem" := SemaphoreAfterRun(old(shared.semaphores)["collision_sem"])]
      ensures shared.msgQueues == old(shared.msgQueues)
      ensures shared.Valid() && NumericFields(shared.data)
    {
      executionCount := executionCount + 1;
      var _ := shared.AcquireSemaphore("collision_sem");
      var data := shared.ReadData();
      shared.WriteData(Process(data));
      shared.ReleaseSemaphore("collision_sem");
    }
  }
}
