/** tasks/speed_task.py: the speed monitor, which warms the recorded temperature by half a degree a run. */
module SpeedTaskModel {
  import opened SharedData
  import opened TaskModel

  /** The temperature the record shows, `data.get('temperature', 25)`. */
  function TemperatureOf(data: Record): real
    requires NumericFields(data)
  {
    Get(data, "temperature", Num(25.0)).n
  }

  /** The record a speed run writes: the temperature up by exactly 0.5, every other field kept (with its default). */
  function Process(data: Record): (r: Record)
    requires NumericFields(data)
    ensures NumericFields(r)
  {
    map["speed" := Get(data, "speed", Num(0.0)),
        "temperature" := Num(TemperatureOf(data) + 0.5),
        "collision_status" := Get(data, "collision_status", Text("Clear")),
        "brake_status" := Get(data, "brake_status", Text("Off"))]
  }

  /** The record after `k` speed runs in a row. */
  function Monitored(data: Record, k: nat): (r: Record)
    requires NumericFields(data)
    ensures NumericFields(r)
  {
    if k == 0 then data else Process(Monitored(data, k - 1))
  }

  /** `k` runs raise the temperature by `k / 2` degrees and leave the other fields as the first run wrote them. */
  lemma {:induction false} MonitoredFields(data: Record, k: nat)
    requires NumericFields(data) && k >= 1
    ensures TemperatureOf(Monitored(data, k)) == TemperatureOf(data) + 0.5 * k as real
    ensures var r, first := Monitored(data, k), Process(data);
            r["speed"] == first["speed"] && r["collision_status"] == first["collision_status"]
            && r["brake_status"] == first["brake_status"]
  {
    if k > 1 {
      MonitoredFields(data, k - 1);
    }
  }

  /** A speed run writes exactly the four task fields: the temperature up by 0.5, the other three carried over (or defaulted). */
  lemma ProcessFields(data: Record)
    requires NumericFields(data)
    ensures Process(data).Keys == RecordKeys
    ensures var r := Process(data);
            "speed" in r && "temperature" in r && "collision_status" in r && "brake_status" in r
            && TemperatureOf(r) - TemperatureOf(data) == 0.5
            && r["speed"] == Get(data, "speed", Num(0.0))
            && r["collision_status"] == Get(data, "collision_status", Text("Clear"))
            && r["brake_status"] == Get(data, "brake_status", Text("Off"))
  {
  }

  class SpeedTask {
    const name: string := "SpeedTask"
    const priority: nat := 5
    var state: TaskState
    const wcetUs: nat := 30
    var executionCount: nat

    /** `SpeedTask(...)`: priority 5, blocked, 30 µs worst case, never run. */
    constructor()
      ensures name == Speed.Name() && priority == Speed.Priority() && priority == 5
      ensures state == Blocked && wcetUs == 30 && executionCount == 0
    {
      state := Blocked;
      executionCount := 0;
    }

    /** `run()`: counts the run, takes and gives back `speed_sem`, and overwrites the record. */
    method Run(shared: SharedResources)
      requires shared.Valid() && NumericFields(shared.data)
      modifies this, shared
      ensures executionCount == old(executionCount) + 1 && state == old(state)
      ensures shared.data == Process(old(shared.data))
      ensures shared.semaphores == old(shared.semaphores)["speed_sem" := SemaphoreAfterRun(old(shared.semaphores)["speed_sem"])]
      ensures shared.msgQueues == old(shared.msgQueues)
      ensures shared.Valid() && NumericFields(shared.data)
    {
      executionCount := executionCount + 1;
      var _ := shared.AcquireSemaphore("speed_sem");
      var data := shared.ReadData();
      shared.WriteData(Process(data));
      shared.ReleaseSemaphore("speed_sem");
    }
  }
}
