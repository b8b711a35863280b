/** tasks/brake_task.py: the highest-priority task, which brakes the vehicle by 10 speed units a run. */
module BrakeTaskModel {
  import opened SharedData
  import opened TaskModel

  /** `max(a, b)` on numbers. */
  function RealMax(a: real, b: real): (m: real)
    ensures m >= a && m >= b && (m == a || m == b)
  {
    if a >= b then a else b
  }

  /** The speed the record shows, `data.get('speed', 0)`. */
  function SpeedOf(data: Record): real
    requires NumericFields(data)
  {
    Get(data, "speed", Num(0.0)).n
  }

  /** The record a brake run writes: the speed down by 10 but not below 0, temperature kept, the vehicle braking. */
  function Process(data: Record): (r: Record)
    requires NumericFields(data)
    ensures NumericFields(r)
  {
    map["speed" := Num(RealMax(0.0, SpeedOf(data) - 10.0)),
        "temperature" := Get(data, "temperature", Num(25.0)),
        "collision_status" := Text("Braking"),
        "brake_status" := Text("Active")]
  }

  /** The record after `k` brake runs in a row. */
  function Braked(data: Record, k: nat): (r: Record)
    requires NumericFields(data)
    ensures NumericFields(r)
  {
    if k == 0 then data else Process(Braked(data, k - 1))
  }

  /** After `k >= 1` runs the speed is the starting speed less `10 k`, never below 0. */
  lemma {:induction false} BrakedSpeed(data: Record, k: nat)
    requires NumericFields(data) && k >= 1
    ensures SpeedOf(Braked(data, k)) == RealMax(0.0, SpeedOf(data) - 10.0 * k as real)
  {
    if k > 1 {
      BrakedSpeed(data, k - 1);
    }
  }

  /** A brake run writes exactly the four task fields: the speed down by 10 but not below 0, the temperature kept, the vehicle braking. */
  lemma ProcessFields(data: Record)
    requires NumericFields(data)
    ensures Process(data).Keys == RecordKeys
    ensures var r := Process(data);
            "speed" in r && "temperature" in r && "collision_status" in r && "brake_status" in r
            && r["speed"].n >= 0.0 && r["speed"].n >= SpeedOf(data) - 10.0
            && (r["speed"].n == 0.0 || r["speed"].n == SpeedOf(data) - 10.0)
            && r["temperature"] == Get(data, "temperature", Num(25.0))
            && r["collision_status"] == Text("Braking") && r["brake_status"] == Text("Active")
  {
  }

  class BrakeTask {
    const name: string := "BrakeTask"
    const priority: nat := 7
    var state: TaskState
    const wcetUs: nat := 50
    var executionCount: nat

    /** `BrakeTask(...)`: priority 7, blocked, 50 µs worst case, never run. */
    constructor()
      ensures name == Brake.Name() && priority == Brake.Priority() && priority == 7
      ensures state == Blocked && wcetUs == 50 && executionCount == 0
    {
      state := Blocked;
      executionCount := 0;
    }

    /**
      `run()`: counts the run, takes `brake_sem` (its result is not looked at),
      overwrites the record with the braked one, and releases the semaphore.
     */
    method Run(shared: SharedResources)
      requires shared.Valid() && NumericFields(shared.data)
      modifies this, shared
      ensures executionCount == old(executionCount) + 1 && state == old(state)
      ensures shared.data == Process(old(shared.data))
      ensures shared.semaphores == old(shared.semaphores)["brake_sem" := SemaphoreAfterRun(old(shared.semaphores)["brake_sem"])]
      ensures shared.msgQueues == old(shared.msgQueues)
      ensures shared.Valid() && NumericFields(shared.data)
    {
      executionCount := executionCount + 1;
      var _ := shared.AcquireSemaphore("brake_sem");
      var data := shared.ReadData();
      shared.WriteData(Process(data));
      shared.ReleaseSemaphore("brake_sem");
    }
  }
}
