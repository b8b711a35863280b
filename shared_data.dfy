/**
  The shared resources of shared_resources.py: the sensor data record the
  tasks read and overwrite, three counting semaphores and three bounded
  message queues, all looked up by name.
 */
module SharedData {
  import opened Wrappers

  /** A value of the data record: the tasks store numbers and status words. */
  datatype Value = Num(n: real) | Text(s: string)

  /** The record `data` (a Python dict). */
  type Record = map<string, Value>

  /** `data.get(key, default)`. */
  function Get(data: Record, key: string, default: Value): (v: Value)
    ensures key in data ==> v == data[key]
    ensures key !in data ==> v == default
  {
    if key in data then data[key] else default
  }

  /** The four fields every task run writes. */
  const RecordKeys: set<string> := {"speed", "temperature", "collision_status", "brake_status"}

  /** The numeric fields hold numbers, so the arithmetic of the tasks on them is defined. */
  predicate NumericFields(data: Record) {
    ("speed" in data ==> data["speed"].Num?) && ("temperature" in data ==> data["temperature"].Num?)
  }

  /** `queue.Queue(maxsize=10)`. */
  const QueueCapacity: nat := 10

  const SemaphoreNames: set<string> := {"brake_sem", "collision_sem", "speed_sem"}
  const QueueNames: set<string> := {"brake_queue", "collision_queue", "speed_queue"}

  /** `put_nowait` on a queue holding `q`: `None` (the `queue.Full` case) when it holds 10 already. */
  function Put(q: seq<string>, message: string): (r: Option<seq<string>>)
    ensures |q| >= QueueCapacity <==> r.None?
    ensures r.Some? ==> |r.value| <= QueueCapacity
  {
    if |q| >= QueueCapacity then None else Some(q + [message])
  }

  /** `get` on a queue holding `q`: `None` (the `queue.Empty` case) when it is empty, otherwise its head and the rest. */
  function Take(q: seq<string>): (r: Option<(string, seq<string>)>)
    ensures q == [] <==> r.None?
    ensures r.Some? ==> q == [r.value.0] + r.value.1
  {
    if q == [] then None else Some((q[0], q[1..]))
  }

  /** The queues are first in, first out: a message put behind others comes out after them. */
  lemma {:induction false} QueueIsFifo(q: seq<string>, message: string)
    requires |q| < QueueCapacity
    ensures q == [] ==> Take(Put(q, message).value) == Some((message, []))
    ensures q != [] ==> Take(Put(q, message).value) == Some((q[0], Put(q[1..], message).value))
  {
    if q != [] {
      assert (q + [message])[1..] == q[1..] + [message];
    }
  }

  /** A semaphore's count after a task has acquired it (when it could) and then released it unconditionally. */
  function SemaphoreAfterRun(count: nat): (c: nat)
    ensures c >= 1 && c >= count && (count > 0 ==> c == count) && (count == 0 ==> c == 1)
  {
    if count > 0 then count else 1
  }

  class SharedResources {
    var data: Record
    var semaphores: map<string, nat>
    var msgQueues: map<string, seq<string>>

    /** An empty record, every semaphore at 1 and every queue empty. */
    constructor()
      ensures data == map[]
      ensures semaphores == map["brake_sem" := 1, "collision_sem" := 1, "speed_sem" := 1]
      ensures msgQueues == map["brake_queue" := [], "collision_queue" := [], "speed_queue" := []]
      ensures Valid()
    {
      data := map[];
      semaphores := map["brake_sem" := 1, "collision_sem" := 1, "speed_sem" := 1];
      msgQueues := map["brake_queue" := [], "collision_queue" := [], "speed_queue" := []];
    }

    /** The semaphore and queue tables keep their names, and no queue holds more than its capacity. */
    predicate Valid()
      reads this
    {
      && semaphores.Keys == SemaphoreNames
      && msgQueues.Keys == QueueNames
      && forall name :: name in msgQueues ==> |msgQueues[name]| <= QueueCapacity
    }

    /** `write_data(data)`: the whole record is replaced. */
    method WriteData(d: Record)
      modifies this
      ensures data == d
      ensures semaphores == old(semaphores) && msgQueues == old(msgQueues)
    {
      data := d;
    }

    /** `read_data()`: a copy of the last record written. */
    method ReadData() returns (d: Record)
      ensures d == data
    {
      d := data;
    }

    /**
      `acquire_semaphore(name)`: an unknown name gives False; a semaphore whose
      count is positive is taken, one whose count is zero gives False once the
      timeout runs out.
     */
    method AcquireSemaphore(name: string) returns (acquired: bool)
      requires Valid()
      modifies this
      ensures Valid()
      ensures acquired <==> name in old(semaphores) && old(semaphores)[name] > 0
      ensures acquired ==> semaphores == old(semaphores)[name := old(semaphores)[name] - 1]
      ensures !acquired ==> semaphores == old(semaphores)
      ensures data == old(data) && msgQueues == old(msgQueues)
    {
      acquired := false;
      if name in semaphores && semaphores[name] > 0 {
        semaphores := semaphores[name := semaphores[name] - 1];
        acquired := true;
      }
    }

    /** `release_semaphore(name)`: a known semaphore's count goes up by one (a plain `Semaphore` has no upper bound); an unknown name is ignored. */
    method ReleaseSemaphore(name: string)
      requires Valid()
      modifies this
      ensures Valid()
      ensures name in old(semaphores) ==> semaphores == old(semaphores)[name := old(semaphores)[name] + 1]
      ensures name !in old(semaphores) ==> semaphores == old(semaphores)
      ensures data == old(data) && msgQueues == old(msgQueues)
    {
      if name in semaphores {
        semaphores := semaphores[name := semaphores[name] + 1];
      }
    }

    /** `send_message(name, message)`: False for an unknown or full queue, which stays as it was; otherwise the message joins the back. */
    method SendMessage(name: string, message: string) returns (sent: bool)
      requires Valid()
      modifies this
      ensures Valid()
      ensures sent <==> name in old(msgQueues) && |old(msgQueues)[name]| < QueueCapacity
      ensures sent ==> msgQueues == old(msgQueues)[name := old(msgQueues)[name] + [message]]
      ensures !sent ==> msgQueues == old(msgQueues)
      ensures data == old(data) && semaphores == old(semaphores)
    {
      sent := false;
      if name in msgQueues {
        match Put(msgQueues[name], message)
        case Some(q) =>
          msgQueues := msgQueues[name := q];
          sent := true;
        case None =>
      }
    }

    /** `receive_message(name)`: None for an unknown or empty queue; otherwise the head is removed and returned. */
    method ReceiveMessage(name: string) returns (message: Option<string>)
      requires Valid()
      modifies this
      ensures Valid()
      ensures message.None? <==> name !in old(msgQueues) || old(msgQueues)[name] == []
      ensures message.Some? ==> [message.value] + msgQueues[name] == old(msgQueues)[name]
      ensures message.Some? ==> msgQueues == old(msgQueues)[name := old(msgQueues)[name][1..]]
      ensures message.None? ==> msgQueues == old(msgQueues)
      ensures data == old(data) && semaphores == old(semaphores)
    {
      message := None;
      if name in msgQueues {
        match Take(msgQueues[name])
        case Some(taken) =>
          msgQueues := msgQueues[name := taken.1];
          message := Some(taken.0);
        case None =>
      }
    }
  }
}
