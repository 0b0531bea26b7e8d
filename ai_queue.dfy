/**
 * The AI queue manager: a FIFO of task objects with an optional bound, a
 * table from task id to the same objects, worker bookkeeping, a processor
 * and a result callback. Worker threads become one `WorkerStep` at a time;
 * the processor becomes a stored function from the queued task's data to its
 * outcome; callback invocations are recorded in `callbacks`. Random task
 * ids and the clock are parameters.
 */
module AIQueue {
  import opened Common
  import opened TaskModel

  /** What the processor did with a task's data: returned a result, or raised an exception with this text. */
  datatype ProcessOutcome = ProcessReturned(value: Json) | ProcessRaised(message: string)

  /** One call `callback(task_id, result, success)`. */
  datatype CallbackCall = CallbackCall(taskId: string, result: Json, success: bool)

  /** What `enqueue` did: returned the new id, or raised `RuntimeError(message)`. */
  datatype EnqueueOutcome = Accepted(taskId: string) | Rejected(message: string)

  const QueueFullMessage := "队列已满"

  /** The fields of the manager's own task record other than id and data (it has no retry budget of its own). */
  datatype AttemptView = AttemptView(
    status: TaskStatus,
    result: Json,
    error: string,
    createdAt: string,
    startedAt: string,
    completedAt: string,
    retryCount: int)

  /** A task as `enqueue` creates it at time `now`. */
  function NewAttemptView(now: string): AttemptView {
    AttemptView(Pending, JNull, "", now, "", "", 0)
  }

  /**
   * What one worker iteration with a processor does to the dequeued task:
   * PROCESSING from `now`, then COMPLETED with the result, or one more retry
   * with the error text, back to PENDING while retries remain, FAILED after.
   */
  function Attempted(v: AttemptView, o: ProcessOutcome, maxRetries: int, now: string): (r: AttemptView)
    ensures r.startedAt == now && r.createdAt == v.createdAt
    ensures o.ProcessReturned? ==> r.status == Completed && r.result == o.value && r.retryCount == v.retryCount
    ensures o.ProcessRaised? ==>
              && r.retryCount == v.retryCount + 1 && r.error == o.message && r.result == v.result
              && (r.status == Pending <==> r.retryCount < maxRetries)
              && (r.status != Pending ==> r.status == Failed)
  {
    var started := v.(status := Processing, startedAt := now);
    match o
    case ProcessReturned(value) => started.(result := value, status := Completed, completedAt := now)
    case ProcessRaised(message) =>
      var tried := started.(retryCount := v.retryCount + 1, error := message);
      if tried.retryCount < maxRetries then tried.(status := Pending)
      else tried.(status := Failed, completedAt := now)
  }

  /** The callback invocation that a task ending in `v` triggers, if a callback is set. */
  function CallbackFor(id: string, v: AttemptView, hasCallback: bool): (r: seq<CallbackCall>)
    ensures |r| <= 1
    ensures |r| == 1 <==> hasCallback && (v.status == Completed || v.status == Failed)
    ensures |r| == 1 && v.status == Completed ==> r[0] == CallbackCall(id, v.result, true)
    ensures |r| == 1 && v.status == Failed ==> r[0] == CallbackCall(id, JNull, false)
  {
    if !hasCallback then []
    else if v.status == Completed then [CallbackCall(id, v.result, true)]
    else if v.status == Failed then [CallbackCall(id, JNull, false)]
    else []
  }

  /** The queued task after `n` attempts with a processor that raises `message` every time. */
  function RaisedAttempts(v: AttemptView, message: string, maxRetries: int, now: string, n: nat): AttemptView {
    if n == 0 then v
    else Attempted(RaisedAttempts(v, message, maxRetries, now, n - 1), ProcessRaised(message), maxRetries, now)
  }

  /** How many attempts a task gets: `max_retries`, but at least one. */
  function AttemptBudget(maxRetries: int): (b: nat)
    ensures b >= 1 && b >= maxRetries
  {
    if maxRetries < 1 then 1 else maxRetries
  }

  /**
   * With a processor that always raises, a fresh task is re-queued (left
   * PENDING) after each of its first `max(1, max_retries) - 1` attempts and
   * is FAILED after attempt number `max(1, max_retries)`: the processor runs
   * exactly that many times.
   */
  lemma {:induction false} AlwaysRaising(v: AttemptView, message: string, maxRetries: int, now: string, n: nat)
    requires v.retryCount == 0
    requires n <= AttemptBudget(maxRetries)
    ensures var w := RaisedAttempts(v, message, maxRetries, now, n);
            && w.retryCount == n
            && (0 < n < AttemptBudget(maxRetries) ==> w.status == Pending)
            && (n == AttemptBudget(maxRetries) ==> w.status == Failed && w.error == message)
  {
    if n > 0 {
      AlwaysRaising(v, message, maxRetries, now, n - 1);
    }
  }

  /** The manager's own task record: the object both the queue and the table refer to. */
  class Task {
    const id: string
    const data: Json
    var status: TaskStatus
    var result: Json
    var error: string
    var createdAt: string
    var startedAt: string
    var completedAt: string
    var retryCount: int

    function View(): AttemptView
      reads this
    {
      AttemptView(status, result, error, createdAt, startedAt, completedAt, retryCount)
    }

    constructor (id: string, data: Json, now: string)
      ensures this.id == id && this.data == data && View() == NewAttemptView(now)
    {
      this.id := id;
      this.data := data;
      status := Pending;
      result := JNull;
      error := "";
      createdAt := now;
      startedAt := "";
      completedAt := "";
      retryCount := 0;
    }

    /** `to_dict`: the id and the seven tracked fields, the status as its string value. */
    function ToDict(): (d: map<string, Json>)
      reads this
      ensures d.Keys == {"id", "status", "result", "error", "created_at", "started_at", "completed_at", "retry_count"}
      ensures d["status"].JStr? && StatusOf(d["status"].s) == Some(status)
      ensures d["id"] == JStr(id) && d["result"] == result && d["retry_count"] == JInt(retryCount)
    {
      StatusRoundTrip(status);
      map["id" := JStr(id),
          "status" := JStr(StatusValue(status)),
          "result" := result,
          "error" := JStr(error),
          "created_at" := JStr(createdAt),
          "started_at" := JStr(startedAt),
          "completed_at" := JStr(completedAt),
          "retry_count" := JInt(retryCount)]
    }
  }

  /** The names of the first `n` worker threads, `ai-worker-0` onward. */
  function WorkerNames(n: int): (r: seq<string>)
    ensures |r| == if n < 0 then 0 else n
    ensures forall i :: 0 <= i < |r| ==> r[i] == "ai-worker-" + NatToString(i)
  {
    if n <= 0 then [] else WorkerNames(n - 1) + ["ai-worker-" + NatToString(n - 1)]
  }

  /** The manager's `stats` dict. */
  datatype QueueStats = QueueStats(enqueued: int, processed: int, succeeded: int, failed: int)

  /** The stats after one attempt: processed, and succeeded or failed when the queued task finished that way. */
  function Counted(s: QueueStats, v: AttemptView): QueueStats {
    s.(processed := s.processed + 1,
       succeeded := s.succeeded + (if v.status == Completed then 1 else 0),
       failed := s.failed + (if v.status == Failed then 1 else 0))
  }

  /** The loop of `start` that creates and names the worker threads `0 .. n-1`. */
  method SpawnWorkers(n: int) returns (names: seq<string>)
    ensures names == WorkerNames(n)
  {
    names := [];
    var i := 0;
    while i < n
      invariant 0 <= i && (i <= n || i == 0)
      invariant names == WorkerNames(i)
    {
      names := names + ["ai-worker-" + NatToString(i)];
      i := i + 1;
    }
  }

  class Manager {
    const maxSize: int
    const maxWorkers: int
    const maxRetries: int
    /** The FIFO; `maxSize <= 0` makes it unbounded, as for `queue.Queue`. */
    var queue: seq<Task>
    var tasks: map<string, Task>
    /** The names of the started worker threads. */
    var workers: seq<string>
    var running: bool
    var processor: Option<Json -> ProcessOutcome>
    var hasCallback: bool
    /** Every callback invocation so far, oldest first. */
    var callbacks: seq<CallbackCall>
    var stats: QueueStats
    /** The queued tasks ever accepted by `enqueue`, and those of them that reached COMPLETED or FAILED. */
    ghost var admitted: set<Task>
    ghost var finished: set<Task>

    /**
     * Every accepted task is counted once in `total_enqueued` and every
     * finished one once in `total_succeeded + total_failed`; a task still
     * queued has not finished and is queued once; a bounded queue never
     * exceeds its bound.
     */
    ghost predicate Valid()
      reads this
    {
      && finished <= admitted
      && |admitted| == stats.enqueued
      && |finished| == stats.succeeded + stats.failed
      && stats.succeeded >= 0 && stats.failed >= 0
      && stats.succeeded + stats.failed <= stats.processed
      && (forall t :: t in queue ==> t in admitted && t !in finished)
      && (forall i, j :: 0 <= i < j < |queue| ==> queue[i] != queue[j])
      && (maxSize > 0 ==> |queue| <= maxSize)
    }

    /** `AIQueueManager(max_size, max_workers, max_retries)`; the retry delay is a sleep and is not modelled. */
    constructor (maxSize: int, maxWorkers: int, maxRetries: int)
      ensures Valid()
      ensures this.maxSize == maxSize && this.maxWorkers == maxWorkers && this.maxRetries == maxRetries
      ensures queue == [] && tasks == map[] && workers == [] && !running
      ensures processor == None && !hasCallback && callbacks == []
      ensures stats == QueueStats(0, 0, 0, 0)
    {
      this.maxSize := maxSize;
      this.maxWorkers := maxWorkers;
      this.maxRetries := maxRetries;
      queue, tasks, workers, running := [], map[], [], false;
      processor, hasCallback, callbacks := None, false, [];
      stats := QueueStats(0, 0, 0, 0);
      admitted, finished := {}, {};
    }

    /** `set_processor` */
    method SetProcessor(p: Json -> ProcessOutcome)
      requires Valid()
      modifies this
      ensures Valid() && processor == Some(p)
      ensures queue == old(queue) && tasks == old(tasks) && running == old(running) && workers == old(workers)
      ensures hasCallback == old(hasCallback) && callbacks == old(callbacks) && stats == old(stats)
    {
      processor := Some(p);
    }

    /** `set_result_callback` */
    method SetResultCallback()
      requires Valid()
      modifies this
      ensures Valid() && hasCallback
      ensures queue == old(queue) && tasks == old(tasks) && running == old(running) && workers == old(workers)
      ensures processor == old(processor) && callbacks == old(callbacks) && stats == old(stats)
    {
      hasCallback := true;
    }

    /** Whether `put_nowait` raises `queue.Full`. */
    predicate Full()
      reads this
    {
      maxSize > 0 && |queue| >= maxSize
    }

    /** `get_status`: the queued task's status, `None` for an unknown id. */
    function GetStatus(taskId: string): (r: Option<TaskStatus>)
      reads this, tasks.Values
      ensures r.Some? <==> taskId in tasks
    {
      if taskId in tasks then Some(tasks[taskId].status) else None
    }

    /** `get_result`: the queued task's result, `None` (`JNull`) for an unknown id as for a task without one. */
    function GetResult(taskId: string): (r: Json)
      reads this, tasks.Values
      ensures taskId !in tasks ==> r == JNull
    {
      if taskId in tasks then tasks[taskId].result else JNull
    }

    /** `get_task` */
    function GetTask(taskId: string): (r: Option<Task>)
      reads this
      ensures r.Some? <==> taskId in tasks
    {
      if taskId in tasks then Some(tasks[taskId]) else None
    }

    /**
     * `enqueue(data)` with `taskId` the random id and `now` the clock. The
     * task is put in the table first; when the bounded queue is full it is
     * deleted again (and with it any older task under the same id) and the
     * call raises; otherwise it is queued last and counted.
     */
    method Enqueue(data: Json, taskId: string, now: string) returns (r: EnqueueOutcome)
      requires Valid()
      modifies this
      ensures Valid()
      ensures old(Full()) ==> r == Rejected(QueueFullMessage) && queue == old(queue)
                              && tasks == old(tasks) - {taskId} && stats == old(stats)
      ensures !old(Full()) ==> r == Accepted(taskId) && taskId in tasks && queue == old(queue) + [tasks[taskId]]
                               && fresh(tasks[taskId]) && tasks[taskId].data == data && tasks[taskId].id == taskId
                               && tasks[taskId].View() == NewAttemptView(now)
                               && tasks == old(tasks)[taskId := tasks[taskId]]
                               && stats == old(stats).(enqueued := old(stats.enqueued) + 1)
      ensures r.Rejected? ==> GetStatus(taskId) == None
      ensures r.Accepted? ==> GetStatus(taskId) == Some(Pending)
      ensures running == old(running) && workers == old(workers) && processor == old(processor)
      ensures hasCallback == old(hasCallback) && callbacks == old(callbacks)
    {
      var task := new Task(taskId, data, now);
      tasks := tasks[taskId := task];
      if Full() {
        tasks := tasks - {taskId};
        r := Rejected(QueueFullMessage);
      } else {
        Admit(task);
        r := Accepted(taskId);
      }
    }

    /** The `put_nowait` that succeeds: a new task goes last and is counted. */
    method Admit(task: Task)
      requires Valid() && !Full()
      requires task !in admitted && task !in queue
      modifies this
      ensures Valid()
      ensures queue == old(queue) + [task] && stats == old(stats).(enqueued := old(stats.enqueued) + 1)
      ensures tasks == old(tasks) && running == old(running) && workers == old(workers)
      ensures processor == old(processor) && hasCallback == old(hasCallback) && callbacks == old(callbacks)
    {
      CardAddOne(admitted, task);
      queue := queue + [task];
      stats := stats.(enqueued := stats.enqueued + 1);
      admitted := admitted + {task};
    }

    /** `start`: a no-op while running; otherwise running, with `max_workers` more named workers. */
    method Start()
      requires Valid()
      modifies this
      ensures Valid() && running
      ensures old(running) ==> workers == old(workers)
      ensures !old(running) ==> workers == old(workers) + WorkerNames(maxWorkers)
      ensures queue == old(queue) && tasks == old(tasks) && processor == old(processor)
      ensures hasCallback == old(hasCallback) && callbacks == old(callbacks) && stats == old(stats)
    {
      if running {
        return;
      }
      running := true;
      var names := SpawnWorkers(maxWorkers);
      workers := workers + names;
    }

    /** `stop`: not running, no workers (joining the threads is not modelled). */
    method Stop()
      requires Valid()
      modifies this
      ensures Valid() && !running && workers == []
      ensures queue == old(queue) && tasks == old(tasks) && processor == old(processor)
      ensures hasCallback == old(hasCallback) && callbacks == old(callbacks) && stats == old(stats)
    {
      running := false;
      workers := [];
    }

    /** The queued task a worker would take next, as a frame. */
    function Head(): set<Task>
      reads this
    {
      if queue == [] then {} else {queue[0]}
    }

    /**
     * One iteration of `_worker_loop` at time `now`. An empty queue changes
     * nothing. Without a processor the head task is taken off the queue and
     * dropped as it is. Otherwise the head task is attempted (`Attempt`).
     */
    method WorkerStep(now: string)
      requires Valid() && running
      modifies this, Head()
      ensures Valid()
      ensures old(queue) == [] ==> queue == [] && callbacks == old(callbacks) && stats == old(stats)
      ensures old(queue) != [] && old(processor).None? ==>
                (var t := old(queue[0]);
                 && queue == old(queue[1..]) && t.View() == old(t.View())
                 && callbacks == old(callbacks) && stats == old(stats))
      ensures old(queue) != [] && old(processor).Some? ==>
                (var t := old(queue[0]);
                 && t.View() == Attempted(old(t.View()), old(processor.value(queue[0].data)), maxRetries, now)
                 && queue == old(queue[1..]) + (if t.status == Pending then [t] else [])
                 && callbacks == old(callbacks) + CallbackFor(t.id, t.View(), hasCallback)
                 && stats == Counted(old(stats), t.View()))
      ensures tasks == old(tasks) && running == old(running) && workers == old(workers)
      ensures processor == old(processor) && hasCallback == old(hasCallback)
    {
      if queue == [] {
        return;
      }
      var task := queue[0];
      queue := queue[1..];
      if processor == None {
        return;
      }
      Attempt(task, now);
    }

    /**
     * The processor's run on a task just taken off the queue: PROCESSING
     * from `now`, then the success or the exception branch.
     */
    method Attempt(task: Task, now: string)
      requires Valid() && processor.Some?
      requires task in admitted && task !in finished && task !in queue
      requires maxSize > 0 ==> |queue| < maxSize
      modifies this, task
      ensures Valid()
      ensures task.View() == Attempted(old(task.View()), old(processor.value(task.data)), maxRetries, now)
      ensures queue == old(queue) + (if task.status == Pending then [task] else [])
      ensures callbacks == old(callbacks) + CallbackFor(task.id, task.View(), hasCallback)
      ensures stats == Counted(old(stats), task.View())
      ensures tasks == old(tasks) && running == old(running) && workers == old(workers)
      ensures processor == old(processor) && hasCallback == old(hasCallback)
    {
      task.status, task.startedAt := Processing, now;
      match processor.value(task.data) {
        case ProcessReturned(value) => Succeed(task, value, now);
        case ProcessRaised(message) =>
          if task.retryCount + 1 < maxRetries {
            Requeue(task, message);
          } else {
            GiveUp(task, message, now);
          }
      }
    }

    /** The success branch of an attempt: COMPLETED with the result, one callback, counted. */
    method Succeed(task: Task, value: Json, now: string)
      requires Valid()
      requires task in admitted && task !in finished && task !in queue
      modifies this, task
      ensures Valid()
      ensures task.View() == old(task.View()).(result := value, status := Completed, completedAt := now)
      ensures queue == old(queue) && stats == Counted(old(stats), task.View())
      ensures callbacks == old(callbacks) + CallbackFor(task.id, task.View(), hasCallback)
      ensures tasks == old(tasks) && running == old(running) && workers == old(workers)
      ensures processor == old(processor) && hasCallback == old(hasCallback)
    {
      task.result, task.status, task.completedAt := value, Completed, now;
      Finish(task);
      if hasCallback {
        callbacks := callbacks + [CallbackCall(task.id, value, true)];
      }
    }

    /** A raised attempt with retries left: PENDING again, last in the queue. */
    method Requeue(task: Task, message: string)
      requires Valid()
      requires task in admitted && task !in finished && task !in queue
      requires maxSize > 0 ==> |queue| < maxSize
      modifies this, task
      ensures Valid()
      ensures task.View() == old(task.View()).(retryCount := old(task.retryCount) + 1, error := message, status := Pending)
      ensures queue == old(queue) + [task] && callbacks == old(callbacks)
      ensures stats == old(stats).(processed := old(stats.processed) + 1)
      ensures tasks == old(tasks) && running == old(running) && workers == old(workers)
      ensures processor == old(processor) && hasCallback == old(hasCallback)
    {
      task.retryCount, task.error, task.status := task.retryCount + 1, message, Pending;
      queue := queue + [task];
      stats := stats.(processed := stats.processed + 1);
    }

    /** A raised attempt with no retries left: FAILED, one callback, counted as failed. */
    method GiveUp(task: Task, message: string, now: string)
      requires Valid()
      requires task in admitted && task !in finished && task !in queue
      modifies this, task
      ensures Valid()
      ensures task.View() == old(task.View()).(retryCount := old(task.retryCount) + 1, error := message,
                                               status := Failed, completedAt := now)
      ensures queue == old(queue) && stats == Counted(old(stats), task.View())
      ensures callbacks == old(callbacks) + CallbackFor(task.id, task.View(), hasCallback)
      ensures tasks == old(tasks) && running == old(running) && workers == old(workers)
      ensures processor == old(processor) && hasCallback == old(hasCallback)
    {
      task.retryCount, task.error, task.status, task.completedAt := task.retryCount + 1, message, Failed, now;
      Finish(task);
      if hasCallback {
        callbacks := callbacks + [CallbackCall(task.id, JNull, false)];
      }
    }

    /** Counting a task that has just reached COMPLETED or FAILED. */
    method Finish(task: Task)
      requires Valid()
      requires task in admitted && task !in finished && task !in queue
      requires task.status == Completed || task.status == Failed
      modifies this
      ensures Valid() && stats == Counted(old(stats), task.View())
      ensures queue == old(queue) && callbacks == old(callbacks)
      ensures tasks == old(tasks) && running == old(running) && workers == old(workers)
      ensures processor == old(processor) && hasCallback == old(hasCallback)
    {
      CardAddOne(finished, task);
      finished := finished + {task};
      stats := Counted(stats, task.View());
    }

    /** How many tasks in the table have status `s`. */
    function CountStatus(s: TaskStatus): (n: nat)
      reads this, tasks.Values
      ensures n <= |tasks|
    {
      var ids := set id | id in tasks && tasks[id].status == s;
      assert ids <= tasks.Keys;
      SubsetCard(ids, tasks.Keys);
      |ids|
    }

    /** `get_stats`: the four counters, the queue length and the PENDING and PROCESSING tasks in the table. */
    function GetStats(): (r: map<string, int>)
      reads this, tasks.Values
      ensures r.Keys == {"total_enqueued", "total_processed", "total_succeeded", "total_failed",
                         "queue_size", "pending_tasks", "processing_tasks"}
      ensures r["total_enqueued"] == stats.enqueued && r["total_processed"] == stats.processed
      ensures r["total_succeeded"] == stats.succeeded && r["total_failed"] == stats.failed
      ensures r["queue_size"] == |queue|
      ensures 0 <= r["pending_tasks"] && 0 <= r["processing_tasks"]
      ensures r["pending_tasks"] + r["processing_tasks"] <= |tasks|
    {
      StatusCountsDisjoint();
      map["total_enqueued" := stats.enqueued,
          "total_processed" := stats.processed,
          "total_succeeded" := stats.succeeded,
          "total_failed" := stats.failed,
          "queue_size" := |queue|,
          "pending_tasks" := CountStatus(Pending),
          "processing_tasks" := CountStatus(Processing)]
    }

    /** No task is both PENDING and PROCESSING, so the two counts together do not exceed the table. */
    lemma StatusCountsDisjoint()
      ensures CountStatus(Pending) + CountStatus(Processing) <= |tasks|
    {
      var p := set id | id in tasks && tasks[id].status == Pending;
      var q := set id | id in tasks && tasks[id].status == Processing;
      assert p * q == {};
      assert p + q <= tasks.Keys;
      SubsetCard(p + q, tasks.Keys);
    }

    /** `clear`: take every task off the queue, then empty the table; the counters stay. */
    method Clear()
      requires Valid()
      modifies this
      ensures Valid() && queue == [] && tasks == map[]
      ensures forall id :: GetStatus(id) == None
      ensures GetStats()["queue_size"] == 0 && GetStats()["pending_tasks"] == 0
      ensures running == old(running) && workers == old(workers) && processor == old(processor)
      ensures hasCallback == old(hasCallback) && callbacks == old(callbacks) && stats == old(stats)
    {
      while queue != []
        invariant Valid()
        invariant running == old(running) && workers == old(workers) && processor == old(processor)
        invariant hasCallback == old(hasCallback) && callbacks == old(callbacks) && stats == old(stats)
        decreases |queue|
      {
        queue := queue[1..];
      }
      tasks := map[];
    }
  }

  lemma {:induction false} SubsetCard<T>(a: set<T>, b: set<T>)
    requires a <= b
    ensures |a| <= |b|
  {
    if a != {} {
      var x :| x in a;
      SubsetCard(a - {x}, b - {x});
    }
  }

  lemma CardAddOne<T>(s: set<T>, x: T)
    requires x !in s
    ensures |s + {x}| == |s| + 1
  {
    assert s + {x} - {x} == s;
  }
}
