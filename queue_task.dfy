/**
 * The queued task record of the AI queue as the models package defines it: a
 * status, the processor's result or error, three timestamps and a retry
 * budget. The clock is a parameter: every method that stamps a time takes
 * it as `now`.
 */
module TaskModel {
  import opened Common

  /** The five task states. */
  datatype TaskStatus = Pending | Processing | Completed | Failed | Cancelled

  /** The enum member's `.value`. */
  function StatusValue(s: TaskStatus): string {
    match s
    case Pending => "pending"
    case Processing => "processing"
    case Completed => "completed"
    case Failed => "failed"
    case Cancelled => "cancelled"
  }

  /** `TaskStatus(value)`: the member whose value is `v`, if any. */
  function StatusOf(v: string): (r: Option<TaskStatus>)
    ensures r.Some? ==> StatusValue(r.value) == v
  {
    if v == "pending" then Some(Pending)
    else if v == "processing" then Some(Processing)
    else if v == "completed" then Some(Completed)
    else if v == "failed" then Some(Failed)
    else if v == "cancelled" then Some(Cancelled)
    else None
  }

  /** A status survives the round trip through its string value, so distinct members have distinct values. */
  lemma StatusRoundTrip(s: TaskStatus)
    ensures StatusOf(StatusValue(s)) == Some(s)
    ensures forall t: TaskStatus :: StatusValue(t) == StatusValue(s) ==> t == s
  {
    forall t: TaskStatus | StatusValue(t) == StatusValue(s)
      ensures t == s
    {
      assert StatusOf(StatusValue(t)) == Some(t);
    }
  }

  /** `TaskStatus.running()`, the backward-compatible alias. */
  function Running(): TaskStatus {
    Processing
  }

  /** `TaskStatus.success()`, the backward-compatible alias. */
  function Success(): TaskStatus {
    Completed
  }

  /** The aliases name the members whose values are "processing" and "completed". */
  lemma AliasValues()
    ensures StatusValue(Running()) == "processing" && Running() == Processing
    ensures StatusValue(Success()) == "completed" && Success() == Completed
  {
  }

  /** The fields of a task other than its id and data. `None` results are `JNull`. */
  datatype TaskView = TaskView(
    status: TaskStatus,
    result: Json,
    error: string,
    createdAt: string,
    startedAt: string,
    completedAt: string,
    retryCount: int,
    maxRetries: int)

  /** `retry_count < max_retries` */
  predicate MayRetry(v: TaskView) {
    v.retryCount < v.maxRetries
  }

  /** The view after `k` calls of `increment_retry`. */
  function Retried(v: TaskView, k: nat): TaskView {
    if k == 0 then v
    else
      var w := Retried(v, k - 1);
      w.(retryCount := w.retryCount + 1, status := Pending, error := "")
  }

  /**
   * `k` retries raise the count by exactly `k`, leave the queued task PENDING with
   * no error, touch nothing else, and leave a retry available exactly while
   * the raised count is below the budget.
   */
  lemma {:induction false} RetriedSpec(v: TaskView, k: nat)
    ensures var w := Retried(v, k);
            && w.retryCount == v.retryCount + k
            && (k > 0 ==> w.status == Pending && w.error == "")
            && (k == 0 ==> w == v)
            && w.result == v.result && w.createdAt == v.createdAt && w.startedAt == v.startedAt
            && w.completedAt == v.completedAt && w.maxRetries == v.maxRetries
            && (MayRetry(w) <==> v.retryCount + k < v.maxRetries)
  {
    if k > 0 {
      RetriedSpec(v, k - 1);
    }
  }

  /** From a fresh count, exactly `max_retries` retries are granted (none when the budget is not positive). */
  lemma RetryBudget(v: TaskView, k: nat)
    requires v.retryCount == 0
    ensures MayRetry(Retried(v, k)) <==> k < v.maxRetries
  {
    RetriedSpec(v, k);
  }

  /** A task record; the fields a caller may update are `var`s. */
  class QueueTask {
    const id: string
    const data: Json
    var status: TaskStatus
    var result: Json
    var error: string
    var createdAt: string
    var startedAt: string
    var completedAt: string
    var retryCount: int
    var maxRetries: int

    /** Every field except `id` and `data`. */
    function View(): TaskView
      reads this
    {
      TaskView(status, result, error, createdAt, startedAt, completedAt, retryCount, maxRetries)
    }

    /** `QueueTask(id=id, data=data)` created at time `now`: PENDING, no result, no retries, a budget of 3. */
    constructor (id: string, data: Json, now: string)
      ensures this.id == id && this.data == data
      ensures View() == TaskView(Pending, JNull, "", now, "", "", 0, 3)
    {
      this.id := id;
      this.data := data;
      status := Pending;
      result := JNull;
      error := "";
      createdAt := now;
      startedAt := "";
      completedAt := "";
      retryCount := 0;
      maxRetries := 3;
    }

    /** `start`: PROCESSING, started at `now`. */
    method Start(now: string)
      modifies this
      ensures View() == old(View()).(status := Processing, startedAt := now)
    {
      status := Processing;
      startedAt := now;
    }

    /** `complete(result)`: COMPLETED with that result, completed at `now`. */
    method Complete(r: Json, now: string)
      modifies this
      ensures View() == old(View()).(status := Completed, result := r, completedAt := now)
    {
      status := Completed;
      result := r;
      completedAt := now;
    }

    /** `fail(error)`: FAILED with that error, completed at `now`. */
    method Fail(e: string, now: string)
      modifies this
      ensures View() == old(View()).(status := Failed, error := e, completedAt := now)
    {
      status := Failed;
      error := e;
      completedAt := now;
    }

    /** `can_retry` */
    function CanRetry(): (r: bool)
      reads this
      ensures r <==> MayRetry(View())
    {
      retryCount < maxRetries
    }

    /** `increment_retry`: one more retry, back to PENDING, error cleared. */
    method IncrementRetry()
      modifies this
      ensures View() == Retried(old(View()), 1)
    {
      retryCount := retryCount + 1;
      status := Pending;
      error := "";
    }

    /**
     * `to_dict`: eight keys, the status as its string value; `data` and
     * `max_retries` are not exported.
     */
    function ToDict(): (d: map<string, Json>)
      reads this
      ensures d.Keys == {"id", "status", "result", "error", "created_at", "started_at", "completed_at", "retry_count"}
      ensures "data" !in d && "max_retries" !in d
      ensures d["status"].JStr? && StatusOf(d["status"].s) == Some(status)
      ensures d["id"] == JStr(id) && d["result"] == result && d["error"] == JStr(error)
      ensures d["retry_count"] == JInt(retryCount)
    {
      StatusRoundTrip(status);
      map["id" := JStr(id),
          "status" := JStr(StatusValue(status)),
          "result" := result,
          "error" := JStr(error),
          "created_at" := JStr(createdAt),
          "started_at" := JStr(startedAt),
          "completed_at" := JStr(completedAt),
          "retry_count" := JInt(retryCount)]
    }
  }
}
