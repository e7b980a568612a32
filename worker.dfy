/**
 * The worker (src/worker/worker.go): one pass of its dequeue loop, task
 * processing with injected failures, the retry policy, and one tick of the
 * retry scheduler, run sequentially.  The random draw u is
 * floor(10000 * rng.Float64()), in basis points; the jitter draw is reduced
 * into the range of rand.Int63n; clock readings are parameters, in
 * nanoseconds.
 */
module Worker {
  import opened Wrappers
  import opened Models
  import opened RedisStore
  import opened IntRanges

  const MaxRetries := 5
  const Millisecond := 1_000_000
  const BaseBackoff := 200 * Millisecond
  const RetryBatch := 128

  /** Draws are basis points of [0, 1): 5% permanent, 20% transient. */
  const DrawScale := 10000
  const PermanentRate := 500
  const TransientRate := 2000

  datatype Draw = PermanentFailure | TransientFailure | Completes

  /** The source's if-chain on the draw: the three outcomes take disjoint ranges of it. */
  function Classify(u: nat): (d: Draw)
    ensures d == PermanentFailure <==> u < PermanentRate
    ensures d == TransientFailure <==> PermanentRate <= u < PermanentRate + TransientRate
    ensures d == Completes <==> u >= PermanentRate + TransientRate
  {
    if u < PermanentRate then PermanentFailure
    else if u < PermanentRate + TransientRate then TransientFailure
    else Completes
  }

  /** Of the 10000 possible draws, 500 fail permanently, 2000 transiently and
      7500 succeed: the rates 0.05 and 0.20 of the source. */
  lemma ClassificationRates()
    ensures |set u: int | 0 <= u < DrawScale && Classify(u) == PermanentFailure| == 500
    ensures |set u: int | 0 <= u < DrawScale && Classify(u) == TransientFailure| == 2000
    ensures |set u: int | 0 <= u < DrawScale && Classify(u) == Completes| == 7500
  {
    assert (set u: int | 0 <= u < DrawScale && Classify(u) == PermanentFailure) == Range(0, 500);
    assert (set u: int | 0 <= u < DrawScale && Classify(u) == TransientFailure) == Range(500, 2500);
    assert (set u: int | 0 <= u < DrawScale && Classify(u) == Completes) == Range(2500, 10000);
    RangeSize(0, 500);
    RangeSize(500, 2500);
    RangeSize(2500, 10000);
  }

  // ---------------------------------------------------------------------------
  // Backoff and jitter
  // ---------------------------------------------------------------------------

  function Pow2(n: nat): (p: nat)
    ensures p >= 1
  {
    if n == 0 then 1 else 2 * Pow2(n - 1)
  }

  /** The delay before retry number retryCount: 200ms times 2^(retryCount-1). */
  function Backoff(retryCount: nat): (b: int)
    requires retryCount >= 1
    ensures b >= BaseBackoff
  {
    BaseBackoff * Pow2(retryCount - 1)
  }

  /** Retries 1 to 5 wait 200, 400, 800, 1600 and 3200 ms, each twice the one before. */
  lemma BackoffSchedule(retryCount: nat)
    requires retryCount >= 1
    ensures Backoff(retryCount + 1) == 2 * Backoff(retryCount)
    ensures Backoff(1) == 200 * Millisecond && Backoff(2) == 400 * Millisecond
    ensures Backoff(3) == 800 * Millisecond && Backoff(4) == 1600 * Millisecond
    ensures Backoff(5) == 3200 * Millisecond
  {
  }

  /** rand.Int63n(backoff / 2): a value in [0, backoff / 2). */
  function Jitter(backoff: int, draw: nat): (j: int)
    requires backoff >= 2
    ensures 0 <= j < backoff / 2
  {
    draw % (backoff / 2)
  }

  /** The time of the next retry lies in [now + backoff, now + 1.5 * backoff). */
  function NextRetryAt(now: Time, retryCount: nat, draw: nat): (next: Time)
    requires retryCount >= 1
    ensures now + Backoff(retryCount) <= next
    ensures 2 * (next - now) < 3 * Backoff(retryCount)
  {
    now + Backoff(retryCount) + Jitter(Backoff(retryCount), draw)
  }

  /** After the increment, a task is finalised exactly when it has used up its retries. */
  predicate ExhaustsRetries(retryCount: nat)
  {
    retryCount + 1 > MaxRetries
  }

  // ---------------------------------------------------------------------------
  // Processing
  // ---------------------------------------------------------------------------

  /** Which Redis round trips of one task's processing fail. */
  datatype WorkerFaults = WorkerFaults(
    storeRunningFails: bool,
    storeFinalFails: bool,
    scheduleFails: bool,
    reenqueueGetFails: bool,
    reenqueueEnqueueFails: bool)

  /** The part of the store the worker reads and writes: the task keys, the
      retry set and both queues. */
  datatype View = View(tasks: map<string, Task>, retry: map<string, int>, fifo: seq<string>, pq: map<string, int>)

  function ViewOf(r: Redis): View
    reads r
  {
    View(r.tasks, r.retry, r.fifo, r.pq)
  }

  function Stored(tasks: map<string, Task>, t: Task, fault: bool): map<string, Task>
  {
    if fault then tasks else tasks[TaskKey(t.id) := t]
  }

  /** The task marked failed for good, with the reason and the completion time. */
  function Finalized(task: Task, reason: string, at: Time): Task
  {
    task.(status := Failed, completedAt := Some(at), error := reason)
  }

  /** The fallback re-enqueue of id by its stored job type; nothing changes
      when it fails. */
  function Reenqueued(v: View, id: string, fails: bool): View
  {
    var q := RequeueOne(id, v.tasks, if fails then {id} else {}, (v.fifo, v.pq));
    v.(fifo := q.0, pq := q.1)
  }

  /** handleTransient on task at time at: one more retry, then either
      finalisation or the task stored and its retry scheduled after backoff
      plus jitter, re-enqueued at once if scheduling fails. */
  function AfterTransient(v: View, task: Task, at: Time, jitterDraw: nat, f: WorkerFaults): (r: (Task, View))
    ensures r.0.id == task.id && r.0.jobType == task.jobType && r.0.retryCount == task.retryCount + 1
    ensures r.1.tasks == Stored(v.tasks, r.0, f.storeFinalFails)
    ensures ExhaustsRetries(task.retryCount) ==>
              r.0.status == Failed && r.1.retry == v.retry && r.1.fifo == v.fifo && r.1.pq == v.pq
    ensures ExhaustsRetries(task.retryCount) ==>
              r.0 == Finalized(task.(retryCount := task.retryCount + 1), "exhausted retries", at)
    ensures !ExhaustsRetries(task.retryCount) ==> r.0.status == task.status
    ensures f.scheduleFails || ExhaustsRetries(task.retryCount) ==> r.1.retry == v.retry
    ensures !ExhaustsRetries(task.retryCount) && !f.scheduleFails ==>
              && r.1.retry == v.retry[task.id := UnixSeconds(NextRetryAt(at, task.retryCount + 1, jitterDraw))]
              && r.1.fifo == v.fifo && r.1.pq == v.pq
    ensures f.scheduleFails && (f.reenqueueGetFails || f.reenqueueEnqueueFails || TaskKey(task.id) !in r.1.tasks) ==>
              r.1.fifo == v.fifo && r.1.pq == v.pq
    ensures !ExhaustsRetries(task.retryCount) && f.scheduleFails && !f.reenqueueGetFails && !f.reenqueueEnqueueFails
            && TaskKey(task.id) in r.1.tasks ==>
              match Route(r.1.tasks[TaskKey(task.id)].jobType)
              case ToPriority(score) => r.1.pq == v.pq[task.id := score] && r.1.fifo == v.fifo
              case ToFifo => r.1.fifo == LPush(v.fifo, task.id) && r.1.pq == v.pq
  {
    var t := task.(retryCount := task.retryCount + 1);
    if ExhaustsRetries(task.retryCount) then
      var failed := Finalized(t, "exhausted retries", at);
      (failed, v.(tasks := Stored(v.tasks, failed, f.storeFinalFails)))
    else
      var stored := v.(tasks := Stored(v.tasks, t, f.storeFinalFails));
      if !f.scheduleFails then
        (t, stored.(retry := stored.retry[t.id := UnixSeconds(NextRetryAt(at, t.retryCount, jitterDraw))]))
      else
        (t, Reenqueued(stored, t.id, f.reenqueueGetFails || f.reenqueueEnqueueFails))
  }

  /** The status a task is left in by processing, from its retry count, the
      draw and whether the first store fails. */
  function ProcessedStatus(retryCount: nat, u: nat, f: WorkerFaults): string
  {
    if f.storeRunningFails then Running
    else if u < PermanentRate then Failed
    else if u < PermanentRate + TransientRate then (if retryCount + 1 > MaxRetries then Failed else Running)
    else Succeeded
  }

  /** processTask: the task marked running (processing stops if that store
      fails), then the draw u decides between permanent failure, transient
      failure and success.  The task keeps its identity, is stamped with the
      start time and left with the status ProcessedStatus says; only a
      transient failure touches the retry set or the queues, and a failed
      first store touches nothing. */
  function AfterProcess(v: View, task: Task, startedAt: Time, u: nat, finishedAt: Time, jitterDraw: nat,
                        f: WorkerFaults): (r: (Task, View))
    ensures r.0.id == task.id && r.0.jobType == task.jobType && r.0.startedAt == Some(startedAt)
    ensures r.0.status == ProcessedStatus(task.retryCount, u, f)
    ensures r.0.retryCount == if !f.storeRunningFails && Classify(u) == TransientFailure then task.retryCount + 1
                              else task.retryCount
    ensures f.storeRunningFails ==> r.1 == v
    ensures f.storeRunningFails || Classify(u) != TransientFailure ==>
              r.1.retry == v.retry && r.1.fifo == v.fifo && r.1.pq == v.pq
    ensures !f.storeRunningFails ==> TaskKey(task.id) in r.1.tasks
    ensures !f.storeRunningFails && Classify(u) == TransientFailure ==>
              var running := task.(status := Running, startedAt := Some(startedAt));
              r == AfterTransient(v.(tasks := v.tasks[TaskKey(task.id) := running]), running, finishedAt, jitterDraw, f)
    ensures !f.storeRunningFails && Classify(u) != TransientFailure ==>
              var running := task.(status := Running, startedAt := Some(startedAt));
              && r.0.completedAt == Some(finishedAt)
              && r.1.tasks == Stored(v.tasks[TaskKey(task.id) := running], r.0, f.storeFinalFails)
    ensures !f.storeRunningFails && Classify(u) == PermanentFailure ==> r.0.error == "permanent error"
    ensures !f.storeRunningFails && Classify(u) == Completes ==> r.0.result == "Task completed successfully"
  {
    var running := task.(status := Running, startedAt := Some(startedAt));
    if f.storeRunningFails then (running, v)
    else
      var v1 := v.(tasks := v.tasks[TaskKey(task.id) := running]);
      match Classify(u)
      case PermanentFailure =>
        var t := Finalized(running, "permanent error", finishedAt);
        (t, v1.(tasks := Stored(v1.tasks, t, f.storeFinalFails)))
      case TransientFailure =>
        AfterTransient(v1, running, finishedAt, jitterDraw, f)
      case Completes =>
        var t := running.(status := Succeeded, completedAt := Some(finishedAt), result := "Task completed successfully");
        (t, v1.(tasks := Stored(v1.tasks, t, f.storeFinalFails)))
  }

  /** A transient failure does not lose the task: unless its retries are used
      up, it is stored and either waits in the retry set or, when scheduling
      fails and the fallback succeeds, is back on a queue. */
  lemma TransientNotLost(v: View, task: Task, at: Time, jitterDraw: nat, f: WorkerFaults)
    requires !ExhaustsRetries(task.retryCount) && !f.storeFinalFails
    requires f.scheduleFails ==> !f.reenqueueGetFails && !f.reenqueueEnqueueFails
    ensures var (t, v') := AfterTransient(v, task, at, jitterDraw, f);
            && v'.tasks[TaskKey(t.id)] == t
            && (!f.scheduleFails ==> t.id in v'.retry && v'.retry[t.id] == UnixSeconds(NextRetryAt(at, t.retryCount, jitterDraw)))
            && (f.scheduleFails ==> t.id in v'.fifo || t.id in v'.pq)
  {
    var (t, v') := AfterTransient(v, task, at, jitterDraw, f);
    if f.scheduleFails {
      RequeueOneKeeps(t.id, v'.tasks, {}, (v.fifo, v.pq));
    }
  }

  /** Marks the task failed for good, with the reason and the completion time. */
  method FinalizeFailed(r: Redis, task: Task, reason: string, at: Time, storeFault: bool) returns (t: Task)
    requires r.Valid()
    modifies r`tasks
    ensures r.Valid()
    ensures t == Finalized(task, reason, at)
    ensures r.tasks == Stored(old(r.tasks), t, storeFault)
  {
    t := task.(status := Failed, completedAt := Some(at), error := reason);
    var _ := r.StoreTask(t, storeFault);
  }

  /** A transient failure: one more retry, and either finalisation or a retry
      scheduled after backoff plus jitter (re-enqueued at once if scheduling fails). */
  method HandleTransient(r: Redis, task: Task, at: Time, jitterDraw: nat, f: WorkerFaults) returns (t: Task)
    requires r.Valid()
    modifies r`tasks, r`retry, r`fifo, r`pq
    ensures r.Valid()
    ensures (t, ViewOf(r)) == AfterTransient(old(ViewOf(r)), task, at, jitterDraw, f)
  {
    t := task.(retryCount := task.retryCount + 1);
    if t.retryCount > MaxRetries {
      t := FinalizeFailed(r, t, "exhausted retries", at, f.storeFinalFails);
      return;
    }
    var next := NextRetryAt(at, t.retryCount, jitterDraw);
    var _ := r.StoreTask(t, f.storeFinalFails);
    var err := r.ScheduleRetry(t.id, next, f.scheduleFails);
    if err.Some? {
      ghost var v := ViewOf(r);
      var _ := r.ReenqueueByType(t.id, f.reenqueueGetFails, f.reenqueueEnqueueFails);
      assert ViewOf(r) == Reenqueued(v, t.id, f.reenqueueGetFails || f.reenqueueEnqueueFails);
    }
  }

  /** Runs one task: marks it running (giving up if that store fails), then
      classifies the draw into permanent failure, transient failure or success. */
  method ProcessTask(r: Redis, task: Task, startedAt: Time, u: nat, finishedAt: Time, jitterDraw: nat,
                     f: WorkerFaults) returns (t: Task)
    requires r.Valid()
    modifies r`tasks, r`retry, r`fifo, r`pq
    ensures r.Valid()
    ensures (t, ViewOf(r)) == AfterProcess(old(ViewOf(r)), task, startedAt, u, finishedAt, jitterDraw, f)
  {
    t := task.(status := Running, startedAt := Some(startedAt));
    var err := r.StoreTask(t, f.storeRunningFails);
    if err.Some? {
      return;
    }
    match Classify(u) {
      case PermanentFailure =>
        t := FinalizeFailed(r, t, "permanent error", finishedAt, f.storeFinalFails);
      case TransientFailure =>
        t := HandleTransient(r, t, finishedAt, jitterDraw, f);
      case Completes =>
        t := t.(status := Succeeded, completedAt := Some(finishedAt), result := "Task completed successfully");
        var _ := r.StoreTask(t, f.storeFinalFails);
    }
  }

  /** The view once id has been taken off the queue the worker reads. */
  function Dequeued(v: View, queueType: string, id: string): View
  {
    if queueType == "priority" then v.(pq := v.pq - {id})
    else if v.fifo == [] then v
    else v.(fifo := Init(v.fifo))
  }

  /** One pass of the worker loop: dequeue from the priority queue when
      queueType is "priority" and from the FIFO queue otherwise, read the task,
      process it.  Returns the id taken off the queue and the processed task,
      if any. */
  method WorkerIteration(r: Redis, queueType: string, dequeueFault: bool, getFault: bool,
                         startedAt: Time, u: nat, finishedAt: Time, jitterDraw: nat, f: WorkerFaults)
    returns (taken: Option<string>, processed: Option<Task>)
    requires r.Valid()
    modifies r`tasks, r`retry, r`fifo, r`pq
    ensures r.Valid()
    ensures taken.None? <==>
              dequeueFault || (if queueType == "priority" then old(r.pq) == map[] else old(r.fifo) == [])
    ensures taken.None? ==> processed == None && ViewOf(r) == old(ViewOf(r))
    ensures taken.Some? && queueType == "priority" ==> IsMinMember(old(r.pq), taken.value)
    ensures taken.Some? && queueType != "priority" ==> old(r.fifo) != [] && taken.value == Last(old(r.fifo))
    ensures taken.Some? ==>
              && (processed.None? <==> getFault || TaskKey(taken.value) !in old(r.tasks))
              && (processed.None? ==> ViewOf(r) == Dequeued(old(ViewOf(r)), queueType, taken.value))
    ensures processed.Some? ==>
              && taken.Some? && processed.value.id == taken.value
              && (processed.value, ViewOf(r)) ==
                   AfterProcess(Dequeued(old(ViewOf(r)), queueType, taken.value), old(r.tasks)[TaskKey(taken.value)],
                                startedAt, u, finishedAt, jitterDraw, f)
              && processed.value.startedAt == Some(startedAt)
              && processed.value.status == ProcessedStatus(old(r.tasks)[TaskKey(taken.value)].retryCount, u, f)
    ensures processed.Some? && (f.storeRunningFails || Classify(u) != TransientFailure) ==>
              && r.retry == old(r.retry)
              && (queueType == "priority" ==> r.pq == old(r.pq) - {taken.value} && r.fifo == old(r.fifo))
              && (queueType != "priority" ==> r.fifo == Init(old(r.fifo)) && r.pq == old(r.pq))
  {
    var dequeued: Result<string, RedisError>;
    if queueType == "priority" {
      dequeued := r.DequeuePriority(dequeueFault);
    } else {
      dequeued := r.DequeueFIFO(dequeueFault);
    }
    if dequeued.Failure? {
      return None, None;
    }
    taken := Some(dequeued.value);
    ghost var v := ViewOf(r);
    assert v == Dequeued(old(ViewOf(r)), queueType, dequeued.value);
    var got := r.GetTask(dequeued.value, getFault);
    if got.Failure? {
      return taken, None;
    }
    var t := ProcessTask(r, got.value, startedAt, u, finishedAt, jitterDraw, f);
    processed := Some(t);
  }

  // ---------------------------------------------------------------------------
  // The retry scheduler, one tick
  // ---------------------------------------------------------------------------

  /** The queues after re-enqueueing one id; ids whose re-enqueue fails are skipped. */
  function RequeueOne(id: string, tasks: map<string, Task>, failing: set<string>,
                      q: (seq<string>, map<string, int>)): (seq<string>, map<string, int>)
  {
    if id in failing || TaskKey(id) !in tasks then q
    else match Route(tasks[TaskKey(id)].jobType)
      case ToPriority(score) => (q.0, q.1[id := score])
      case ToFifo => (LPush(q.0, id), q.1)
  }

  /** The queues after re-enqueueing ids in turn: only those ids are added. */
  function RequeueAll(ids: seq<string>, tasks: map<string, Task>, failing: set<string>,
                      q: (seq<string>, map<string, int>)): (r: (seq<string>, map<string, int>))
    ensures forall x :: x in r.0 ==> x in q.0 || x in ids
    ensures forall x :: x in r.1 ==> x in q.1 || x in ids
    decreases |ids|
  {
    if ids == [] then q else RequeueAll(ids[1..], tasks, failing, RequeueOne(ids[0], tasks, failing, q))
  }

  lemma RequeueOneKeeps(id: string, tasks: map<string, Task>, failing: set<string>,
                        q: (seq<string>, map<string, int>))
    ensures var q' := RequeueOne(id, tasks, failing, q);
            && (forall x :: x in q.0 ==> x in q'.0)
            && (forall x :: x in q.1 ==> x in q'.1)
            && (id !in failing && TaskKey(id) in tasks ==> id in q'.0 || id in q'.1)
  {
  }

  /** Every id whose task is stored and whose re-enqueue succeeds ends up on a
      queue, and nothing already queued is taken off. */
  lemma {:induction false} RequeueAllKeeps(ids: seq<string>, tasks: map<string, Task>, failing: set<string>,
                                           q: (seq<string>, map<string, int>))
    ensures var q' := RequeueAll(ids, tasks, failing, q);
            && (forall x :: x in q.0 ==> x in q'.0)
            && (forall x :: x in q.1 ==> x in q'.1)
            && (forall i :: 0 <= i < |ids| && ids[i] !in failing && TaskKey(ids[i]) in tasks ==>
                  ids[i] in q'.0 || ids[i] in q'.1)
    decreases |ids|
  {
    if ids != [] {
      var q1 := RequeueOne(ids[0], tasks, failing, q);
      var q' := RequeueAll(ids[1..], tasks, failing, q1);
      assert RequeueAll(ids, tasks, failing, q) == q';
      RequeueOneKeeps(ids[0], tasks, failing, q);
      RequeueAllKeeps(ids[1..], tasks, failing, q1);
      forall i | 0 <= i < |ids| && ids[i] !in failing && TaskKey(ids[i]) in tasks
        ensures ids[i] in q'.0 || ids[i] in q'.1
      {
        if i > 0 {
          assert ids[i] == ids[1..][i - 1];
        } else {
          assert ids[0] in q1.0 || ids[0] in q1.1;
        }
      }
    }
  }

  /** One tick of the retry scheduler: take up to 128 due retries and put each
      back on the queue of its job type.  `failing` names the ids whose
      re-enqueue round trips fail. */
  method RetrySchedulerTick(r: Redis, now: Time, rangeFault: bool, remFault: bool, failing: set<string>)
    returns (due: seq<string>)
    requires r.Valid()
    modifies r`retry, r`fifo, r`pq
    ensures r.Valid()
    ensures |due| <= RetryBatch
    ensures due != [] ==> IsDueRange(old(r.retry), UnixSeconds(now), RetryBatch, due)
                          && r.retry == old(r.retry) - (set i | i in due)
    ensures due == [] ==> r.retry == old(r.retry)
    ensures rangeFault || (remFault && DueMembers(old(r.retry), UnixSeconds(now)) != {}) ==>
              due == [] && r.retry == old(r.retry) && r.fifo == old(r.fifo) && r.pq == old(r.pq)
    ensures !rangeFault && !(remFault && DueMembers(old(r.retry), UnixSeconds(now)) != {}) ==>
              IsDueRange(old(r.retry), UnixSeconds(now), RetryBatch, due) && r.retry == old(r.retry) - (set i | i in due)
    ensures (r.fifo, r.pq) == RequeueAll(due, r.tasks, failing, (old(r.fifo), old(r.pq)))
  {
    var popped := r.PopDueRetries(RetryBatch, now, rangeFault, remFault);
    if popped.Failure? {
      return [];
    }
    due := popped.value;
    var i := 0;
    while i < |due|
      invariant 0 <= i <= |due|
      invariant r.Valid()
      invariant r.retry == old(r.retry) - (set i | i in due)
      invariant RequeueAll(due, r.tasks, failing, (old(r.fifo), old(r.pq)))
                == RequeueAll(due[i..], r.tasks, failing, (r.fifo, r.pq))
    {
      var id := due[i];
      var _ := r.ReenqueueByType(id, id in failing, false);
      assert due[i..][1..] == due[i + 1..];
      i := i + 1;
    }
  }
}
