/**
 * The Redis layer of the queue service (src/redis/redis.go), with Redis itself
 * as abstract state: the FIFO list, the priority sorted set, the task string
 * keys, the retry sorted set and the rate-limit counters.  A `fault` parameter
 * says that the round trip of that call to the server fails with a connection
 * error; a missing key or an empty list is reported as `Nil`, as go-redis
 * reports redis.Nil.
 */
module RedisStore {
  import opened Wrappers
  import opened Models

  const FifoQueueKey := "task:queue"
  const PriorityQueueKey := "task:priority_queue"
  const TaskResultPrefix := "task:result:"
  const RetryZsetKey := "task:retry"
  const NanosPerSecond := 1_000_000_000

  datatype RedisError = Nil | ConnError

  // ---------------------------------------------------------------------------
  // Keys and scores
  // ---------------------------------------------------------------------------

  /** The string key under which a task is stored. */
  function TaskKey(id: string): string
  {
    TaskResultPrefix + id
  }

  predicate IsTaskKey(k: string)
  {
    |TaskResultPrefix| <= |k| && k[..|TaskResultPrefix|] == TaskResultPrefix
  }

  /** Distinct ids never share a key. */
  lemma TaskKeyInjective(a: string, b: string)
    ensures TaskKey(a) == TaskKey(b) <==> a == b
  {
    if TaskKey(a) == TaskKey(b) {
      assert a == TaskKey(a)[|TaskResultPrefix|..];
      assert b == TaskKey(b)[|TaskResultPrefix|..];
    }
  }

  lemma TaskKeyIsTaskKey(id: string)
    ensures IsTaskKey(TaskKey(id))
  {
    assert TaskKey(id)[..|TaskResultPrefix|] == TaskResultPrefix;
  }

  /** A store of one key leaves every other id's key as it was. */
  lemma StoreKeepsOthers(m: map<string, Task>, t: Task, id: string)
    requires id != t.id
    ensures TaskKey(id) in m[TaskKey(t.id) := t] <==> TaskKey(id) in m
    ensures TaskKey(id) in m ==> m[TaskKey(t.id) := t][TaskKey(id)] == m[TaskKey(id)]
  {
    TaskKeyInjective(id, t.id);
  }

  /** The score EnqueuePriority gives: 1 for short jobs, 2 for every other type. */
  function PriorityScore(jobType: string): (score: int)
    ensures score == 1 || score == 2
    ensures score == 1 <==> jobType == Short
  {
    if jobType == Short then 1 else 2
  }

  /** The Unix time in whole seconds of a clock reading, as time.Time.Unix. */
  function UnixSeconds(t: Time): int
  {
    t / NanosPerSecond
  }

  // ---------------------------------------------------------------------------
  // The FIFO list: LPUSH at the head, RPOP at the tail
  // ---------------------------------------------------------------------------

  function LPush(list: seq<string>, x: string): seq<string>
  {
    [x] + list
  }

  function Last(list: seq<string>): string
    requires list != []
  {
    list[|list| - 1]
  }

  function Init(list: seq<string>): seq<string>
    requires list != []
  {
    list[..|list| - 1]
  }

  /** The list after LPUSHing each of xs in turn. */
  function PushAll(list: seq<string>, xs: seq<string>): seq<string>
    decreases |xs|
  {
    if xs == [] then list else PushAll(LPush(list, xs[0]), xs[1..])
  }

  /** The ids RPOP returns, in order, until the list is empty. */
  function PopAll(list: seq<string>): seq<string>
    decreases |list|
  {
    if list == [] then [] else [Last(list)] + PopAll(Init(list))
  }

  lemma {:induction false} PopAllAfterPush(x: string, list: seq<string>)
    ensures PopAll(LPush(list, x)) == PopAll(list) + [x]
    decreases |list|
  {
    if list != [] {
      var l := LPush(list, x);
      assert Last(l) == Last(list);
      assert Init(l) == LPush(Init(list), x);
      PopAllAfterPush(x, Init(list));
      calc {
        PopAll(l);
        [Last(list)] + PopAll(LPush(Init(list), x));
        [Last(list)] + (PopAll(Init(list)) + [x]);
        ([Last(list)] + PopAll(Init(list))) + [x];
      }
    }
  }

  /** Ids leave the FIFO list in the order they entered it, after whatever was
      already queued. */
  lemma {:induction false} FifoOrder(list: seq<string>, xs: seq<string>)
    ensures PopAll(PushAll(list, xs)) == PopAll(list) + xs
    decreases |xs|
  {
    if xs != [] {
      FifoOrder(LPush(list, xs[0]), xs[1..]);
      PopAllAfterPush(xs[0], list);
      assert [xs[0]] + xs[1..] == xs;
    }
  }

  // ---------------------------------------------------------------------------
  // Sorted sets
  // ---------------------------------------------------------------------------

  /** m is a member of least score. */
  predicate IsMinMember(z: map<string, int>, m: string)
  {
    m in z && forall o :: o in z ==> z[m] <= z[o]
  }

  lemma {:induction false} LeastExists(z: map<string, int>, s: set<string>)
    requires s != {} && s <= z.Keys
    ensures exists m :: m in s && forall o :: o in s ==> z[m] <= z[o]
    decreases |s|
  {
    var x :| x in s;
    if s != {x} {
      LeastExists(z, s - {x});
      var m :| m in s - {x} && forall o :: o in s - {x} ==> z[m] <= z[o];
      if z[x] < z[m] {
        assert forall o :: o in s ==> z[x] <= z[o];
      } else {
        assert forall o :: o in s ==> z[m] <= z[o];
      }
    }
  }

  /** While a short task (score 1) is queued, a least-score member is never a
      task of any other type (score 2). */
  lemma ShortBeforeLong(z: map<string, int>, m: string, s: string)
    requires forall o :: o in z ==> z[o] == PriorityScore(Short) || z[o] == PriorityScore(Long)
    requires IsMinMember(z, m) && s in z && z[s] == PriorityScore(Short)
    ensures z[m] == PriorityScore(Short)
  {
  }

  /** The members of the retry set whose time has come. */
  function DueMembers(z: map<string, int>, now: int): set<string>
  {
    set m | m in z && z[m] <= now
  }

  /** items is what ZRANGEBYSCORE -inf now LIMIT 0 limit returns: distinct due
      members in ascending score, the lowest ones first, at most limit of them
      (all when limit <= 0, as go-redis then sends no LIMIT). */
  predicate IsDueRange(z: map<string, int>, now: int, limit: int, items: seq<string>)
  {
    && (forall i :: 0 <= i < |items| ==> items[i] in DueMembers(z, now))
    && (forall i, j :: 0 <= i < j < |items| ==> items[i] != items[j])
    && (forall i, j :: 0 <= i < j < |items| ==> z[items[i]] <= z[items[j]])
    && (forall i, m :: 0 <= i < |items| && m in DueMembers(z, now) && m !in items ==> z[items[i]] <= z[m])
    && |items| == (if 0 < limit < |DueMembers(z, now)| then limit else |DueMembers(z, now)|)
  }

  /** ZRANGEBYSCORE key -inf max LIMIT 0 limit: the due members, lowest score first. */
  method RangeByScore(z: map<string, int>, max: int, limit: int) returns (items: seq<string>)
    ensures IsDueRange(z, max, limit, items)
  {
    ghost var due := DueMembers(z, max);
    var rest := DueMembers(z, max);
    items := [];
    while rest != {} && (limit <= 0 || |items| < limit)
      invariant rest <= due && due <= z.Keys
      invariant forall i :: 0 <= i < |items| ==> items[i] in due && items[i] !in rest
      invariant forall i, j :: 0 <= i < j < |items| ==> items[i] != items[j]
      invariant forall i, j :: 0 <= i < j < |items| ==> z[items[i]] <= z[items[j]]
      invariant forall i, m :: 0 <= i < |items| && m in rest ==> z[items[i]] <= z[m]
      invariant forall m :: m in due && m !in rest ==> m in items
      invariant |items| + |rest| == |due|
      invariant limit > 0 ==> |items| <= limit
      decreases rest
    {
      LeastExists(z, rest);
      var m :| m in rest && forall o :: o in rest ==> z[m] <= z[o];
      items := items + [m];
      rest := rest - {m};
    }
  }

  /** What a route by job type sends a task to during a re-enqueue. */
  datatype Destination = ToPriority(score: int) | ToFifo

  function Route(jobType: string): (d: Destination)
    ensures d.ToPriority? <==> jobType == Short || jobType == Long
    ensures d.ToPriority? ==> d.score == PriorityScore(jobType)
  {
    if jobType == Short then ToPriority(PriorityScore(Short))
    else if jobType == Long then ToPriority(PriorityScore(Long))
    else ToFifo
  }

  // ---------------------------------------------------------------------------
  // The server state
  // ---------------------------------------------------------------------------

  class Redis {
    /** The list at FifoQueueKey; index 0 is the head (the LPUSH end). */
    var fifo: seq<string>
    /** The sorted set at PriorityQueueKey: member to score. */
    var pq: map<string, int>
    /** The string keys holding tasks, decoded. */
    var tasks: map<string, Task>
    /** The sorted set at RetryZsetKey: member to Unix seconds. */
    var retry: map<string, int>
    /** The rate-limit counters. */
    var counters: map<string, int>
    /** Time-to-live in seconds of the keys that have one. */
    var expiry: map<string, int>

    /** Every task is stored under the key of its own id, and every member of
        the priority set has one of the two scores a job type can get. */
    ghost predicate Valid()
      reads this`tasks, this`pq
    {
      && (forall k :: k in tasks ==> k == TaskKey(tasks[k].id))
      && (forall m :: m in pq ==> pq[m] == PriorityScore(Short) || pq[m] == PriorityScore(Long))
    }

    /** An empty database. */
    constructor ()
      ensures Valid()
      ensures fifo == [] && pq == map[] && tasks == map[]
      ensures retry == map[] && counters == map[] && expiry == map[]
    {
      fifo, pq, tasks := [], map[], map[];
      retry, counters, expiry := map[], map[], map[];
    }

    method EnqueueFIFO(taskID: string, fault: bool) returns (err: Option<RedisError>)
      modifies this`fifo
      ensures err == (if fault then Some(ConnError) else None)
      ensures fifo == if fault then old(fifo) else LPush(old(fifo), taskID)
    {
      if fault {
        return Some(ConnError);
      }
      fifo := LPush(fifo, taskID);
      err := None;
    }

    method DequeueFIFO(fault: bool) returns (r: Result<string, RedisError>)
      modifies this`fifo
      ensures fault ==> r == Failure(ConnError) && fifo == old(fifo)
      ensures !fault && old(fifo) == [] ==> r == Failure(Nil) && fifo == []
      ensures !fault && old(fifo) != [] ==> r == Success(Last(old(fifo))) && fifo == Init(old(fifo))
    {
      if fault {
        return Failure(ConnError);
      }
      if fifo == [] {
        return Failure(Nil);
      }
      r := Success(Last(fifo));
      fifo := Init(fifo);
    }

    method EnqueuePriority(taskID: string, jobType: string, fault: bool) returns (err: Option<RedisError>)
      requires Valid()
      modifies this`pq
      ensures Valid()
      ensures err == (if fault then Some(ConnError) else None)
      ensures pq == if fault then old(pq) else old(pq)[taskID := PriorityScore(jobType)]
    {
      if fault {
        return Some(ConnError);
      }
      pq := pq[taskID := PriorityScore(jobType)];
      err := None;
    }

    /** ZPOPMIN; its error is dropped by .Val(), so a failed round trip reads
        as an empty set. */
    method DequeuePriority(fault: bool) returns (r: Result<string, RedisError>)
      requires Valid()
      modifies this`pq
      ensures Valid()
      ensures fault || old(pq) == map[] ==> r == Failure(Nil) && pq == old(pq)
      ensures !fault && old(pq) != map[] ==>
                r.Success? && IsMinMember(old(pq), r.value) && pq == old(pq) - {r.value}
      ensures r.Success? && old(pq)[r.value] == PriorityScore(Long) ==>
                forall m :: m in old(pq) ==> old(pq)[m] == PriorityScore(Long)
    {
      if fault || pq == map[] {
        return Failure(Nil);
      }
      assert pq.Keys != {};
      LeastExists(pq, pq.Keys);
      var m :| m in pq && forall o :: o in pq ==> pq[m] <= pq[o];
      forall o | o in pq && pq[o] == PriorityScore(Short)
        ensures pq[m] == PriorityScore(Short)
      {
        ShortBeforeLong(pq, m, o);
      }
      pq := pq - {m};
      r := Success(m);
    }

    method StoreTask(task: Task, fault: bool) returns (err: Option<RedisError>)
      requires Valid()
      modifies this`tasks
      ensures Valid()
      ensures err == (if fault then Some(ConnError) else None)
      ensures tasks == if fault then old(tasks) else old(tasks)[TaskKey(task.id) := task]
    {
      if fault {
        return Some(ConnError);
      }
      tasks := tasks[TaskKey(task.id) := task];
      err := None;
    }

    method GetTask(taskID: string, fault: bool) returns (r: Result<Task, RedisError>)
      requires Valid()
      ensures fault ==> r == Failure(ConnError)
      ensures !fault ==> (r.Success? <==> TaskKey(taskID) in tasks)
      ensures !fault && TaskKey(taskID) !in tasks ==> r == Failure(Nil)
      ensures r.Success? ==> r.value == tasks[TaskKey(taskID)] && r.value.id == taskID
    {
      if fault {
        return Failure(ConnError);
      }
      var key := TaskKey(taskID);
      if key !in tasks {
        return Failure(Nil);
      }
      TaskKeyInjective(taskID, tasks[key].id);
      r := Success(tasks[key]);
    }

    method TaskExists(taskID: string, fault: bool) returns (r: Result<bool, RedisError>)
      ensures r == if fault then Failure(ConnError) else Success(TaskKey(taskID) in tasks)
    {
      if fault {
        return Failure(ConnError);
      }
      r := Success(TaskKey(taskID) in tasks);
    }

    /** Read-modify-write of the status field alone. */
    method UpdateTaskStatus(taskID: string, status: string, getFault: bool, storeFault: bool)
      returns (err: Option<RedisError>)
      requires Valid()
      modifies this`tasks
      ensures Valid()
      ensures err.None? <==> !getFault && TaskKey(taskID) in old(tasks) && !storeFault
      ensures err.None? ==>
                tasks == old(tasks)[TaskKey(taskID) := old(tasks)[TaskKey(taskID)].(status := status)]
      ensures err.Some? ==> tasks == old(tasks)
    {
      var got := GetTask(taskID, getFault);
      if got.Failure? {
        return Some(got.error);
      }
      var task := got.value.(status := status);
      err := StoreTask(task, storeFault);
    }

    /** Deletes both queues and every task key, stopping at the first error. */
    method ClearAllData(delFifoFault: bool, delPriorityFault: bool, keysFault: bool, delKeysFault: bool)
      returns (err: Option<RedisError>)
      requires Valid()
      modifies this`fifo, this`pq, this`tasks
      ensures Valid()
      ensures err.None? <==>
                !delFifoFault && !delPriorityFault && !keysFault && !(delKeysFault && old(tasks) != map[])
      ensures fifo == if delFifoFault then old(fifo) else []
      ensures pq == if delFifoFault || delPriorityFault then old(pq) else map[]
      ensures tasks == if delFifoFault || delPriorityFault || keysFault || delKeysFault then old(tasks) else map[]
    {
      if delFifoFault {
        return Some(ConnError);
      }
      fifo := [];
      if delPriorityFault {
        return Some(ConnError);
      }
      pq := map[];
      if keysFault {
        return Some(ConnError);
      }
      var keys := set k | k in tasks && IsTaskKey(k);
      forall k | k in tasks
        ensures k in keys
      {
        TaskKeyIsTaskKey(tasks[k].id);
      }
      assert keys == tasks.Keys;
      if keys != {} {
        if delKeysFault {
          return Some(ConnError);
        }
        tasks := tasks - keys;
        assert tasks.Keys == {};
      }
      err := None;
    }

    method ScheduleRetry(taskID: string, next: Time, fault: bool) returns (err: Option<RedisError>)
      modifies this`retry
      ensures err == (if fault then Some(ConnError) else None)
      ensures retry == if fault then old(retry) else old(retry)[taskID := UnixSeconds(next)]
    {
      if fault {
        return Some(ConnError);
      }
      retry := retry[taskID := UnixSeconds(next)];
      err := None;
    }

    /** Takes up to limit members whose retry time is at or before now out of
        the retry set.  The selection loop stands for the server's range scan. */
    method PopDueRetries(limit: int, now: Time, rangeFault: bool, remFault: bool)
      returns (r: Result<seq<string>, RedisError>)
      modifies this`retry
      ensures r.Failure? <==> rangeFault || (remFault && DueMembers(old(retry), UnixSeconds(now)) != {})
      ensures r.Failure? ==> r.error == ConnError && retry == old(retry)
      ensures r.Success? ==>
                IsDueRange(old(retry), UnixSeconds(now), limit, r.value)
                && retry == old(retry) - (set i | i in r.value)
    {
      if rangeFault {
        return Failure(ConnError);
      }
      var items := RangeByScore(retry, UnixSeconds(now), limit);
      if items == [] {
        return Success([]);
      }
      if remFault {
        return Failure(ConnError);
      }
      retry := retry - (set i | i in items);
      r := Success(items);
    }

    /** Puts a task back on the queue its job type calls for. */
    method ReenqueueByType(taskID: string, getFault: bool, enqueueFault: bool)
      returns (err: Option<RedisError>)
      requires Valid()
      modifies this`fifo, this`pq
      ensures Valid()
      ensures err.None? <==> !getFault && TaskKey(taskID) in tasks && !enqueueFault
      ensures err.None? && Route(tasks[TaskKey(taskID)].jobType).ToPriority? ==>
                pq == old(pq)[taskID := Route(tasks[TaskKey(taskID)].jobType).score] && fifo == old(fifo)
      ensures err.None? && Route(tasks[TaskKey(taskID)].jobType).ToFifo? ==>
                fifo == LPush(old(fifo), taskID) && pq == old(pq)
      ensures err.Some? ==> fifo == old(fifo) && pq == old(pq)
    {
      var got := GetTask(taskID, getFault);
      if got.Failure? {
        return Some(got.error);
      }
      var jobType := got.value.jobType;
      if jobType == Short {
        err := EnqueuePriority(taskID, Short, enqueueFault);
      } else if jobType == Long {
        err := EnqueuePriority(taskID, Long, enqueueFault);
      } else {
        err := EnqueueFIFO(taskID, enqueueFault);
      }
    }

    method Incr(key: string, fault: bool) returns (r: Result<int, RedisError>)
      modifies this`counters
      ensures fault ==> r == Failure(ConnError) && counters == old(counters)
      ensures !fault ==>
                var c := (if key in old(counters) then old(counters)[key] else 0) + 1;
                r == Success(c) && counters == old(counters)[key := c]
    {
      if fault {
        return Failure(ConnError);
      }
      var c := (if key in counters then counters[key] else 0) + 1;
      counters := counters[key := c];
      r := Success(c);
    }

    /** EXPIRE on a counter key; a key that does not exist is left alone. */
    method Expire(key: string, seconds: int, fault: bool) returns (err: Option<RedisError>)
      modifies this`expiry
      ensures err == (if fault then Some(ConnError) else None)
      ensures expiry == if fault || key !in counters then old(expiry) else old(expiry)[key := seconds]
    {
      if fault {
        return Some(ConnError);
      }
      if key in counters {
        expiry := expiry[key := seconds];
      }
      err := None;
    }
  }
}
