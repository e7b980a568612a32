/**
 * The Locust harness's task-lifecycle engine (locust/locustfile_priority.py):
 * enrolment of submitted tasks, oldest-first status polling over the shared
 * pending deque, the post-load drain, and the test-stop report.
 *
 * Clocks are abstract integers in milliseconds.  HTTP replies are inputs: the
 * reply to a submission, the reply to one status check, and for the drain a
 * function giving the reply to the check of a task in a given pass.
 */
module LocustHarness {
  import opened Wrappers
  import LatencyStats

  /** The pause between drain passes, and the drain budget at test stop. */
  const SleepMs := 1000
  const StopMaxWaitMs := 120000

  /** The record kept per enrolled task (the task_info dict). */
  datatype TaskInfo = TaskInfo(id: string, jobType: string, submitTime: int)

  /** The reply to POST /task/pq: status code, and task.id when the body parses. */
  datatype SubmitReply = SubmitReply(code: int, taskId: Option<string>)

  /** The reply to GET /task/:id: none (a raised request error), or a status
      code with the body's "status" when the body parses and has one. */
  datatype StatusReply = NoResponse | StatusReply(code: int, status: Option<string>)

  /** A check sees the task finished: 200 with status "success" or "failed". */
  predicate IsTerminal(reply: StatusReply)
  {
    reply.StatusReply? && reply.code == 200 && reply.status.Some?
    && (reply.status.value == "success" || reply.status.value == "failed")
  }

  // ---------------------------------------------------------------------------
  // Polling rotation
  // ---------------------------------------------------------------------------

  /** popleft then append: the head moves to the tail. */
  function RotateOnce(s: seq<TaskInfo>): seq<TaskInfo>
  {
    if s == [] then [] else s[1..] + [s[0]]
  }

  /** The deque after n checks that all found their task unfinished. */
  function Rotate(s: seq<TaskInfo>, n: nat): seq<TaskInfo>
  {
    if n == 0 then s else RotateOnce(Rotate(s, n - 1))
  }

  /** Oldest-first polling: while nothing finishes, the n-th check (from 0)
      looks at task n mod |s|, and the deque keeps its length and its tasks. */
  lemma {:induction false} RotateVisitsInTurn(s: seq<TaskInfo>, n: nat)
    requires s != []
    ensures Rotate(s, n) == s[n % |s|..] + s[..n % |s|]
    ensures |Rotate(s, n)| == |s| && multiset(Rotate(s, n)) == multiset(s)
    ensures Rotate(s, n)[0] == s[n % |s|]
  {
    RotateIsSplit(s, n);
    var m := n % |s|;
    assert s == s[..m] + s[m..];
    assert multiset(s[m..] + s[..m]) == multiset(s[m..]) + multiset(s[..m]);
  }

  lemma {:induction false} RotateIsSplit(s: seq<TaskInfo>, n: nat)
    requires s != []
    ensures Rotate(s, n) == s[n % |s|..] + s[..n % |s|]
  {
    if n > 0 {
      RotateIsSplit(s, n - 1);
      var m := (n - 1) % |s|;
      RotateSplit(s, m);
      ModStep(n, |s|);
      if m + 1 == |s| {
        assert s[m + 1..] + s[..m + 1] == s;
        assert s[0..] + s[..0] == s;
      }
    } else {
      assert s[0..] + s[..0] == s;
    }
  }

  lemma RotateSplit(s: seq<TaskInfo>, m: nat)
    requires m < |s|
    ensures RotateOnce(s[m..] + s[..m]) == s[m + 1..] + s[..m + 1]
  {
    var q := s[m..] + s[..m];
    assert q[0] == s[m];
    assert q[1..] == s[m + 1..] + s[..m];
    assert s[..m] + [s[m]] == s[..m + 1];
  }

  lemma ModStep(n: nat, len: nat)
    requires n > 0 && len > 0
    ensures n % len == if (n - 1) % len + 1 == len then 0 else (n - 1) % len + 1
  {
    var q, m := (n - 1) / len, (n - 1) % len;
    assert n - 1 == q * len + m;
    if m + 1 < len {
      ModUnique(n, len, q, m + 1);
    } else {
      assert n == (q + 1) * len + 0;
      ModUnique(n, len, q + 1, 0);
    }
  }

  lemma ModUnique(a: int, len: int, q: int, r: int)
    requires len > 0 && 0 <= r < len && a == q * len + r
    ensures a % len == r
  {
    var q', r' := a / len, a % len;
    assert a == q' * len + r';
    assert q * len - q' * len == (q - q') * len;
    if q > q' {
      MulAtLeast(q - q', len);
    } else if q < q' {
      assert q' * len - q * len == (q' - q) * len;
      MulAtLeast(q' - q, len);
    }
  }

  lemma MulAtLeast(x: int, y: int)
    requires x >= 1 && y >= 0
    ensures x * y >= y
  {
    assert x * y == (x - 1) * y + y;
  }

  // ---------------------------------------------------------------------------
  // The drain, as a specification
  // ---------------------------------------------------------------------------

  /** The tasks a pass finds finished (newly_completed), in order. */
  function Completed(ts: seq<TaskInfo>, k: nat, reply: (nat, TaskInfo) -> StatusReply): seq<TaskInfo>
  {
    if ts == [] then []
    else (if IsTerminal(reply(k, ts[0])) then [ts[0]] else []) + Completed(ts[1..], k, reply)
  }

  /** The tasks a pass leaves unfinished, in order. */
  function StillOpen(ts: seq<TaskInfo>, k: nat, reply: (nat, TaskInfo) -> StatusReply): seq<TaskInfo>
  {
    if ts == [] then []
    else (if IsTerminal(reply(k, ts[0])) then [] else [ts[0]]) + StillOpen(ts[1..], k, reply)
  }

  lemma {:induction false} CompletedAppend(ts: seq<TaskInfo>, x: TaskInfo, k: nat, reply: (nat, TaskInfo) -> StatusReply)
    ensures Completed(ts + [x], k, reply) == Completed(ts, k, reply) + (if IsTerminal(reply(k, x)) then [x] else [])
  {
    var tail := if IsTerminal(reply(k, x)) then [x] else [];
    if ts == [] {
      assert ts + [x] == [x] && ([x])[1..] == [];
      assert Completed([x], k, reply) == tail + Completed([], k, reply);
    } else {
      var head := if IsTerminal(reply(k, ts[0])) then [ts[0]] else [];
      assert (ts + [x])[0] == ts[0] && (ts + [x])[1..] == ts[1..] + [x];
      CompletedAppend(ts[1..], x, k, reply);
      calc {
        Completed(ts + [x], k, reply);
        head + Completed(ts[1..] + [x], k, reply);
        head + (Completed(ts[1..], k, reply) + tail);
        (head + Completed(ts[1..], k, reply)) + tail;
      }
    }
  }

  lemma {:induction false} CompletedMembers(ts: seq<TaskInfo>, k: nat, reply: (nat, TaskInfo) -> StatusReply)
    ensures forall t :: t in Completed(ts, k, reply) ==> t in ts && IsTerminal(reply(k, t))
  {
    if ts != [] {
      CompletedMembers(ts[1..], k, reply);
    }
  }

  /** Each pass splits its tasks into the finished and the unfinished. */
  lemma {:induction false} PassSplits(ts: seq<TaskInfo>, k: nat, reply: (nat, TaskInfo) -> StatusReply)
    ensures multiset(Completed(ts, k, reply)) + multiset(StillOpen(ts, k, reply)) == multiset(ts)
    ensures |Completed(ts, k, reply)| + |StillOpen(ts, k, reply)| == |ts|
  {
    if ts != [] {
      PassSplits(ts[1..], k, reply);
      assert ts == [ts[0]] + ts[1..];
    }
  }

  /** list.remove: drops the first element equal to x. */
  function RemoveFirst(s: seq<TaskInfo>, x: TaskInfo): seq<TaskInfo>
  {
    if s == [] then []
    else if s[0] == x then s[1..]
    else [s[0]] + RemoveFirst(s[1..], x)
  }

  /** Removing each of xs in turn. */
  function RemoveEach(s: seq<TaskInfo>, xs: seq<TaskInfo>): seq<TaskInfo>
    decreases |xs|
  {
    if xs == [] then s else RemoveEach(RemoveFirst(s, xs[0]), xs[1..])
  }

  lemma {:induction false} RemoveEachSkips(x: TaskInfo, r: seq<TaskInfo>, xs: seq<TaskInfo>)
    requires x !in xs
    ensures RemoveEach([x] + r, xs) == [x] + RemoveEach(r, xs)
    decreases |xs|
  {
    if xs != [] {
      assert ([x] + r)[1..] == r;
      assert RemoveFirst([x] + r, xs[0]) == [x] + RemoveFirst(r, xs[0]);
      RemoveEachSkips(x, RemoveFirst(r, xs[0]), xs[1..]);
    }
  }

  /** Removing the newly completed tasks leaves exactly the unfinished ones,
      in their order. */
  lemma {:induction false} RemovingCompletedLeavesOpen(ts: seq<TaskInfo>, k: nat, reply: (nat, TaskInfo) -> StatusReply)
    ensures RemoveEach(ts, Completed(ts, k, reply)) == StillOpen(ts, k, reply)
  {
    if ts != [] {
      var x, r := ts[0], ts[1..];
      var c := Completed(r, k, reply);
      RemovingCompletedLeavesOpen(r, k, reply);
      if IsTerminal(reply(k, x)) {
        assert Completed(ts, k, reply) == [x] + c;
        assert StillOpen(ts, k, reply) == StillOpen(r, k, reply);
        RemoveHead(x, r, c);
      } else {
        assert Completed(ts, k, reply) == c;
        assert StillOpen(ts, k, reply) == [x] + StillOpen(r, k, reply);
        CompletedMembers(r, k, reply);
        assert ts == [x] + r;
        RemoveEachSkips(x, r, c);
      }
    }
  }

  /** Removing x first from a list that starts with x drops that head. */
  lemma RemoveHead(x: TaskInfo, r: seq<TaskInfo>, c: seq<TaskInfo>)
    ensures RemoveEach([x] + r, [x] + c) == RemoveEach(r, c)
  {
    assert ([x] + c)[0] == x && ([x] + c)[1..] == c;
    assert ([x] + r)[1..] == r;
  }

  /** `for task in newly_completed: uncompleted_tasks.remove(task)`. */
  method RemoveAll(s: seq<TaskInfo>, xs: seq<TaskInfo>) returns (r: seq<TaskInfo>)
    ensures r == RemoveEach(s, xs)
  {
    r := s;
    for j := 0 to |xs|
      invariant RemoveEach(s, xs) == RemoveEach(r, xs[j..])
    {
      assert xs[j..][1..] == xs[j + 1..];
      r := RemoveFirst(r, xs[j]);
    }
    assert xs[|xs|..] == [];
  }

  function Repeat(v: int, n: nat): (r: seq<int>)
    ensures |r| == n
  {
    if n == 0 then [] else Repeat(v, n - 1) + [v]
  }

  /** What a drain did: the tasks it left, those it retired in order with the
      clock reading of each, the passes it made and the time it took. */
  datatype DrainResult = DrainResult(left: seq<TaskInfo>, retired: seq<TaskInfo>, observedAt: seq<int>,
                                     passes: nat, elapsed: nat)

  /** The clock after pass k: its requests and the one-second sleep. */
  function NextElapsed(elapsed: nat, k: nat, passCost: nat -> nat): (r: nat)
    ensures r >= elapsed + SleepMs
  {
    elapsed + passCost(k) + SleepMs
  }

  /** The drain loop from pass k, `elapsed` ms after `start`: stop when no task
      is left or the budget is spent; otherwise check every task (pass k's
      requests take passCost(k) ms, its checks read the clock at the pass's
      start), drop the finished ones and sleep a second. */
  function Drain(left: seq<TaskInfo>, k: nat, elapsed: nat, maxWait: nat, start: int,
                 reply: (nat, TaskInfo) -> StatusReply, passCost: nat -> nat): (r: DrainResult)
    ensures |r.retired| == |r.observedAt|
    ensures r.passes >= k && r.elapsed >= elapsed
    decreases maxWait - elapsed
  {
    if left == [] || elapsed >= maxWait then DrainResult(left, [], [], k, elapsed)
    else
      var done := Completed(left, k, reply);
      var rest := Drain(StillOpen(left, k, reply), k + 1, NextElapsed(elapsed, k, passCost), maxWait, start, reply, passCost);
      DrainResult(rest.left, done + rest.retired, Repeat(start + elapsed, |done|) + rest.observedAt,
                  rest.passes, rest.elapsed)
  }

  /** The tasks d left and the tasks it retired make up exactly left, with one
      observation per retired task. */
  ghost predicate Conserves(left: seq<TaskInfo>, d: DrainResult)
  {
    && multiset(d.left) + multiset(d.retired) == multiset(left)
    && |d.retired| == |d.observedAt| && |d.retired| <= |left|
  }

  /** The drain retires each task it was given at most once and keeps the
      rest: the tasks left and the tasks retired make up the drain set. */
  lemma {:induction false} DrainConserves(left: seq<TaskInfo>, k: nat, elapsed: nat, maxWait: nat, start: int,
                                          reply: (nat, TaskInfo) -> StatusReply, passCost: nat -> nat)
    ensures Conserves(left, Drain(left, k, elapsed, maxWait, start, reply, passCost))
    decreases maxWait - elapsed
  {
    if left == [] || elapsed >= maxWait {
      assert Drain(left, k, elapsed, maxWait, start, reply, passCost) == DrainResult(left, [], [], k, elapsed);
      assert Conserves(left, DrainResult(left, [], [], k, elapsed));
    } else {
      var done, open := Completed(left, k, reply), StillOpen(left, k, reply);
      var next := NextElapsed(elapsed, k, passCost);
      var rest := Drain(open, k + 1, next, maxWait, start, reply, passCost);
      DrainUnfold(left, k, elapsed, maxWait, start, reply, passCost);
      PassSplits(left, k, reply);
      DrainConserves(open, k + 1, next, maxWait, start, reply, passCost);
      ConserveStep(left, done, open, rest, Repeat(start + elapsed, |done|),
                   Drain(left, k, elapsed, maxWait, start, reply, passCost));
    }
  }

  /** A pass that splits left into done and open, followed by a drain of open
      that conserves it, conserves left. */
  lemma ConserveStep(left: seq<TaskInfo>, done: seq<TaskInfo>, open: seq<TaskInfo>, rest: DrainResult, stamps: seq<int>,
                     d: DrainResult)
    requires multiset(done) + multiset(open) == multiset(left) && |done| + |open| == |left|
    requires Conserves(open, rest) && |stamps| == |done|
    requires d == DrainResult(rest.left, done + rest.retired, stamps + rest.observedAt, rest.passes, rest.elapsed)
    ensures Conserves(left, d)
  {
    assert multiset(done + rest.retired) == multiset(done) + multiset(rest.retired);
  }

  /** One pass of the drain, when there is one to make. */
  lemma DrainUnfold(left: seq<TaskInfo>, k: nat, elapsed: nat, maxWait: nat, start: int,
                    reply: (nat, TaskInfo) -> StatusReply, passCost: nat -> nat)
    requires left != [] && elapsed < maxWait
    ensures var done := Completed(left, k, reply);
            var rest := Drain(StillOpen(left, k, reply), k + 1, NextElapsed(elapsed, k, passCost), maxWait, start,
                              reply, passCost);
            Drain(left, k, elapsed, maxWait, start, reply, passCost) ==
              DrainResult(rest.left, done + rest.retired, Repeat(start + elapsed, |done|) + rest.observedAt,
                          rest.passes, rest.elapsed)
  {
  }

  /** The drain stops only with nothing left or the budget spent.  Every pass
      starts a second or more after the one before, and the last one starts
      before the budget runs out, so the drain ends at most one pass (its
      requests and its sleep) after maxWait. */
  lemma {:induction false} DrainStops(left: seq<TaskInfo>, k: nat, elapsed: nat, maxWait: nat, start: int,
                                      reply: (nat, TaskInfo) -> StatusReply, passCost: nat -> nat)
    ensures var d := Drain(left, k, elapsed, maxWait, start, reply, passCost);
            && (d.left == [] || d.elapsed >= maxWait)
            && d.passes >= k
            && d.elapsed >= elapsed + SleepMs * (d.passes - k)
            && (d.passes == k <==> left == [] || elapsed >= maxWait)
            && (d.passes == k ==> d.elapsed == elapsed)
            && (d.passes > k ==>
                  var lastStart := d.elapsed - passCost(d.passes - 1) - SleepMs;
                  elapsed + SleepMs * (d.passes - 1 - k) <= lastStart < maxWait)
    decreases maxWait - elapsed
  {
    if left != [] && elapsed < maxWait {
      var next := NextElapsed(elapsed, k, passCost);
      DrainUnfold(left, k, elapsed, maxWait, start, reply, passCost);
      DrainStops(StillOpen(left, k, reply), k + 1, next, maxWait, start, reply, passCost);
    }
  }

  /** When no pass's requests take longer than c ms, the drain is over within
      maxWait + c + 1 s. */
  lemma DrainWithin(left: seq<TaskInfo>, maxWait: nat, start: int, c: nat,
                    reply: (nat, TaskInfo) -> StatusReply, passCost: nat -> nat)
    requires forall j: nat :: passCost(j) <= c
    ensures Drain(left, 0, 0, maxWait, start, reply, passCost).elapsed < maxWait + c + SleepMs
  {
    DrainStops(left, 0, 0, maxWait, start, reply, passCost);
    var d := Drain(left, 0, 0, maxWait, start, reply, passCost);
    if d.passes > 0 {
      assert passCost(d.passes - 1) <= c;
    }
  }

  /** Tasks that never finish are all kept, and with instantaneous requests the
      drain makes ceil(budget / 1 s) passes before giving up. */
  lemma {:induction false} DrainOfUnfinished(left: seq<TaskInfo>, k: nat, elapsed: nat, maxWait: nat, start: int,
                                             reply: (nat, TaskInfo) -> StatusReply, passCost: nat -> nat)
    requires left != []
    requires forall j: nat, t: TaskInfo :: !IsTerminal(reply(j, t))
    requires forall j: nat :: passCost(j) == 0
    ensures var d := Drain(left, k, elapsed, maxWait, start, reply, passCost);
            && d.left == left && d.retired == []
            && d.passes == k + (if elapsed >= maxWait then 0 else (maxWait - elapsed + SleepMs - 1) / SleepMs)
    decreases maxWait - elapsed
  {
    if elapsed < maxWait {
      NothingCompletes(left, k, reply);
      DrainOfUnfinished(left, k + 1, elapsed + SleepMs, maxWait, start, reply, passCost);
    }
  }

  lemma {:induction false} NothingCompletes(ts: seq<TaskInfo>, k: nat, reply: (nat, TaskInfo) -> StatusReply)
    requires forall j: nat, t: TaskInfo :: !IsTerminal(reply(j, t))
    ensures Completed(ts, k, reply) == [] && StillOpen(ts, k, reply) == ts
  {
    if ts != [] {
      NothingCompletes(ts[1..], k, reply);
      assert ts == [ts[0]] + ts[1..];
    }
  }

  /** At test stop the drain of tasks that never finish gives up after 120 passes. */
  lemma StopDrainGivesUp(left: seq<TaskInfo>, start: int, reply: (nat, TaskInfo) -> StatusReply, passCost: nat -> nat)
    requires left != []
    requires forall j: nat, t: TaskInfo :: !IsTerminal(reply(j, t))
    requires forall j: nat :: passCost(j) == 0
    ensures Drain(left, 0, 0, StopMaxWaitMs, start, reply, passCost).passes == 120
    ensures Drain(left, 0, 0, StopMaxWaitMs, start, reply, passCost).left == left
  {
    DrainOfUnfinished(left, 0, 0, StopMaxWaitMs, start, reply, passCost);
  }

  /** The source's drain set: the ledger suffix after as many entries as there
      are latencies (empty when the slice start is past the end). */
  function DrainSet(ledger: seq<TaskInfo>, completedCount: nat): (r: seq<TaskInfo>)
    ensures |r| == if completedCount <= |ledger| then |ledger| - completedCount else 0
  {
    if completedCount <= |ledger| then ledger[completedCount..] else []
  }

  /** The suffix slice assumes tasks complete in submission order.  With A and
      B submitted and B completed during load, the drain set is [B]: B is
      checked and retired again, and A is never checked. */
  lemma DrainSetMissesOutOfOrder(a: TaskInfo, b: TaskInfo, maxWait: nat, start: int,
                                 reply: (nat, TaskInfo) -> StatusReply, passCost: nat -> nat)
    requires a != b && maxWait > 0 && IsTerminal(reply(0, b))
    ensures DrainSet([a, b], 1) == [b]
    ensures Drain(DrainSet([a, b], 1), 0, 0, maxWait, start, reply, passCost).retired == [b]
    ensures a !in Drain(DrainSet([a, b], 1), 0, 0, maxWait, start, reply, passCost).retired
  {
    assert [a, b][1..] == [b];
    assert Completed([b], 0, reply) == [b];
    assert StillOpen([b], 0, reply) == [];
  }

  // ---------------------------------------------------------------------------
  // The harness state
  // ---------------------------------------------------------------------------

  /** Entry i of the latency and type lists comes from the i-th retired task,
      seen at observedAt[i]. */
  ghost predicate Recorded(latencies: seq<int>, types: seq<string>, retired: seq<TaskInfo>, observedAt: seq<int>)
  {
    && |latencies| == |types| == |retired| == |observedAt|
    && forall i :: 0 <= i < |latencies| ==>
         latencies[i] == observedAt[i] - retired[i].submitTime && types[i] == retired[i].jobType
  }

  /** The latencies of completions retired[i] seen at observedAt[i], in order. */
  function LatencyEntries(retired: seq<TaskInfo>, observedAt: seq<int>): (l: seq<int>)
    requires |retired| == |observedAt|
    ensures |l| == |retired|
    ensures forall i :: 0 <= i < |l| ==> l[i] == observedAt[i] - retired[i].submitTime
  {
    seq(|retired|, i requires 0 <= i < |retired| => observedAt[i] - retired[i].submitTime)
  }

  /** The job types of the retired tasks, in order. */
  function JobTypes(retired: seq<TaskInfo>): (t: seq<string>)
    ensures |t| == |retired|
    ensures forall i :: 0 <= i < |t| ==> t[i] == retired[i].jobType
  {
    seq(|retired|, i requires 0 <= i < |retired| => retired[i].jobType)
  }

  /** When the completions recorded only grow at the end, the latency and type
      lists only grow at the end, by the entries of the new completions. */
  lemma RecordedExtends(l0: seq<int>, t0: seq<string>, r0: seq<TaskInfo>, o0: seq<int>,
                        l: seq<int>, t: seq<string>, dr: seq<TaskInfo>, dobs: seq<int>)
    requires Recorded(l0, t0, r0, o0) && Recorded(l, t, r0 + dr, o0 + dobs) && |dr| == |dobs|
    ensures l == l0 + LatencyEntries(dr, dobs)
    ensures t == t0 + JobTypes(dr)
  {
    var le, jt := LatencyEntries(dr, dobs), JobTypes(dr);
    forall i | 0 <= i < |l|
      ensures l[i] == (l0 + le)[i] && t[i] == (t0 + jt)[i]
    {
      if i >= |l0| {
        assert (r0 + dr)[i] == dr[i - |l0|] && (o0 + dobs)[i] == dobs[i - |l0|];
      } else {
        assert (r0 + dr)[i] == r0[i] && (o0 + dobs)[i] == o0[i];
      }
    }
  }

  /** Recording one more completion keeps the lists in step. */
  lemma RecordOne(latencies: seq<int>, types: seq<string>, retired: seq<TaskInfo>, observedAt: seq<int>,
                  t: TaskInfo, now: int)
    requires Recorded(latencies, types, retired, observedAt)
    ensures Recorded(latencies + [now - t.submitTime], types + [t.jobType], retired + [t], observedAt + [now])
  {
  }

  /** Taking the head off the deque and either retiring it or putting it at
      the tail keeps every enrolled task accounted for. */
  lemma PopLeftKeeps(ledger: seq<TaskInfo>, p: seq<TaskInfo>, r: seq<TaskInfo>)
    requires p != []
    ensures multiset(ledger) == multiset(p) + multiset(r) ==>
              && multiset(ledger) == multiset(p[1..]) + multiset(r + [p[0]])
              && multiset(ledger) == multiset(p[1..] + [p[0]]) + multiset(r)
  {
    assert p == [p[0]] + p[1..];
    assert multiset(p) == multiset(p[1..]) + multiset{p[0]};
    assert multiset(r + [p[0]]) == multiset(r) + multiset{p[0]};
    assert multiset(p[1..] + [p[0]]) == multiset(p[1..]) + multiset{p[0]};
  }

  /** The drain loop's state d is the rest of the whole drain d0: the same
      end, with what was retired so far in front of what d retires. */
  ghost predicate Tracks(d0: DrainResult, r00: seq<TaskInfo>, o00: seq<int>, r: seq<TaskInfo>, o: seq<int>,
                         d: DrainResult)
  {
    && d0.left == d.left && d0.passes == d.passes && d0.elapsed == d.elapsed
    && r00 + d0.retired == r + d.retired && o00 + d0.observedAt == o + d.observedAt
  }

  lemma TracksStep(d0: DrainResult, r00: seq<TaskInfo>, o00: seq<int>, r: seq<TaskInfo>, o: seq<int>,
                   d: DrainResult, done: seq<TaskInfo>, stamps: seq<int>, rest: DrainResult)
    requires Tracks(d0, r00, o00, r, o, d)
    requires d == DrainResult(rest.left, done + rest.retired, stamps + rest.observedAt, rest.passes, rest.elapsed)
    ensures Tracks(d0, r00, o00, r + done, o + stamps, rest)
  {
    assert r + (done + rest.retired) == (r + done) + rest.retired;
    assert o + (stamps + rest.observedAt) == (o + stamps) + rest.observedAt;
  }

  class Harness {
    /** The shared deque of enrolled, unfinished tasks; index 0 is the left end. */
    var pending: seq<TaskInfo>
    /** all_submitted_tasks. */
    var ledger: seq<TaskInfo>
    /** task_latencies and task_types. */
    var latencies: seq<int>
    var types: seq<string>
    var apiHost: Option<string>
    /** The completion each latency entry came from, and when it was seen. */
    ghost var retired: seq<TaskInfo>
    ghost var observedAt: seq<int>

    /** task_latencies and task_types have equal length, and entry i of both
        comes from the same completion. */
    ghost predicate Valid()
      reads this`latencies, this`types, this`retired, this`observedAt
    {
      Recorded(latencies, types, retired, observedAt)
    }

    /** Every enrolled task is either still pending or retired exactly once. */
    ghost predicate Conserved()
      reads this`ledger, this`pending, this`retired
    {
      multiset(ledger) == multiset(pending) + multiset(retired)
    }

    /** `if not api_host`: the drain needs a non-empty host. */
    predicate HostSet()
      reads this`apiHost
    {
      apiHost.Some? && apiHost.value != ""
    }

    constructor ()
      ensures Valid() && Conserved()
      ensures pending == [] && ledger == [] && latencies == [] && types == [] && apiHost == None
    {
      pending := [];
      ledger := [];
      latencies := [];
      types := [];
      apiHost := None;
      retired := [];
      observedAt := [];
    }

    method OnStart(host: Option<string>)
      modifies this`apiHost
      ensures apiHost == host
    {
      apiHost := host;
    }

    /** _submit_task: enrol the task only on a 201 whose body yields task.id. */
    method SubmitTask(jobType: string, submitTime: int, reply: SubmitReply)
      requires Valid()
      modifies this`pending, this`ledger
      ensures Valid()
      ensures reply.code == 201 && reply.taskId.Some? ==>
                var t := TaskInfo(reply.taskId.value, jobType, submitTime);
                pending == old(pending) + [t] && ledger == old(ledger) + [t]
      ensures !(reply.code == 201 && reply.taskId.Some?) ==> pending == old(pending) && ledger == old(ledger)
      ensures old(Conserved()) ==> Conserved()
    {
      if reply.code == 201 {
        match reply.taskId {
          case None =>
          case Some(id) =>
            var info := TaskInfo(id, jobType, submitTime);
            pending := pending + [info];
            ledger := ledger + [info];
        }
      }
    }

    /** check_task_status: pop the oldest task; retire it if the reply shows it
        finished, otherwise put it back at the tail. */
    method CheckTaskStatus(now: int, reply: StatusReply)
      requires Valid()
      modifies this`pending, this`latencies, this`types, this`retired, this`observedAt
      ensures Valid()
      ensures ledger == old(ledger)
      ensures old(pending) == [] ==>
                pending == [] && latencies == old(latencies) && types == old(types) && retired == old(retired)
      ensures old(pending) != [] && IsTerminal(reply) ==>
                && pending == old(pending)[1..]
                && latencies == old(latencies) + [now - old(pending)[0].submitTime]
                && types == old(types) + [old(pending)[0].jobType]
                && retired == old(retired) + [old(pending)[0]]
                && observedAt == old(observedAt) + [now]
      ensures old(pending) != [] && !IsTerminal(reply) ==>
                pending == RotateOnce(old(pending))
                && latencies == old(latencies) && types == old(types) && retired == old(retired)
      ensures !(old(pending) != [] && IsTerminal(reply)) ==> observedAt == old(observedAt)
      ensures old(Conserved()) ==> Conserved()
    {
      if pending == [] {
        return;
      }
      var info := pending[0];
      PopLeftKeeps(ledger, pending, retired);
      pending := pending[1..];
      if IsTerminal(reply) {
        RecordOne(latencies, types, retired, observedAt, info, now);
        latencies := latencies + [now - info.submitTime];
        types := types + [info.jobType];
        retired := retired + [info];
        observedAt := observedAt + [now];
      } else {
        pending := pending + [info];
      }
    }

    /** One drain pass over ts: check each task in turn, recording a latency
        for each one found finished; returns those (newly_completed). */
    method CheckPass(ts: seq<TaskInfo>, k: nat, clock: int, reply: (nat, TaskInfo) -> StatusReply)
      returns (newlyCompleted: seq<TaskInfo>)
      requires Valid()
      modifies this`latencies, this`types, this`retired, this`observedAt
      ensures Valid()
      ensures newlyCompleted == Completed(ts, k, reply)
      ensures retired == old(retired) + newlyCompleted
      ensures observedAt == old(observedAt) + Repeat(clock, |newlyCompleted|)
    {
      newlyCompleted := [];
      for i := 0 to |ts|
        invariant Valid()
        invariant newlyCompleted == Completed(ts[..i], k, reply)
        invariant retired == old(retired) + newlyCompleted
        invariant observedAt == old(observedAt) + Repeat(clock, |newlyCompleted|)
      {
        var info := ts[i];
        assert ts[..i + 1] == ts[..i] + [info];
        CompletedAppend(ts[..i], info, k, reply);
        if IsTerminal(reply(k, info)) {
          RecordOne(latencies, types, retired, observedAt, info, clock);
          latencies := latencies + [clock - info.submitTime];
          types := types + [info.jobType];
          retired := retired + [info];
          observedAt := observedAt + [clock];
          newlyCompleted := newlyCompleted + [info];
        }
      }
      assert ts[..|ts|] == ts;
    }

    /** The drain loop over w0: passes until nothing is left or maxWait ms have
        gone by, each collecting the finished tasks and then removing them. */
    method DrainPasses(w0: seq<TaskInfo>, maxWait: nat, start: int,
                       reply: (nat, TaskInfo) -> StatusReply, passCost: nat -> nat)
      returns (left: seq<TaskInfo>, passes: nat, elapsed: nat)
      requires Valid()
      modifies this`latencies, this`types, this`retired, this`observedAt
      ensures Valid()
      ensures var d := Drain(w0, 0, 0, maxWait, start, reply, passCost);
              && left == d.left && passes == d.passes && elapsed == d.elapsed
              && retired == old(retired) + d.retired && observedAt == old(observedAt) + d.observedAt
    {
      left, passes, elapsed := w0, 0, 0;
      ghost var d0 := Drain(w0, 0, 0, maxWait, start, reply, passCost);
      ghost var d := d0;
      while left != [] && elapsed < maxWait
        invariant Valid()
        invariant d == Drain(left, passes, elapsed, maxWait, start, reply, passCost)
        invariant Tracks(d0, old(retired), old(observedAt), retired, observedAt, d)
        decreases maxWait - elapsed
      {
        var next := NextElapsed(elapsed, passes, passCost);
        ghost var w, r, o := left, retired, observedAt;
        left := DrainPass(left, passes, start + elapsed, reply);
        DrainUnfold(w, passes, elapsed, maxWait, start, reply, passCost);
        ghost var rest := Drain(left, passes + 1, next, maxWait, start, reply, passCost);
        TracksStep(d0, old(retired), old(observedAt), r, o, d, Completed(w, passes, reply),
                   Repeat(start + elapsed, |Completed(w, passes, reply)|), rest);
        passes, elapsed, d := passes + 1, next, rest;
      }
    }

    /** One pass of the drain loop: the checks, then the removal of the
        finished tasks; returns the tasks still open. */
    method DrainPass(ts: seq<TaskInfo>, k: nat, clock: int, reply: (nat, TaskInfo) -> StatusReply)
      returns (uncompleted: seq<TaskInfo>)
      requires Valid()
      modifies this`latencies, this`types, this`retired, this`observedAt
      ensures Valid()
      ensures uncompleted == StillOpen(ts, k, reply)
      ensures retired == old(retired) + Completed(ts, k, reply)
      ensures observedAt == old(observedAt) + Repeat(clock, |Completed(ts, k, reply)|)
    {
      var newlyCompleted := CheckPass(ts, k, clock, reply);
      uncompleted := RemoveAll(ts, newlyCompleted);
      RemovingCompletedLeavesOpen(ts, k, reply);
    }

    /** poll_remaining_tasks as written: drains the ledger suffix after
        len(task_latencies) entries. */
    method PollRemainingAsWritten(maxWait: nat, start: int,
                                  reply: (nat, TaskInfo) -> StatusReply, passCost: nat -> nat)
      requires Valid()
      modifies this`latencies, this`types, this`retired, this`observedAt
      ensures Valid()
      ensures !HostSet() ==>
                latencies == old(latencies) && types == old(types) && retired == old(retired)
                && observedAt == old(observedAt)
      ensures HostSet() ==>
                var d := Drain(DrainSet(ledger, |old(latencies)|), 0, 0, maxWait, start, reply, passCost);
                && retired == old(retired) + d.retired && observedAt == old(observedAt) + d.observedAt
                && latencies == old(latencies) + LatencyEntries(d.retired, d.observedAt)
                && types == old(types) + JobTypes(d.retired)
      ensures old(|latencies| <= |ledger|) ==> |latencies| <= |ledger|
    {
      if !HostSet() {
        return;
      }
      ghost var l0, t0, r0, o0 := latencies, types, retired, observedAt;
      var uncompleted := DrainSet(ledger, |latencies|);
      ghost var d := Drain(uncompleted, 0, 0, maxWait, start, reply, passCost);
      if uncompleted == [] {
        assert d == DrainResult([], [], [], 0, 0);
        assert retired == r0 + d.retired && observedAt == o0 + d.observedAt;
        RecordedExtends(l0, t0, r0, o0, latencies, types, d.retired, d.observedAt);
        return;
      }
      DrainConserves(uncompleted, 0, 0, maxWait, start, reply, passCost);
      var _, _, _ := DrainPasses(uncompleted, maxWait, start, reply, passCost);
      RecordedExtends(l0, t0, r0, o0, latencies, types, d.retired, d.observedAt);
    }

    /** The drain over the tasks that are actually unfinished: the pending
        deque.  The tasks it leaves stay pending. */
    method PollRemaining(maxWait: nat, start: int,
                         reply: (nat, TaskInfo) -> StatusReply, passCost: nat -> nat)
      requires Valid()
      modifies this`pending, this`latencies, this`types, this`retired, this`observedAt
      ensures Valid()
      ensures ledger == old(ledger)
      ensures !HostSet() ==>
                pending == old(pending) && latencies == old(latencies) && types == old(types) && retired == old(retired)
                && observedAt == old(observedAt)
      ensures HostSet() ==>
                var d := Drain(old(pending), 0, 0, maxWait, start, reply, passCost);
                && pending == d.left && retired == old(retired) + d.retired && observedAt == old(observedAt) + d.observedAt
                && latencies == old(latencies) + LatencyEntries(d.retired, d.observedAt)
                && types == old(types) + JobTypes(d.retired)
      ensures old(Conserved()) ==> Conserved()
    {
      if !HostSet() {
        return;
      }
      ghost var d := Drain(pending, 0, 0, maxWait, start, reply, passCost);
      DrainConserves(pending, 0, 0, maxWait, start, reply, passCost);
      ghost var l0, t0, r0, o0, p0 := latencies, types, retired, observedAt, pending;
      var left, _, _ := DrainPasses(pending, maxWait, start, reply, passCost);
      pending := left;
      assert multiset(p0) + multiset(r0) == multiset(pending) + multiset(retired);
      RecordedExtends(l0, t0, r0, o0, latencies, types, d.retired, d.observedAt);
    }

    /** on_test_stop as written: the suffix drain for at most 120 s, then the
        report over everything recorded. */
    method OnTestStop(start: int, reply: (nat, TaskInfo) -> StatusReply, passCost: nat -> nat)
      returns (report: LatencyStats.Report)
      requires Valid()
      modifies this`latencies, this`types, this`retired, this`observedAt
      ensures Valid()
      ensures !HostSet() ==>
                latencies == old(latencies) && types == old(types) && retired == old(retired)
                && observedAt == old(observedAt)
      ensures HostSet() ==>
                var d := Drain(DrainSet(ledger, |old(latencies)|), 0, 0, StopMaxWaitMs, start, reply, passCost);
                && retired == old(retired) + d.retired && observedAt == old(observedAt) + d.observedAt
                && latencies == old(latencies) + LatencyEntries(d.retired, d.observedAt)
                && types == old(types) + JobTypes(d.retired)
      ensures report == LatencyStats.Summarize(latencies, types, |ledger|)
      ensures old(|latencies| <= |ledger|) ==> report != LatencyStats.ZeroSubmitted
    {
      PollRemainingAsWritten(StopMaxWaitMs, start, reply, passCost);
      report := LatencyStats.Summarize(latencies, types, |ledger|);
    }

    /** The stop hook with the drain over the pending deque: every submitted
        task is still pending or recorded exactly once when the report is made. */
    method OnTestStopCorrected(start: int, reply: (nat, TaskInfo) -> StatusReply, passCost: nat -> nat)
      returns (report: LatencyStats.Report)
      requires Valid()
      modifies this`pending, this`latencies, this`types, this`retired, this`observedAt
      ensures Valid()
      ensures !HostSet() ==>
                pending == old(pending) && latencies == old(latencies) && types == old(types) && retired == old(retired)
                && observedAt == old(observedAt)
      ensures HostSet() ==>
                var d := Drain(old(pending), 0, 0, StopMaxWaitMs, start, reply, passCost);
                && pending == d.left && retired == old(retired) + d.retired && observedAt == old(observedAt) + d.observedAt
                && latencies == old(latencies) + LatencyEntries(d.retired, d.observedAt)
                && types == old(types) + JobTypes(d.retired)
      ensures report == LatencyStats.Summarize(latencies, types, |ledger|)
      ensures old(Conserved()) ==> Conserved() && report != LatencyStats.ZeroSubmitted
    {
      PollRemaining(StopMaxWaitMs, start, reply, passCost);
      if Conserved() {
        ConservedBounds();
      }
      report := LatencyStats.Summarize(latencies, types, |ledger|);
    }

    /** Under conservation, the report's completion rate is 1.0 exactly when
        no submitted task is still pending, that is, when every submitted task
        was seen finished, each once. */
    lemma FullCompletionMeansNonePending()
      requires Valid() && Conserved() && latencies != []
      ensures LatencyStats.Summarize(latencies, types, |ledger|).Report?
      ensures LatencyStats.Summarize(latencies, types, |ledger|).summary.completionRate == 1.0 <==> pending == []
      ensures pending == [] <==> multiset(retired) == multiset(ledger)
    {
      assert |multiset(ledger)| == |multiset(pending)| + |multiset(retired)|;
      LatencyStats.FullCompletionRate(latencies, types, |ledger|);
      if multiset(retired) == multiset(ledger) {
        assert |multiset(pending)| == 0;
      }
    }

    /** With as many completions recorded as tasks submitted, the report's
        completion rate is 1.0, whichever tasks those completions came from. */
    lemma AllRecordedRate()
      requires Valid() && latencies != [] && |retired| == |ledger|
      ensures LatencyStats.Summarize(latencies, types, |ledger|).Report?
      ensures LatencyStats.Summarize(latencies, types, |ledger|).summary.completionRate == 1.0
    {
      LatencyStats.FullCompletionRate(latencies, types, |ledger|);
    }

    /** Under the conservation invariant no task is retired more often than it
        was submitted, so there are never more latencies than submissions. */
    lemma ConservedBounds()
      requires Valid() && Conserved()
      ensures multiset(retired) <= multiset(ledger)
      ensures |latencies| <= |ledger|
    {
      assert |multiset(ledger)| == |multiset(pending)| + |multiset(retired)|;
    }
  }

  /** Load phase of the scenario: A and B are submitted, a check finds A
      unfinished (A moves behind B), a second check finds B finished. */
  method LoadPhase(h: Harness, a: TaskInfo, b: TaskInfo, unfinished: StatusReply, finished: StatusReply)
    requires h.Valid() && h.Conserved()
    requires h.pending == [] && h.ledger == [] && h.latencies == [] && h.retired == []
    requires !IsTerminal(unfinished) && IsTerminal(finished)
    modifies h
    ensures h.Valid() && h.Conserved() && h.HostSet()
    ensures h.ledger == [a, b] && h.pending == [a] && h.retired == [b] && |h.latencies| == 1
  {
    h.OnStart(Some("http://localhost:8080"));
    SubmitBoth(h, a, b);
    CheckBoth(h, a, b, unfinished, finished);
  }

  method SubmitBoth(h: Harness, a: TaskInfo, b: TaskInfo)
    requires h.Valid() && h.Conserved()
    requires h.pending == [] && h.ledger == [] && h.latencies == [] && h.retired == []
    modifies h`pending, h`ledger
    ensures h.Valid() && h.Conserved()
    ensures h.ledger == [a, b] && h.pending == [a, b] && h.latencies == [] && h.retired == []
  {
    h.SubmitTask(a.jobType, a.submitTime, SubmitReply(201, Some(a.id)));
    assert h.pending == [a] && h.ledger == [a];
    h.SubmitTask(b.jobType, b.submitTime, SubmitReply(201, Some(b.id)));
  }

  method CheckBoth(h: Harness, a: TaskInfo, b: TaskInfo, unfinished: StatusReply, finished: StatusReply)
    requires h.Valid() && h.Conserved()
    requires h.ledger == [a, b] && h.pending == [a, b] && h.latencies == [] && h.retired == []
    requires !IsTerminal(unfinished) && IsTerminal(finished)
    modifies h`pending, h`latencies, h`types, h`retired, h`observedAt
    ensures h.Valid() && h.Conserved()
    ensures h.ledger == [a, b] && h.pending == [a] && h.retired == [b] && |h.latencies| == 1
  {
    h.CheckTaskStatus(a.submitTime + 50, unfinished);
    SwapPair(a, b);
    assert h.pending == [b, a] && h.retired == [];
    h.CheckTaskStatus(b.submitTime + 50, finished);
  }

  lemma SwapPair(a: TaskInfo, b: TaskInfo)
    ensures RotateOnce([a, b]) == [b, a] && [b, a][1..] == [a]
  {
    assert [a, b][1..] == [b];
  }

  /** Every check at test stop finds its task finished, and takes no time. */
  function AllFinished(k: nat, t: TaskInfo): StatusReply
  {
    StatusReply(200, Some("success"))
  }

  function Instant(k: nat): nat
  {
    0
  }

  /** After that load phase, the as-written drain retires B a second time and
      never A. */
  method AsWrittenScenario(a: TaskInfo, b: TaskInfo, unfinished: StatusReply, finished: StatusReply)
    returns (h: Harness)
    requires a != b && !IsTerminal(unfinished) && IsTerminal(finished)
    ensures h.ledger == [a, b] && h.retired == [b, b] && a !in h.retired
    ensures h.Valid() && h.pending == [a] && |h.latencies| == |h.ledger|
  {
    h := new Harness();
    LoadPhase(h, a, b, unfinished, finished);
    DrainSetMissesOutOfOrder(a, b, StopMaxWaitMs, 100, AllFinished, Instant);
    h.PollRemainingAsWritten(StopMaxWaitMs, 100, AllFinished, Instant);
  }

  /** The same run with the drain over the pending deque retires A, and each
      task exactly once. */
  /** The report made after the as-written drain of that scenario has a
      completion rate of 1.0, although A was never seen finished. */
  method AsWrittenStopReport(a: TaskInfo, b: TaskInfo, unfinished: StatusReply, finished: StatusReply)
    returns (h: Harness, report: LatencyStats.Report)
    requires a != b && !IsTerminal(unfinished) && IsTerminal(finished)
    ensures h.Valid() && h.ledger == [a, b] && h.pending == [a] && a !in h.retired
    ensures report == LatencyStats.Summarize(h.latencies, h.types, |h.ledger|)
    ensures report.Report? && report.summary.completionRate == 1.0
  {
    h := AsWrittenScenario(a, b, unfinished, finished);
    h.AllRecordedRate();
    report := LatencyStats.Summarize(h.latencies, h.types, |h.ledger|);
  }

  method CorrectedScenario(a: TaskInfo, b: TaskInfo, unfinished: StatusReply, finished: StatusReply)
    returns (h: Harness)
    requires a != b && !IsTerminal(unfinished) && IsTerminal(finished)
    ensures h.ledger == [a, b] && h.retired == [b, a] && h.pending == []
  {
    h := new Harness();
    LoadPhase(h, a, b, unfinished, finished);
    assert Completed([a], 0, AllFinished) == [a];
    assert StillOpen([a], 0, AllFinished) == [];
    h.PollRemaining(StopMaxWaitMs, 100, AllFinished, Instant);
  }
}
