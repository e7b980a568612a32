/**
 * The experiment-3 client (src/client/exp3/exp3_loadtest.go): the tally of
 * submission status codes, the collection of accepted task IDs, fetchTask's
 * result handling and the classification of fetched tasks.  The HTTP replies
 * are input sequences: reply i answers request i.
 */
module Exp3 {
  import opened Wrappers

  const ExampleCap := 5

  // ---------------------------------------------------------------------------
  // Submissions
  // ---------------------------------------------------------------------------

  /** One POST /task/pq: a transport error, or a status code with the task ID
      of the response body when the body decodes. */
  datatype PostReply = PostTransportError | PostReply(code: int, decodedId: Option<string>)

  datatype Bucket = Accepted | RateLimited | ServerErrors | OtherStatus

  /** The first matching test of the source's if-chain: 2xx, then 429, then >= 500. */
  function BucketOf(code: int): (b: Bucket)
    ensures b == Accepted <==> 200 <= code < 300
    ensures b == RateLimited <==> code == 429
    ensures b == ServerErrors <==> code >= 500
  {
    if 200 <= code < 300 then Accepted
    else if code == 429 then RateLimited
    else if code >= 500 then ServerErrors
    else OtherStatus
  }

  /** Replies that arrived and fall into bucket b. */
  function CountBucket(replies: seq<PostReply>, b: Bucket): nat
  {
    if replies == [] then 0
    else
      var last := replies[|replies| - 1];
      CountBucket(replies[..|replies| - 1], b) + (if last.PostReply? && BucketOf(last.code) == b then 1 else 0)
  }

  function Arrived(replies: seq<PostReply>): nat
  {
    if replies == [] then 0
    else Arrived(replies[..|replies| - 1]) + (if replies[|replies| - 1].PostReply? then 1 else 0)
  }

  /** The IDs collected: those of 2xx replies whose body decodes, in order. */
  function AcceptedIds(replies: seq<PostReply>): seq<string>
  {
    if replies == [] then []
    else
      var last := replies[|replies| - 1];
      AcceptedIds(replies[..|replies| - 1])
        + (if last.PostReply? && 200 <= last.code < 300 && last.decodedId.Some? then [last.decodedId.value] else [])
  }

  /** Every reply that arrives lands in exactly one bucket; transport errors in none. */
  lemma {:induction false} BucketsPartition(replies: seq<PostReply>)
    ensures CountBucket(replies, Accepted) + CountBucket(replies, RateLimited)
            + CountBucket(replies, ServerErrors) + CountBucket(replies, OtherStatus) == Arrived(replies)
    ensures Arrived(replies) <= |replies|
  {
    if replies != [] {
      BucketsPartition(replies[..|replies| - 1]);
    }
  }

  /** Only decoded 2xx replies yield an ID: len(taskIDs) <= status2xx <= total. */
  lemma {:induction false} IdsBounded(replies: seq<PostReply>)
    ensures |AcceptedIds(replies)| <= CountBucket(replies, Accepted) <= |replies|
  {
    if replies != [] {
      IdsBounded(replies[..|replies| - 1]);
    }
  }

  datatype StatusTally = StatusTally(status2xx: nat, status429: nat, status5xx: nat, statusOther: nat)

  /** The submission loop: counts each arrived reply into its bucket and
      collects the IDs of the accepted tasks. */
  method TallySubmissions(replies: seq<PostReply>) returns (tally: StatusTally, taskIDs: seq<string>)
    ensures tally == StatusTally(CountBucket(replies, Accepted), CountBucket(replies, RateLimited),
                                 CountBucket(replies, ServerErrors), CountBucket(replies, OtherStatus))
    ensures taskIDs == AcceptedIds(replies)
  {
    tally := StatusTally(0, 0, 0, 0);
    taskIDs := [];
    var i := 0;
    while i < |replies|
      invariant 0 <= i <= |replies|
      invariant tally == StatusTally(CountBucket(replies[..i], Accepted), CountBucket(replies[..i], RateLimited),
                                     CountBucket(replies[..i], ServerErrors), CountBucket(replies[..i], OtherStatus))
      invariant taskIDs == AcceptedIds(replies[..i])
    {
      assert replies[..i + 1][..i] == replies[..i];
      var reply := replies[i];
      i := i + 1;
      if reply.PostTransportError? {
        continue;
      }
      if 200 <= reply.code < 300 {
        tally := tally.(status2xx := tally.status2xx + 1);
      } else if reply.code == 429 {
        tally := tally.(status429 := tally.status429 + 1);
      } else if reply.code >= 500 {
        tally := tally.(status5xx := tally.status5xx + 1);
      } else {
        tally := tally.(statusOther := tally.statusOther + 1);
      }
      if reply.code < 200 || reply.code >= 300 {
        continue;
      }
      if reply.decodedId.None? {
        continue;
      }
      taskIDs := taskIDs + [reply.decodedId.value];
    }
    assert replies[..i] == replies;
  }

  // ---------------------------------------------------------------------------
  // Fetching and classifying tasks
  // ---------------------------------------------------------------------------

  /** The client's view of a task: the fields it decodes. */
  datatype FetchedTask = FetchedTask(id: string, jobType: string, status: string, retryCount: int,
                                     error: string, submittedAt: int)

  /** One GET /task/:id: a transport error, or a status code with the task
      when the body decodes. */
  datatype GetReply = GetTransportError | GetReply(code: int, decoded: Option<FetchedTask>)

  datatype FetchError = TransportError | BadStatus(code: int) | DecodeError

  /** fetchTask: a task only for a 200 whose body decodes; an error otherwise. */
  function FetchTask(reply: GetReply): (r: Result<FetchedTask, FetchError>)
    ensures r.Success? <==> reply.GetReply? && reply.code == 200 && reply.decoded.Some?
    ensures r.Success? ==> r.value == reply.decoded.value
    ensures reply.GetReply? && reply.code != 200 ==> r == Failure(BadStatus(reply.code))
  {
    match reply
    case GetTransportError => Failure(TransportError)
    case GetReply(code, decoded) =>
      if code != 200 then Failure(BadStatus(code))
      else if decoded.None? then Failure(DecodeError)
      else Success(decoded.value)
  }

  /** The tasks fetched successfully, in order. */
  function Fetched(replies: seq<GetReply>): seq<FetchedTask>
  {
    if replies == [] then []
    else
      var r := FetchTask(replies[|replies| - 1]);
      Fetched(replies[..|replies| - 1]) + (if r.Success? then [r.value] else [])
  }

  /** Fetch errors are all the replies that do not yield a task. */
  function FetchErrors(replies: seq<GetReply>): nat
  {
    if replies == [] then 0
    else FetchErrors(replies[..|replies| - 1]) + (if FetchTask(replies[|replies| - 1]).Failure? then 1 else 0)
  }

  datatype Outcome = SuccessNoRetry | SuccessWithRetry | FailedOutcome | PendingOutcome

  /** The switch on the status, with success split by RetryCount > 0. */
  function OutcomeOf(t: FetchedTask): (o: Outcome)
    ensures o == FailedOutcome <==> t.status == "failed"
    ensures o == SuccessWithRetry <==> t.status == "success" && t.retryCount > 0
    ensures o == SuccessNoRetry <==> t.status == "success" && t.retryCount <= 0
  {
    if t.status == "success" then (if t.retryCount > 0 then SuccessWithRetry else SuccessNoRetry)
    else if t.status == "failed" then FailedOutcome
    else PendingOutcome
  }

  function CountOutcome(ts: seq<FetchedTask>, o: Outcome): nat
  {
    if ts == [] then 0
    else CountOutcome(ts[..|ts| - 1], o) + (if OutcomeOf(ts[|ts| - 1]) == o then 1 else 0)
  }

  /** The tasks with outcome o, in order. */
  function OfOutcome(ts: seq<FetchedTask>, o: Outcome): seq<FetchedTask>
  {
    if ts == [] then []
    else OfOutcome(ts[..|ts| - 1], o) + (if OutcomeOf(ts[|ts| - 1]) == o then [ts[|ts| - 1]] else [])
  }

  function SumRetries(ts: seq<FetchedTask>): int
  {
    if ts == [] then 0 else SumRetries(ts[..|ts| - 1]) + ts[|ts| - 1].retryCount
  }

  /** The first n elements of s, or all of s. */
  function Take<T>(s: seq<T>, n: nat): (p: seq<T>)
    ensures |p| <= n && p <= s
    ensures |s| <= n ==> p == s
  {
    if |s| <= n then s else s[..n]
  }

  /** Appending to a list only while it is shorter than n keeps the first n. */
  lemma TakeAppend<T>(s: seq<T>, x: T, n: nat)
    ensures Take(s + [x], n) == if |Take(s, n)| < n then Take(s, n) + [x] else Take(s, n)
  {
    if |s| < n {
      assert Take(s + [x], n) == s + [x];
    } else {
      assert (s + [x])[..n] == s[..n];
    }
  }

  /** Each fetched task is counted in exactly one of the four outcomes, and the
      four counts plus the fetch errors add up to the number of IDs. */
  lemma {:induction false} OutcomesPartition(replies: seq<GetReply>)
    ensures var ts := Fetched(replies);
            CountOutcome(ts, SuccessNoRetry) + CountOutcome(ts, SuccessWithRetry)
            + CountOutcome(ts, FailedOutcome) + CountOutcome(ts, PendingOutcome) == |ts|
    ensures |Fetched(replies)| + FetchErrors(replies) == |replies|
  {
    FetchedPartition(Fetched(replies));
    FetchErrorsComplement(replies);
  }

  lemma {:induction false} FetchedPartition(ts: seq<FetchedTask>)
    ensures CountOutcome(ts, SuccessNoRetry) + CountOutcome(ts, SuccessWithRetry)
            + CountOutcome(ts, FailedOutcome) + CountOutcome(ts, PendingOutcome) == |ts|
  {
    if ts != [] {
      FetchedPartition(ts[..|ts| - 1]);
    }
  }

  lemma {:induction false} FetchErrorsComplement(replies: seq<GetReply>)
    ensures |Fetched(replies)| + FetchErrors(replies) == |replies|
  {
    if replies != [] {
      FetchErrorsComplement(replies[..|replies| - 1]);
    }
  }

  /** The example lists hold at most five tasks, each of the outcome it illustrates. */
  lemma {:induction false} ExamplesCapped(ts: seq<FetchedTask>, o: Outcome)
    ensures |Take(OfOutcome(ts, o), ExampleCap)| <= ExampleCap
    ensures forall t :: t in Take(OfOutcome(ts, o), ExampleCap) ==> OutcomeOf(t) == o && t in ts
  {
    OfOutcomeMembers(ts, o);
  }

  lemma {:induction false} OfOutcomeMembers(ts: seq<FetchedTask>, o: Outcome)
    ensures forall t :: t in OfOutcome(ts, o) ==> OutcomeOf(t) == o && t in ts
  {
    if ts != [] {
      OfOutcomeMembers(ts[..|ts| - 1], o);
      forall t | t in OfOutcome(ts, o)
        ensures OutcomeOf(t) == o && t in ts
      {
        if t in OfOutcome(ts[..|ts| - 1], o) {
          assert t in ts[..|ts| - 1];
        }
      }
    }
  }

  datatype OutcomeTally = OutcomeTally(
    successNoRetry: nat,
    successWithRetry: nat,
    failed: nat,
    pending: nat,
    totalRetries: int,
    exampleRetried: seq<FetchedTask>,
    exampleFailed: seq<FetchedTask>)

  /** The tally the classification loop ends with, over the fetched tasks. */
  function TallyOf(ts: seq<FetchedTask>): OutcomeTally
  {
    OutcomeTally(CountOutcome(ts, SuccessNoRetry), CountOutcome(ts, SuccessWithRetry),
                 CountOutcome(ts, FailedOutcome), CountOutcome(ts, PendingOutcome), SumRetries(ts),
                 Take(OfOutcome(ts, SuccessWithRetry), ExampleCap), Take(OfOutcome(ts, FailedOutcome), ExampleCap))
  }

  /** One more fetched task adds its retries, increments exactly its outcome's
      count, and joins its example list while that holds fewer than five. */
  lemma TallyOfAppend(ts: seq<FetchedTask>, task: FetchedTask)
    ensures var a := TallyOf(ts);
            var o := OutcomeOf(task);
            TallyOf(ts + [task]) == a.(
              successNoRetry := a.successNoRetry + (if o == SuccessNoRetry then 1 else 0),
              successWithRetry := a.successWithRetry + (if o == SuccessWithRetry then 1 else 0),
              failed := a.failed + (if o == FailedOutcome then 1 else 0),
              pending := a.pending + (if o == PendingOutcome then 1 else 0),
              totalRetries := a.totalRetries + task.retryCount,
              exampleRetried := if o == SuccessWithRetry && |a.exampleRetried| < ExampleCap
                                then a.exampleRetried + [task] else a.exampleRetried,
              exampleFailed := if o == FailedOutcome && |a.exampleFailed| < ExampleCap
                               then a.exampleFailed + [task] else a.exampleFailed)
  {
    assert (ts + [task])[..|ts|] == ts;
    TakeAppend(OfOutcome(ts, SuccessWithRetry), task, ExampleCap);
    TakeAppend(OfOutcome(ts, FailedOutcome), task, ExampleCap);
  }

  /** The tasks fetched from one more reply. */
  lemma FetchedStep(replies: seq<GetReply>, i: nat)
    requires i < |replies|
    ensures var r := FetchTask(replies[i]);
            Fetched(replies[..i + 1]) == Fetched(replies[..i]) + (if r.Success? then [r.value] else [])
  {
    assert replies[..i + 1][..i] == replies[..i];
  }

  /** The body of the classification loop for one fetched task. */
  method CountTask(ghost before: seq<FetchedTask>, t: OutcomeTally, task: FetchedTask) returns (t': OutcomeTally)
    requires t == TallyOf(before)
    ensures t' == TallyOf(before + [task])
  {
    TallyOfAppend(before, task);
    t' := t.(totalRetries := t.totalRetries + task.retryCount);
    if task.status == "success" {
      if task.retryCount > 0 {
        t' := t'.(successWithRetry := t'.successWithRetry + 1);
        if |t'.exampleRetried| < ExampleCap {
          t' := t'.(exampleRetried := t'.exampleRetried + [task]);
        }
      } else {
        t' := t'.(successNoRetry := t'.successNoRetry + 1);
      }
    } else if task.status == "failed" {
      t' := t'.(failed := t'.failed + 1);
      if |t'.exampleFailed| < ExampleCap {
        t' := t'.(exampleFailed := t'.exampleFailed + [task]);
      }
    } else {
      t' := t'.(pending := t'.pending + 1);
    }
  }

  /** The classification loop: one GET reply per collected ID.  Its counts,
      retry sum and example lists are those of the successfully fetched tasks. */
  method TallyOutcomes(replies: seq<GetReply>) returns (t: OutcomeTally)
    ensures t == TallyOf(Fetched(replies))
  {
    t := OutcomeTally(0, 0, 0, 0, 0, [], []);
    var i := 0;
    while i < |replies|
      invariant 0 <= i <= |replies|
      invariant t == TallyOf(Fetched(replies[..i]))
    {
      FetchedStep(replies, i);
      ghost var before := Fetched(replies[..i]);
      var fetched := FetchTask(replies[i]);
      if fetched.Success? {
        t := CountTask(before, t, fetched.value);
        assert t == TallyOf(Fetched(replies[..i + 1]));
      } else {
        assert Fetched(replies[..i + 1]) == before;
      }
      i := i + 1;
    }
    assert replies[..i] == replies;
  }
}
