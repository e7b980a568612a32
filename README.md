# A verified model of the distributed task queue and its load-test harness

This project models in Dafny the core of a small task-queue service and of the
harnesses that load it. It also proves what those pieces promise.

- **Redis layer** (`redis.dfy`, module `RedisStore`). Redis itself is a class
  `Redis` whose fields are the FIFO list, the priority sorted set, the string
  keys holding tasks, the retry sorted set, the rate-limit counters and their
  expiries. Every operation of `src/redis/redis.go` that the handlers and the
  worker below use is a method on that state. So are the go-redis calls
  `INCR` and `EXPIRE` that the rate limiter makes. A `fault` flag per round trip says that the connection
  fails. A missing key or an empty list is `Nil`, just as go-redis reports
  `redis.Nil`.
- **Submission and lookup handlers** (`experiment1.dfy`, module `Experiment1`).
  `postTaskFIFO`, `postTaskPQ` and `getTaskByID` are methods over a `Redis`
  object. The two submission handlers are proved against a pure transition
  function, `Submission` (with `Admission` for the part after validation), and
  the properties of submission are lemmas about that function. The lookup
  handler states its two responses directly. The generated uuid and the clock reading are parameters.
- **Worker** (`worker.dfy`, module `Worker`). Each method is proved against a
  function of the store's contents before the call (`AfterProcess`,
  `AfterTransient`, `RequeueAll`). It covers:
  - one pass of the dequeue loop;
  - `processTask`, with the random draw u given in basis points;
  - `handleTransient` and `finalizeFailed`;
  - the backoff and jitter arithmetic;
  - one tick of the retry scheduler.
- **Rate limiter** (`ratelimit.dfy`, module `RateLimit`). `Allow` runs over the
  counter map, and the pure lemmas about `allowed` and `remaining` sit beside it.
- **Experiment-3 client** (`exp3.dfy`, module `Exp3`). The status-code tally
  loop, the collection of accepted IDs, `fetchTask` and the outcome
  classification loop. HTTP replies are input sequences.
- **Locust harness** (`locust_harness.dfy`, module `LocustHarness`). The class
  `Harness` holds:
  - the shared pending deque and the ledger `all_submitted_tasks`;
  - `task_latencies` and `task_types`;
  - as ghost state, the completion each latency came from.

  Its methods are enrolment, oldest-first status checks, the post-load drain
  and the test-stop handler. The drain loop is proved against the recursive
  specification `Drain`.
- **Statistics of the test-stop report** (`latency_stats.dfy`, module
  `LatencyStats`). Sorting, the index-rule percentiles, min, average and max,
  the split by job type and the completion rate, all as pure functions.
- **Shared data.**
  - `models.dfy` holds `Task` and `TaskRequest`, shaped after
    `src/api/models/models.go:7-25`.
  - `wrappers.dfy` holds `Option` and `Result`.
  - `ranges.dfy` counts integer ranges.

Clocks are integers: milliseconds in the harness, nanoseconds in the service,
and whole Unix seconds for retry scores (`time.Time.Unix`). All concurrency is
modelled sequentially, one call at a time.

## Model

| member | source | states |
|---|---|---|
| RedisStore.TaskKeyInjective | src/redis/redis.go:132-138 | Two ids share a task key `task:result:`+id if and only if they are equal. |
| RedisStore.StoreKeepsOthers | src/redis/redis.go:126-151 | Storing one task leaves the presence and the value of every other id's key unchanged. |
| RedisStore.PriorityScore | src/redis/redis.go:90-94 | The score is 1 or 2, and it is 1 exactly for job type "short". |
| RedisStore.PopAllAfterPush | src/redis/redis.go:64-71 | The id LPUSHed last is the one RPOP returns after everything already in the list. |
| RedisStore.FifoOrder | src/redis/redis.go:64-71 | Ids pushed in turn are popped in the order they entered, after the ids that were already queued. |
| RedisStore.ShortBeforeLong | src/redis/redis.go:90-109 | In a set scored only 1 or 2, a member of least score has score 1 while any short task is queued. Redis.Valid keeps every score of the priority set in {1, 2}, and DequeuePriority uses this lemma. |
| RedisStore.RangeByScore | src/redis/redis.go:237-247 | The result lists due members (score ≤ now) without repeats, in ascending score, with no skipped due member scoring lower. It holds min(limit, due) of them, or all of them when limit ≤ 0. |
| RedisStore.Route | src/redis/redis.go:272-279 | The re-enqueue goes to the priority set exactly for "short" and "long", with the score submission gives that type (PriorityScore); every other type goes to the FIFO list. |
| RedisStore.Redis.EnqueueFIFO | src/redis/redis.go:64-66 | On success the id goes to the head of the list; on a connection error the list is unchanged. |
| RedisStore.Redis.DequeueFIFO | src/redis/redis.go:69-71 | Returns and removes the tail. An empty list gives Nil, and a connection error changes nothing. |
| RedisStore.Redis.EnqueuePriority | src/redis/redis.go:90-100 | Sets the member's score to PriorityScore(jobType), or reports the error and writes nothing. Every score stays 1 or 2. |
| RedisStore.Redis.DequeuePriority | src/redis/redis.go:103-109 | Removes and returns a least-score member. An empty set, or a failed round trip, gives Nil and leaves the set unchanged. A long task (score 2) is popped only when every queued task is long. |
| RedisStore.Redis.StoreTask | src/redis/redis.go:126-134 | Writes the task under its own key, or nothing on error, and keeps every key equal to its task's key. |
| RedisStore.Redis.GetTask | src/redis/redis.go:137-151 | Succeeds exactly when the key exists, with the stored task, whose id is the one asked for. Otherwise it gives Nil or the connection error. |
| RedisStore.Redis.TaskExists | src/redis/redis.go:154-161 | Reports whether the task key exists, or the connection error. |
| RedisStore.Redis.UpdateTaskStatus | src/redis/redis.go:176-184 | Succeeds exactly when the read and the write succeed and the task exists. It then changes only that task's status; on failure nothing is written. |
| RedisStore.Redis.ClearAllData | src/redis/redis.go:191-213 | Empties the FIFO list, then the priority set, then all task keys, stopping at the first failing step. It errs exactly when one of those steps fails. |
| RedisStore.Redis.ScheduleRetry | src/redis/redis.go:225-230 | Scores the id with the retry time in whole Unix seconds, or writes nothing on error. |
| RedisStore.Redis.PopDueRetries | src/redis/redis.go:234-258 | Fails exactly when the range fails, or when the removal fails with something due. On success it returns a due range bounded by limit, removes exactly those members and leaves the others. |
| RedisStore.Redis.ReenqueueByType | src/redis/redis.go:263-280 | "short" goes to the priority set with score 1, "long" with score 2, anything else to the head of the FIFO list. A missing task or a failed round trip enqueues nothing. |
| RedisStore.Redis.Incr | src/api/ratelimit/ratelimit.go:22-25 | Increments the counter, missing counting as 0, and returns the new count; on error the counters are unchanged. |
| RedisStore.Redis.Expire | src/api/ratelimit/ratelimit.go:27-29 | Sets the key's time to live when the key exists; otherwise, or on error, expiries are unchanged. |
| RateLimit.CounterKeyInjective | src/api/ratelimit/ratelimit.go:16-17 | Two (client, minute) pairs share a counter key if and only if they are equal. |
| RateLimit.RemainingSchedule | src/api/ratelimit/ratelimit.go:31-36 | Remaining is never negative and falls by one per call until it reaches 0. The 100th call is allowed with 0 remaining, and the 101st is refused. |
| RateLimit.AllowedCalls | src/api/ratelimit/ratelimit.go:36 | Of the calls numbered 1..n in one window, exactly min(n, 100) are allowed. |
| RateLimit.Allow | src/api/ratelimit/ratelimit.go:14-38 | Increments exactly its own key by one, decides allowed (count ≤ 100) and remaining (max(0, 100 − count)), and sets the 120 s expiry only when count is 1. A counter error gives (false, 0, error) and changes nothing. |
| Experiment1.BadJobTypeRejected | src/api/experiments/experiment1.go:64-69 | A job type other than short or long is answered 400, and the store and the queues are unchanged. |
| Experiment1.Submission | src/api/experiments/experiment1.go:55-135 | A submission is answered 200, 201, 400 or 500. It is answered 400 exactly when the body is missing or the job type is neither short nor long, and then nothing is written. |
| Experiment1.Admission | src/api/experiments/experiment1.go:79-135 | After validation the answer is 200, 201 or 500. It is 201 exactly when the existence check succeeds, the id is new and the store and the enqueue succeed. A 200 writes nothing, and only a 201 enqueues. |
| Experiment1.ResubmissionIdempotent | src/api/experiments/experiment1.go:87-101 | Resubmitting an existing id writes nothing. The answer is 200 with the stored task, or 500 if reading it fails. |
| Experiment1.CreationStoresAndEnqueuesOnce | src/api/experiments/experiment1.go:104-135 | A new id is stored as a queued task with 0 retries and the request's job type and payload. It is put on exactly the endpoint's queue (the FIFO head or the priority set) and answered 201. |
| Experiment1.EmptyIdReplaced | src/api/experiments/experiment1.go:72-74 | An empty client id is replaced by the generated one. |
| Experiment1.FailuresAfterValidation | src/api/experiments/experiment1.go:114-129 | A failed store answers 500 and changes nothing. A failed enqueue answers 500 but leaves the task stored. |
| Experiment1.PostTask | src/api/experiments/experiment1.go:55-135 | The shared handler body gives the response and the new store that Submission gives. |
| Experiment1.Admit | src/api/experiments/experiment1.go:79-135 | The existence check, then the read or the store-and-enqueue, gives exactly Admission's response and store. |
| Experiment1.PostTaskFIFO | src/api/experiments/experiment1.go:25-136 | POST /task/fifo is Submission on the FIFO queue. |
| Experiment1.PostTaskPQ | src/api/experiments/experiment1.go:139-248 | POST /task/pq is Submission on the priority queue. |
| Experiment1.GetTaskByID | src/api/experiments/experiment1.go:252-265 | An unknown id or a failed read gives 404 with the id; otherwise 200 with the stored task for that id. |
| Worker.ClassificationRates | src/worker/worker.go:110-118 | Of the 10000 draws, 500 fail permanently, 2000 transiently and 7500 succeed. |
| Worker.Classify | src/worker/worker.go:110-118 | The three branches of the if-chain take disjoint ranges of the draw: below 500 permanent, 500 to 2499 transient, 2500 and up success. |
| Worker.BackoffSchedule | src/worker/worker.go:223 | Each backoff doubles the previous one; retries 1 to 5 wait 200, 400, 800, 1600 and 3200 ms. |
| Worker.Backoff | src/worker/worker.go:223 | The delay before retry n is 200 ms · 2^(n−1), never less than 200 ms. |
| Worker.Jitter | src/worker/worker.go:226 | The jitter lies in [0, backoff/2). |
| Worker.NextRetryAt | src/worker/worker.go:226-229 | The next retry lies in [now + backoff, now + 1.5 · backoff). |
| Worker.FinalizeFailed | src/worker/worker.go:202-213 | The task becomes failed, with the completion time and the reason, and is stored unless the store fails. |
| Worker.AfterTransient | src/worker/worker.go:215-244 | RetryCount goes up by exactly 1 and the task is stored (unless the store fails). Past 5 retries the task is finalised: status failed, CompletedAt the given time and Error "exhausted retries"; neither the retry set nor the queues change. Otherwise the status is kept. If scheduling succeeds the retry is scored at UnixSeconds(NextRetryAt) and the queues are unchanged. If it fails, the task is routed back onto the queue its stored job type calls for. If the fallback's read or enqueue fails, or the task is not stored, both queues are unchanged. |
| Worker.TransientNotLost | src/worker/worker.go:226-243 | Before the retries run out, and when the stores succeed, a transient failure leaves the task stored. The task then either waits in the retry set at its next-retry second or, if scheduling fails, is back on a queue. |
| Worker.HandleTransient | src/worker/worker.go:215-244 | The new task and store are those of AfterTransient on the store before the call, including the case where scheduling and then the fallback re-enqueue both fail, which leaves both queues unchanged. |
| Worker.ProcessTask | src/worker/worker.go:88-134 | The new task and store are those of AfterProcess on the store before the call. |
| Worker.AfterProcess | src/worker/worker.go:88-134 | The task keeps its id and type, gets StartedAt, and ends with ProcessedStatus: running if the first store fails, failed for u < 500, failed or still running for u < 2500 (by the retry count), success otherwise. A failed first store changes nothing. A permanent failure sets CompletedAt and Error "permanent error"; a success sets CompletedAt and Result "Task completed successfully"; in both cases the store holds the final task under its key (or the running one if the final store fails), every other key is unchanged, and neither the retry set nor the queues change. A transient failure is AfterTransient of the running task, stored as running. |
| Worker.WorkerIteration | src/worker/worker.go:50-84 | Dequeues from the priority set iff queueType is "priority" (a least-score member), otherwise from the FIFO tail. An empty queue or a dequeue error takes nothing and changes nothing. A taken id whose task cannot be read is gone from its queue and nothing else changes. Otherwise the result is AfterProcess of the stored task on the store with the id removed; the task gets StartedAt and ProcessedStatus, and outside a transient failure the id stays off its queue. |
| Worker.RequeueAllKeeps | src/worker/worker.go:190-196 | Re-enqueueing a batch takes nothing off the queues, and puts every stored id whose round trips succeed on a queue. |
| Worker.RequeueAll | src/worker/worker.go:190-196 | Re-enqueueing a batch adds nothing but ids of the batch to either queue. |
| Worker.RetrySchedulerTick | src/worker/worker.go:182-197 | Takes due ids, lowest score first, at most 128 of them, out of the retry set and leaves the queues as RequeueAll of that batch. When neither Redis round trip fails it takes exactly min(128, number due) of them, so a due retry is never skipped. When the range fails, or the removal fails with ids due, it takes none and changes neither the retry set nor the queues. |
| Exp3.BucketsPartition | src/client/exp3/exp3_loadtest.go:61-75 | Every reply that arrives falls into exactly one of 2xx, 429, 5xx and other; transport errors fall into none. |
| Exp3.BucketOf | src/client/exp3/exp3_loadtest.go:67-75 | The tests of the if-chain are disjoint: a code is 2xx, exactly 429, or at least 500 iff it lands in that bucket. |
| Exp3.IdsBounded | src/client/exp3/exp3_loadtest.go:77-90 | len(taskIDs) ≤ status2xx ≤ total. |
| Exp3.TallySubmissions | src/client/exp3/exp3_loadtest.go:48-95 | The loop's counters are the bucket counts of the replies, and taskIDs is the list of decoded 2xx IDs in order. |
| Exp3.FetchTask | src/client/exp3/exp3_loadtest.go:180-197 | Yields a task exactly for a 200 whose body decodes; a non-200 is a status error. |
| Exp3.OutcomesPartition | src/client/exp3/exp3_loadtest.go:122-149 | Each fetched task has exactly one of the four outcomes, and the four counts plus the fetch errors add up to len(taskIDs). |
| Exp3.OutcomeOf | src/client/exp3/exp3_loadtest.go:131-148 | A task is failed iff its status is "failed", a success with retry iff "success" with RetryCount > 0, and a success without retry iff "success" with RetryCount ≤ 0; every other status is pending. |
| Exp3.ExamplesCapped | src/client/exp3/exp3_loadtest.go:135-145 | Each example list holds at most 5 tasks, each of the outcome it illustrates. |
| Exp3.TallyOfAppend | src/client/exp3/exp3_loadtest.go:129-148 | One more fetched task adds its RetryCount to totalRetries, increments exactly its outcome's count, and joins its example list only while that list holds fewer than 5. |
| Exp3.CountTask | src/client/exp3/exp3_loadtest.go:129-148 | The switch body moves the tally from that of the tasks before to that of the tasks before plus this one. |
| Exp3.TallyOutcomes | src/client/exp3/exp3_loadtest.go:122-149 | The loop ends with the counts, the retry sum and the capped example lists of the successfully fetched tasks. |
| LatencyStats.SortAsc | locust/locustfile_priority.py:202 | sorted() gives an ascending permutation of the latencies. |
| LatencyStats.PercentileIndexBounds | locust/locustfile_priority.py:205-207 | For n ≥ 1 the index int(n·k/100) lies in [0, n) and does not decrease with k; for n = 100 it picks 50, 95 and 99. |
| LatencyStats.SeqMin | locust/locustfile_priority.py:209 | min is an element no larger than any other. |
| LatencyStats.SeqMax | locust/locustfile_priority.py:210 | max is an element no smaller than any other. |
| LatencyStats.Summarize | locust/locustfile_priority.py:194-196 | There is no report exactly when there are no latencies; a report with latencies but nothing submitted is the division by zero. |
| LatencyStats.SummaryOrdered | locust/locustfile_priority.py:202-210 | min = sorted[0] ≤ p50 ≤ p95 ≤ p99 ≤ sorted[n−1] = max, and min ≤ average ≤ max. |
| LatencyStats.CategoryOrdered | locust/locustfile_priority.py:225-236 | A category's median sorted[len//2] and its percentiles lie in order between its min and max; only the short category has a 99th. |
| LatencyStats.Category | locust/locustfile_priority.py:225-236 | A non-empty category reports a median and a 95th percentile that are among its latencies. It has a 99th percentile, also one of them, exactly for the short category when it is non-empty. |
| LatencyStats.TypesPartition | locust/locustfile_priority.py:222-223 | With every type short or long, the two categories split the latencies: their counts add up and no observation is lost. |
| LatencyStats.CompletionRateBounded | locust/locustfile_priority.py:245 | With 1 ≤ n ≤ submitted, the completion rate lies in (0, 1]. |
| LatencyStats.FullCompletionRate | locust/locustfile_priority.py:245 | With latencies and submissions, the completion rate is 1.0 exactly when there are as many latencies as submitted tasks. |
| LocustHarness.RotateVisitsInTurn | locust/locustfile_priority.py:77-107 | While nothing finishes, check n looks at task n mod \|deque\|, and the deque keeps its length and its tasks. |
| LocustHarness.PassSplits | locust/locustfile_priority.py:139-156 | A pass splits its tasks into the finished and the unfinished ones, as a permutation. |
| LocustHarness.RemovingCompletedLeavesOpen | locust/locustfile_priority.py:161-163 | Removing the newly completed tasks leaves exactly the unfinished ones, in order. |
| LocustHarness.RemoveAll | locust/locustfile_priority.py:162-163 | The removal loop drops the first occurrence of each completed task in turn. |
| LocustHarness.Drain | locust/locustfile_priority.py:136-171 | The specification of the drain loop: one clock reading per retired task, and neither the pass count nor the clock goes backwards. |
| LocustHarness.DrainConserves | locust/locustfile_priority.py:136-171 | The tasks the drain leaves and those it retires make up the drain set, so each is retired at most once, with one clock reading per retirement. |
| LocustHarness.DrainStops | locust/locustfile_priority.py:136-171 | The drain makes a pass exactly when tasks are left and time remains, and stops only with nothing left or the budget spent. Each pass starts at least a second after the one before. The last one starts before the budget runs out, so the drain ends no later than that pass's requests and sleep after it. |
| LocustHarness.DrainWithin | locust/locustfile_priority.py:136-171 | When no pass's requests take more than c ms, the drain is over within maxWait + c + 1 s, even if no task ever finishes. |
| LocustHarness.DrainOfUnfinished | locust/locustfile_priority.py:136-171 | Tasks that never finish are all kept; with instant requests the drain makes ceil(budget / 1 s) passes. |
| LocustHarness.StopDrainGivesUp | locust/locustfile_priority.py:192 | At test stop, a drain of tasks that never finish gives up after 120 passes and keeps them all. |
| LocustHarness.DrainSet | locust/locustfile_priority.py:123-124 | The drain set has length total − completed (empty past the end). |
| LocustHarness.DrainSetMissesOutOfOrder | locust/locustfile_priority.py:123-124 | If A and B are submitted and B completes first, the drain set is [B]: B is retired again and A never. |
| LocustHarness.RecordedExtends | locust/locustfile_priority.py:93-94 | When the recorded completions only grow at the end, task_latencies and task_types only grow at the end, by one latency (observation time − submit time) and one job type per new completion. |
| LocustHarness.Harness.constructor | locust/locustfile_priority.py:14-25 | Starts with empty lists and deque and no host; both invariants hold. |
| LocustHarness.Harness.OnStart | locust/locustfile_priority.py:27-29 | Records the host. |
| LocustHarness.Harness.SubmitTask | locust/locustfile_priority.py:39-65 | Only a 201 whose body yields task.id enrols the task, at the tail of the deque and of the ledger; otherwise neither changes. Latencies stay in step, and every enrolled task stays accounted for. |
| LocustHarness.Harness.CheckTaskStatus | locust/locustfile_priority.py:67-107 | An empty deque changes nothing. Otherwise the head is popped: a success or failed reply appends one latency and one type and drops it; any other reply rotates the deque. The ledger is untouched and conservation is kept. |
| LocustHarness.Harness.CheckPass | locust/locustfile_priority.py:139-159 | A pass returns exactly the tasks found finished, in order, and appends one latency per task, all read at the pass's clock. |
| LocustHarness.Harness.DrainPass | locust/locustfile_priority.py:137-163 | A pass and its removals leave exactly the unfinished tasks and record exactly the finished ones. |
| LocustHarness.Harness.DrainPasses | locust/locustfile_priority.py:136-171 | The loop ends with the tasks left, the passes, the time and the retirements of Drain. |
| LocustHarness.Harness.PollRemainingAsWritten | locust/locustfile_priority.py:110-176 | The source's drain. Without a host nothing changes. Otherwise it retires what Drain of the ledger suffix retires, appends exactly one latency (observation time − submit time) and one job type per retirement to task_latencies and task_types, leaves the earlier entries as they were, and keeps latencies ≤ submissions. |
| LocustHarness.Harness.PollRemaining | locust/locustfile_priority.py:110-176 | The corrected drain over the pending deque. Without a host nothing changes. Otherwise Drain's remainder stays pending, and Drain's retirements are appended to the lists, each with its latency and type. Every task stays accounted for exactly once. |
| LocustHarness.Harness.OnTestStop | locust/locustfile_priority.py:180-256 | Runs the source's 120 s drain of the ledger suffix. Without a host nothing is recorded. Otherwise it appends, after the load-phase entries, exactly the latencies and types of what Drain of all_submitted_tasks[len(task_latencies):] retires. The report is Summarize of those lists; with no more latencies than submissions before, the report is never the division by zero. |
| LocustHarness.Harness.OnTestStopCorrected | locust/locustfile_priority.py:180-256 | The stop hook with the corrected drain. Without a host nothing changes. Otherwise the pending deque becomes Drain's remainder, and Drain's retirements are appended to the lists with their latencies and types. The report is Summarize of those lists; under conservation it is never the division by zero. |
| LocustHarness.Harness.ConservedBounds | locust/locustfile_priority.py:123-124 | Under conservation no task is retired more often than submitted, so len(task_latencies) ≤ len(all_submitted_tasks). |
| LocustHarness.Harness.FullCompletionMeansNonePending | locust/locustfile_priority.py:245 | Under conservation, with latencies recorded, the completion rate is 1.0 exactly when no submitted task is still pending, that is, exactly when every submitted task was seen finished once. |
| LocustHarness.Harness.AllRecordedRate | locust/locustfile_priority.py:245 | With as many recorded completions as submitted tasks, the completion rate is 1.0, whichever tasks those completions came from. |
| LocustHarness.LoadPhase | locust/locustfile_priority.py:39-107 | Submitting A and B, checking A unfinished and then B finished, leaves A pending and B retired. |
| LocustHarness.AsWrittenScenario | locust/locustfile_priority.py:123-124 | After that load phase the source's drain retires B twice and never A. A stays pending, and there are as many latencies as submissions. |
| LocustHarness.AsWrittenStopReport | locust/locustfile_priority.py:123-124 | The report after the source's drain in that scenario has completion rate 1.0, although A is still pending and was never seen finished. |
| LocustHarness.CorrectedScenario | locust/locustfile_priority.py:110-176 | After the same load phase the corrected drain retires B and then A, each exactly once. |

## Left out

- JSON encoding and decoding are not modelled. A body that does not parse is an input: `None` or a missing field. The key TTL of stored tasks (7 days) is not modelled either.
- InitRedis, CloseRedis and GetRedisClient are not modelled: they are connection management only.
- GetFIFOQueueLength, GetPriorityQueueLength and DeleteTask are not modelled: no core operation calls them.
- ClearFIFOQueue and ClearPriorityQueue are modelled only as steps of ClearAllData.
- GetAllTaskKeys is modelled only as a step of ClearAllData. Its KEYS pattern matches exactly the task keys.
- ZPOPMIN's choice among members of equal least score is not modelled: DequeuePriority returns some least-score member.
- RedisStore.RangeByScore and RedisStore.Redis.PopDueRetries: ZRANGEBYSCORE's lexicographic order among members of equal score is not modelled. Tied members may come in any order, so when ties straddle the limit of 128, any of the tied ids may be the ones taken.
- Gin routing, request binding beyond a required job_type, and uuid generation are not modelled. The generated id is a parameter.
- The rate limiter is not wired into the handlers, because that call is commented out in experiment1.go.
- Concurrency is modelled sequentially: the deque shared by Locust users, the retry-scheduler goroutine, and the non-atomic check-then-store in the handlers.
- Floating point is modelled exactly:
  - The percentile index int(n·0.95) is n·95/100, without IEEE rounding.
  - The worker's draw is u = ⌊10000 · Float64()⌋ in basis points.
  - The completion rate and the average are reals.
- Sleeps are not modelled: the job-type work times, the 100 ms and 1 s back-offs of the worker loop, and the 5-minute wait of the experiment-3 client.
- Worker.RetrySchedulerTick: only one tick is modelled, not the 200 ms ticker loop.
- LocustHarness.Drain: the clock is abstract. Pass k's requests take passCost(k) ms, and all its checks read the clock at the pass's start, where the source reads time.time() per completed task.
- Locust task weights, `wait_time`, console output (including the checked_count progress lines) and the write of experiment_results.json are not modelled.
- ProcessTaskWithFailure is not modelled: it is an unused helper whose failure injection is commented out.
- The submission loop of the experiment-3 client runs over any number of replies, not a fixed 1000. A marshal error of its constant body is not modelled.
- Worker.WorkerIteration: the id taken off the queue is returned as an extra result, so that the contract can name it. A dequeued id whose task cannot be read is dropped, as in the source.
- Worker.ProcessTask: one finishing clock reading serves for the completion time and for the computation of the next retry. The source reads the clock separately in each place.
- Models.Task: retryCount is a natural number, because the source only ever sets it to 0 and increments it.

## Findings

| source | as written | input that shows it | evidently intended | confidence | as-written member | corrected member |
|---|---|---|---|---|---|---|
| locust/locustfile_priority.py:123-124 | The drain set is all_submitted_tasks[len(task_latencies):]. This assumes tasks complete in submission order. | A and B are submitted and B completes during load. The drain set is then [B]: B is checked and retired a second time, and A is never checked. The report then gives a completion rate of 1.0 with A unfinished. | Drain the tasks that are actually unfinished (the pending deque), so each task is retired exactly once. | not executed | LocustHarness.DrainSetMissesOutOfOrder | LocustHarness.Harness.PollRemaining |
