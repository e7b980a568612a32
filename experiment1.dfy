/**
 * The submission and lookup handlers of experiment 1
 * (src/api/experiments/experiment1.go) as transitions of the task store and
 * the two queues.  A request body that does not bind is None; the generated
 * uuid and the clock reading are parameters.
 */
module Experiment1 {
  import opened Wrappers
  import opened Models
  import opened RedisStore

  datatype Body =
    | TaskBody(message: string, task: Task)
    | ErrorBody(error: string)
    | NotFoundBody(error: string, id: string)
    | BareTask(task: Task)

  datatype Response = Response(code: int, body: Body)

  datatype QueueKind = FifoQueue | PriorityQueue

  /** Which Redis round trips of one submission fail. */
  datatype PostFaults = PostFaults(existsFails: bool, getFails: bool, storeFails: bool, enqueueFails: bool)

  const NoFaults := PostFaults(false, false, false, false)

  /** The part of Redis a submission reads and writes. */
  datatype Store = Store(tasks: map<string, Task>, fifo: seq<string>, pq: map<string, int>)

  /** The id a submission uses: the client's, or the generated one when the client gave none. */
  function SubmittedId(req: TaskRequest, freshId: string): string
  {
    if req.id == "" then freshId else req.id
  }

  function NewTask(id: string, req: TaskRequest, now: Time): Task
  {
    Task(id, req.jobType, req.payload, Queued, now, None, None, 0, "", "")
  }

  function Enqueue(kind: QueueKind, s: Store, t: Task): Store
  {
    match kind
    case FifoQueue => s.(fifo := LPush(s.fifo, t.id))
    case PriorityQueue => s.(pq := s.pq[t.id := PriorityScore(t.jobType)])
  }

  function CreatedMessage(kind: QueueKind): string
  {
    match kind
    case FifoQueue => "Task created successfully (FIFO queue)"
    case PriorityQueue => "Task created successfully (Priority queue)"
  }

  function ServerError(msg: string): Response
  {
    Response(500, ErrorBody(msg))
  }

  predicate ValidJobType(jobType: string)
  {
    jobType == Short || jobType == Long
  }

  /** The response and the new store of one submission to the queue of the given kind. */
  function Submission(kind: QueueKind, req: Option<TaskRequest>, freshId: string, now: Time,
                      f: PostFaults, s: Store): (r: (Response, Store))
    ensures r.0.code in {200, 201, 400, 500}
    ensures r.0.code == 400 <==> req.None? || !ValidJobType(req.value.jobType)
    ensures r.0.code == 400 ==> r.1 == s
  {
    if req.None? || req.value.jobType == "" then
      (Response(400, ErrorBody("Invalid request body")), s)
    else if !ValidJobType(req.value.jobType) then
      (Response(400, ErrorBody("job_type must be 'short' or 'long'")), s)
    else
      Admission(kind, SubmittedId(req.value, freshId), req.value, now, f, s)
  }

  /** A validated submission under id: answer an existing task, or store a new
      one and enqueue it. */
  function Admission(kind: QueueKind, id: string, req: TaskRequest, now: Time, f: PostFaults, s: Store)
    : (r: (Response, Store))
    ensures r.0.code in {200, 201, 500}
    ensures r.0.code == 201 <==> !f.existsFails && TaskKey(id) !in s.tasks && !f.storeFails && !f.enqueueFails
    ensures r.0.code == 200 ==> r.1 == s
    ensures r.0.code != 201 ==> r.1.fifo == s.fifo && r.1.pq == s.pq
  {
    if f.existsFails then
      (ServerError("Failed to check task existence"), s)
    else if TaskKey(id) in s.tasks then
      if f.getFails then (ServerError("Failed to retrieve existing task"), s)
      else (Response(200, TaskBody("Task already exists", s.tasks[TaskKey(id)])), s)
    else
      var t := NewTask(id, req, now);
      if f.storeFails then
        (ServerError("Failed to store task"), s)
      else
        var stored := s.(tasks := s.tasks[TaskKey(id) := t]);
        if f.enqueueFails then (ServerError("Failed to enqueue task"), stored)
        else (Response(201, TaskBody(CreatedMessage(kind), t)), Enqueue(kind, stored, t))
  }

  // ---------------------------------------------------------------------------
  // Properties of a submission
  // ---------------------------------------------------------------------------

  /** A job type other than short or long is refused with 400 and nothing changes. */
  lemma BadJobTypeRejected(kind: QueueKind, req: TaskRequest, freshId: string, now: Time,
                           f: PostFaults, s: Store)
    requires !ValidJobType(req.jobType)
    ensures Submission(kind, Some(req), freshId, now, f, s) == (Submission(kind, Some(req), freshId, now, f, s).0, s)
    ensures Submission(kind, Some(req), freshId, now, f, s).0.code == 400
  {
  }

  /** Resubmitting an id that is already stored answers 200 with the stored
      task (or 500 if reading it fails) and writes nothing. */
  lemma ResubmissionIdempotent(kind: QueueKind, req: TaskRequest, freshId: string, now: Time,
                               f: PostFaults, s: Store)
    requires ValidJobType(req.jobType) && !f.existsFails
    requires TaskKey(SubmittedId(req, freshId)) in s.tasks
    ensures Submission(kind, Some(req), freshId, now, f, s).1 == s
    ensures Submission(kind, Some(req), freshId, now, f, s).0 ==
              if f.getFails then ServerError("Failed to retrieve existing task")
              else Response(200, TaskBody("Task already exists", s.tasks[TaskKey(SubmittedId(req, freshId))]))
  {
  }

  /** A new id is stored as a queued task with no retries, the request's job
      type and payload, and is put on exactly the queue of the endpoint: 201. */
  lemma CreationStoresAndEnqueuesOnce(kind: QueueKind, req: TaskRequest, freshId: string, now: Time, s: Store)
    requires ValidJobType(req.jobType)
    requires TaskKey(SubmittedId(req, freshId)) !in s.tasks
    ensures var (resp, s') := Submission(kind, Some(req), freshId, now, NoFaults, s);
            var id := SubmittedId(req, freshId);
            && resp.code == 201 && resp.body.TaskBody?
            && resp.body.task.id == id && resp.body.task.status == Queued && resp.body.task.retryCount == 0
            && resp.body.task.jobType == req.jobType && resp.body.task.payload == req.payload
            && s'.tasks == s.tasks[TaskKey(id) := resp.body.task]
            && (kind == FifoQueue ==> s'.fifo == [id] + s.fifo && s'.pq == s.pq)
            && (kind == PriorityQueue ==> s'.pq == s.pq[id := PriorityScore(req.jobType)] && s'.fifo == s.fifo)
  {
  }

  /** An empty client id is replaced by the generated one. */
  lemma EmptyIdReplaced(kind: QueueKind, req: TaskRequest, freshId: string, now: Time, s: Store)
    requires ValidJobType(req.jobType) && req.id == ""
    requires TaskKey(freshId) !in s.tasks
    ensures Submission(kind, Some(req), freshId, now, NoFaults, s).0.body.task.id == freshId
  {
  }

  /** A failed store answers 500 and enqueues nothing; a failed enqueue answers
      500 but leaves the task stored. */
  lemma FailuresAfterValidation(kind: QueueKind, req: TaskRequest, freshId: string, now: Time,
                                f: PostFaults, s: Store)
    requires ValidJobType(req.jobType) && !f.existsFails
    requires TaskKey(SubmittedId(req, freshId)) !in s.tasks
    ensures f.storeFails ==>
              Submission(kind, Some(req), freshId, now, f, s) == (ServerError("Failed to store task"), s)
    ensures !f.storeFails && f.enqueueFails ==>
              var id := SubmittedId(req, freshId);
              Submission(kind, Some(req), freshId, now, f, s) ==
                (ServerError("Failed to enqueue task"), s.(tasks := s.tasks[TaskKey(id) := NewTask(id, req, now)]))
  {
  }

  // ---------------------------------------------------------------------------
  // The handlers
  // ---------------------------------------------------------------------------

  /** The shared body of the two submission handlers. */
  method PostTask(r: Redis, kind: QueueKind, req: Option<TaskRequest>, freshId: string, now: Time, f: PostFaults)
    returns (resp: Response)
    requires r.Valid()
    modifies r`tasks, r`fifo, r`pq
    ensures r.Valid()
    ensures (resp, Store(r.tasks, r.fifo, r.pq)) ==
              Submission(kind, req, freshId, now, f, Store(old(r.tasks), old(r.fifo), old(r.pq)))
  {
    if req.None? || req.value.jobType == "" {
      return Response(400, ErrorBody("Invalid request body"));
    }
    var request := req.value;
    if request.jobType != Short && request.jobType != Long {
      return Response(400, ErrorBody("job_type must be 'short' or 'long'"));
    }
    if request.id == "" {
      request := request.(id := freshId);
    }
    assert NewTask(request.id, request, now) == NewTask(request.id, req.value, now);
    resp := Admit(r, kind, request.id, req.value, now, f);
  }

  /** Existence check, then the read of an existing task or the store and
      enqueue of a new one, each stopping at its first failing round trip. */
  method Admit(r: Redis, kind: QueueKind, taskID: string, request: TaskRequest, now: Time, f: PostFaults)
    returns (resp: Response)
    requires r.Valid()
    modifies r`tasks, r`fifo, r`pq
    ensures r.Valid()
    ensures (resp, Store(r.tasks, r.fifo, r.pq)) ==
              Admission(kind, taskID, request, now, f, Store(old(r.tasks), old(r.fifo), old(r.pq)))
  {
    var found := r.TaskExists(taskID, f.existsFails);
    if found.Failure? {
      return ServerError("Failed to check task existence");
    }
    if found.value {
      var existing := r.GetTask(taskID, f.getFails);
      if existing.Failure? {
        return ServerError("Failed to retrieve existing task");
      }
      return Response(200, TaskBody("Task already exists", existing.value));
    }
    var task := NewTask(taskID, request, now);
    var err := r.StoreTask(task, f.storeFails);
    if err.Some? {
      return ServerError("Failed to store task");
    }
    match kind {
      case FifoQueue => err := r.EnqueueFIFO(task.id, f.enqueueFails);
      case PriorityQueue => err := r.EnqueuePriority(task.id, task.jobType, f.enqueueFails);
    }
    if err.Some? {
      return ServerError("Failed to enqueue task");
    }
    resp := Response(201, TaskBody(CreatedMessage(kind), task));
  }

  /** POST /task/fifo */
  method PostTaskFIFO(r: Redis, req: Option<TaskRequest>, freshId: string, now: Time, f: PostFaults)
    returns (resp: Response)
    requires r.Valid()
    modifies r`tasks, r`fifo, r`pq
    ensures r.Valid()
    ensures (resp, Store(r.tasks, r.fifo, r.pq)) ==
              Submission(FifoQueue, req, freshId, now, f, Store(old(r.tasks), old(r.fifo), old(r.pq)))
  {
    resp := PostTask(r, FifoQueue, req, freshId, now, f);
  }

  /** POST /task/pq */
  method PostTaskPQ(r: Redis, req: Option<TaskRequest>, freshId: string, now: Time, f: PostFaults)
    returns (resp: Response)
    requires r.Valid()
    modifies r`tasks, r`fifo, r`pq
    ensures r.Valid()
    ensures (resp, Store(r.tasks, r.fifo, r.pq)) ==
              Submission(PriorityQueue, req, freshId, now, f, Store(old(r.tasks), old(r.fifo), old(r.pq)))
  {
    resp := PostTask(r, PriorityQueue, req, freshId, now, f);
  }

  /** GET /task/:id: 404 with the id when the task cannot be read, else 200 with the task. */
  method GetTaskByID(r: Redis, taskID: string, fault: bool) returns (resp: Response)
    requires r.Valid()
    ensures fault || TaskKey(taskID) !in r.tasks ==> resp == Response(404, NotFoundBody("Task not found", taskID))
    ensures !fault && TaskKey(taskID) in r.tasks ==>
              resp == Response(200, BareTask(r.tasks[TaskKey(taskID)])) && resp.body.task.id == taskID
  {
    var got := r.GetTask(taskID, fault);
    if got.Failure? {
      return Response(404, NotFoundBody("Task not found", taskID));
    }
    resp := Response(200, BareTask(got.value));
  }
}
