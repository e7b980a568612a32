/**
 * The task record kept by the queue service and the body of a submission
 * request (src/api/models/models.go).  Timestamps are readings of an abstract
 * clock, in nanoseconds.
 */
module Models {
  import opened Wrappers

  type Time = int

  const Short := "short"
  const Long := "long"

  const Queued := "queued"
  const Running := "running"
  const Succeeded := "success"
  const Failed := "failed"

  /** One task as stored in Redis; startedAt and completedAt are optional, as
      the pointer fields of the Go struct are. */
  datatype Task = Task(
    id: string,
    jobType: string,
    payload: string,
    status: string,
    submittedAt: Time,
    startedAt: Option<Time>,
    completedAt: Option<Time>,
    retryCount: nat,
    result: string,
    error: string)

  /** A submission: the id is optional (empty when the client gives none). */
  datatype TaskRequest = TaskRequest(id: string, jobType: string, payload: string)
}
