/**
 * What the Celery client reports, as inputs of the model: the state of a task and its
 * result payload as `AsyncResult` would give them, and the outcome of `.delay(...)`.
 */
module Celery {
  import opened Sessions

  /** Celery's built-in task states and the custom `PROGRESS` state the Celery tasks set. */
  datatype TaskState = Pending | Started | Retry | Failure | Success | Revoked | Progress

  /**
   * One look at a task: `Polled` carries its state and `result` (also its `info`: the meta
   * dictionary of a `PROGRESS` update), `PollRaised` the message of an exception raised while
   * asking the result backend.
   */
  datatype Poll =
    | Polled(state: TaskState, result: map<string, Value>)
    | PollRaised(message: string)

  /** `task.delay(...)`: the new task's id, or the message of the exception it raised. */
  datatype Enqueue = Queued(taskId: string) | EnqueueRaised(message: string)

  /** `str(KeyError(key))`: Python quotes the missing key. */
  function KeyErrorMessage(key: string): string {
    "'" + key + "'"
  }
}
