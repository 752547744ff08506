/**
 * The job coordinator (`TaskHandler` and its job-manager client) as the log
 * of the calls the engine makes on it, in the order it makes them.
 */
module Coordinator {
  import opened Tasks

  /** Only the in-progress status is ever sent. */
  datatype OperationStatus = InProgress

  /** The body of `updateTask`. */
  datatype UpdateBody = UpdateBody(status: OperationStatus, parameters: TaskParameters)

  datatype Event =
    | Update(jobId: string, taskId: string, body: UpdateBody)
    | Reject(jobId: string, taskId: string, isRecoverable: bool, reason: string)
    | Ack(jobId: string, taskId: string)

  class TaskHandler {
    var events: seq<Event>

    constructor ()
      ensures events == []
    {
      events := [];
    }

    /** `jobManagerClient.updateTask(jobId, taskId, body)`. */
    method UpdateTask(jobId: string, taskId: string, body: UpdateBody)
      modifies this
      ensures events == old(events) + [Update(jobId, taskId, body)]
    {
      events := events + [Update(jobId, taskId, body)];
    }

    /** `reject(jobId, taskId, isRecoverable, reason)`. */
    method Reject(jobId: string, taskId: string, isRecoverable: bool, reason: string)
      modifies this
      ensures events == old(events) + [Event.Reject(jobId, taskId, isRecoverable, reason)]
    {
      events := events + [Event.Reject(jobId, taskId, isRecoverable, reason)];
    }

    /** `ack(jobId, taskId)`. */
    method Ack(jobId: string, taskId: string)
      modifies this
      ensures events == old(events) + [Event.Ack(jobId, taskId)]
    {
      events := events + [Event.Ack(jobId, taskId)];
    }
  }
}
