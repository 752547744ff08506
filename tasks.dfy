/** The ingestion task the coordinator hands out, and its parameters. */
module Tasks {

  /**
   * `paths`: the objects to copy, in order; `modelId`: the destination's
   * first path segment; `lastIndexError`: the resume cursor, -1 when a task
   * has never failed.
   */
  datatype TaskParameters = TaskParameters(paths: seq<string>, modelId: string, lastIndexError: int)

  /** The fields of a dequeued task the engine uses. */
  datatype Task = Task(id: string, jobId: string, attempts: int, parameters: TaskParameters)

  /** A cursor the engine can resume from: -1 or an index. */
  predicate Resumable(task: Task)
  {
    task.parameters.lastIndexError >= -1
  }

  /** `startPosition`: the cursor, with -1 meaning the first file. */
  function StartIndex(p: TaskParameters): (i: int)
    ensures p.lastIndexError >= -1 ==> i >= 0
    ensures p.lastIndexError == -1 ==> i == 0
    ensures p.lastIndexError != -1 ==> i == p.lastIndexError
  {
    if p.lastIndexError == -1 then 0 else p.lastIndexError
  }
}
