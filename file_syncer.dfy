/**
 * The file-transfer task engine: `FileSyncerManager` copies a task's files
 * from the source provider to the destination provider, writes a checkpoint
 * and rejects a task when an `AppError` stops the copy, and acknowledges
 * it otherwise; `FileSyncer` runs tasks until `maxRetries` of them have
 * failed with an `AppError`, then throws the last such error.
 *
 * The tasks `waitForTask` would hand out are the `queue` parameter; when it
 * is used up the real loop would wait for a task forever, and the model
 * returns `Waiting`. There is no normal return: the source's loop ends only
 * by throwing.
 */
module FileSync {
  import opened Wrappers
  import opened AppErrors
  import opened ModelPaths
  import opened Storage
  import opened Tasks
  import opened Coordinator
  import opened TaskTransfer

  /** How `fileSyncer` ended after taking `consumed` tasks from the queue. */
  datatype SyncerOutcome =
    | Threw(error: Option<Thrown>, consumed: nat)
    | Waiting(consumed: nat)

  /** The coordinator calls for one task: the failure's calls, or the ack. */
  function TaskEvents(task: Task, run: Run, maxAttempts: int): (events: seq<Event>)
    ensures AppFailure(run).None? ==> events == [Ack(task.jobId, task.id)]
    ensures AppFailure(run).Some? ==> events == FailureEvents(task, run, maxAttempts)
  {
    FailureEvents(task, run, maxAttempts) + if AppFailure(run).None? then [Ack(task.jobId, task.id)] else []
  }

  predicate AllResumable(tasks: seq<Task>)
  {
    forall k :: 0 <= k < |tasks| ==> Resumable(tasks[k])
  }

  /** The attempt made for each task, all on the same storage. */
  function Runs(env: Env, tasks: seq<Task>): (runs: seq<Run>)
    requires AllResumable(tasks)
    ensures |runs| == |tasks|
  {
    if tasks == [] then [] else [TaskRun(env, tasks[0])] + Runs(env, tasks[1..])
  }

  /** The `k`-th run is the attempt made for the `k`-th task. */
  lemma {:induction false} RunsAt(env: Env, tasks: seq<Task>, k: nat)
    requires AllResumable(tasks) && k < |tasks|
    ensures Runs(env, tasks)[k] == TaskRun(env, tasks[k])
  {
    if k > 0 {
      RunsAt(env, tasks[1..], k - 1);
    }
  }

  /**
   * What `fileSyncer` has done after some tasks: how many failed with an
   * `AppError` (the value `retries` reaches), the last such error, the
   * coordinator log and the destination's contents.
   */
  datatype Progress = Progress(failures: nat, last: Option<Thrown>, log: seq<Event>, dest: map<string, Bytes>)

  /** One more task, whose attempt was `run`. */
  function Step(before: Progress, task: Task, run: Run, maxAttempts: int): Progress
  {
    var failure := AppFailure(run);
    Progress(
      before.failures + (if failure.Some? then 1 else 0),
      if failure.Some? then failure else before.last,
      before.log + TaskEvents(task, run, maxAttempts),
      Post(before.dest, run.writes))
  }

  /** The first `n` tasks in order, starting from the destination `dest`, with nothing logged. */
  function Syncer(tasks: seq<Task>, runs: seq<Run>, n: nat, dest: map<string, Bytes>, maxAttempts: int): (s: Progress)
    requires |runs| == |tasks| && n <= |tasks|
    ensures s.failures <= n
  {
    if n == 0 then Progress(0, None, [], dest)
    else Step(Syncer(tasks, runs, n - 1, dest, maxAttempts), tasks[n - 1], runs[n - 1], maxAttempts)
  }

  lemma AppendAssoc<T>(a: seq<T>, b: seq<T>, c: seq<T>)
    ensures a + b + c == a + (b + c)
  {
  }

  /** The number of runs among the first `n` that an `AppError` stopped. */
  function CountFailures(runs: seq<Run>, n: nat): (c: nat)
    requires n <= |runs|
    ensures c <= n
  {
    if n == 0 then 0 else CountFailures(runs, n - 1) + if AppFailure(runs[n - 1]).Some? then 1 else 0
  }

  /**
   * After `n` tasks `retries` counts the tasks an `AppError` stopped, and
   * the error to throw is there exactly when some task failed, and is an
   * `AppError`.
   */
  lemma {:induction false} SyncerFailures(tasks: seq<Task>, runs: seq<Run>, n: nat, dest: map<string, Bytes>, maxAttempts: int)
    requires |runs| == |tasks| && n <= |tasks|
    ensures var s := Syncer(tasks, runs, n, dest, maxAttempts);
      && s.failures == CountFailures(runs, n)
      && (s.last.Some? <==> s.failures > 0)
      && (s.last.Some? ==> s.last.value.AppError?)
  {
    if n > 0 {
      SyncerFailures(tasks, runs, n - 1, dest, maxAttempts);
    }
  }

  /**
   * Each task leaves one coordinator call when it is acknowledged and two
   * (the checkpoint, then the reject) when it fails.
   */
  lemma {:induction false} SyncerLogLength(tasks: seq<Task>, runs: seq<Run>, n: nat, dest: map<string, Bytes>, maxAttempts: int)
    requires |runs| == |tasks| && n <= |tasks|
    ensures |Syncer(tasks, runs, n, dest, maxAttempts).log| == n + CountFailures(runs, n)
  {
    if n > 0 {
      SyncerLogLength(tasks, runs, n - 1, dest, maxAttempts);
      assert |TaskEvents(tasks[n - 1], runs[n - 1], maxAttempts)| == if AppFailure(runs[n - 1]).Some? then 2 else 1;
    }
  }

  /**
   * The thrown error is the last failure: when task `n - 1` failed, it is
   * that task's error; otherwise it is whatever the earlier tasks left.
   */
  lemma SyncerLast(tasks: seq<Task>, runs: seq<Run>, n: nat, dest: map<string, Bytes>, maxAttempts: int)
    requires |runs| == |tasks| && 0 < n <= |tasks|
    ensures var s := Syncer(tasks, runs, n, dest, maxAttempts);
      && (AppFailure(runs[n - 1]).Some? ==> s.last == AppFailure(runs[n - 1]))
      && (AppFailure(runs[n - 1]).None? ==> s.last == Syncer(tasks, runs, n - 1, dest, maxAttempts).last)
  {
  }

  /** The failure count is never reset: more tasks never lower it. */
  lemma {:induction false} CountFailuresGrows(runs: seq<Run>, m: nat, n: nat)
    requires m <= n <= |runs|
    ensures CountFailures(runs, m) <= CountFailures(runs, n)
    decreases n - m
  {
    if m < n {
      CountFailuresGrows(runs, m, n - 1);
    }
  }

  /**
   * A failure other than an `AppError` is swallowed: a task is
   * acknowledged although the copy stopped at the failing file, so the
   * files from that one on were never posted.
   */
  lemma SwallowedFailureIsAcknowledged(env: Env, task: Task, maxAttempts: int)
    requires Resumable(task)
    requires TaskRun(env, task).failure.Some? && !TaskRun(env, task).failure.value.AppError?
    ensures var run := TaskRun(env, task);
      && TaskEvents(task, run, maxAttempts) == [Ack(task.jobId, task.id)]
      && run.index < |task.parameters.paths|
      && |run.writes| == run.index - StartIndex(task.parameters)
  {
  }

  class FileSyncerManager {
    const maxAttempts: int
    const maxRetries: int
    const taskHandler: TaskHandler
    const providerFrom: Provider
    const providerTo: Provider

    /** The source and the destination are two distinct providers. */
    ghost predicate Valid()
      reads this
    {
      providerFrom != providerTo
    }

    /** What decides a transfer: the source's files and both providers' failures. */
    function CurrentEnv(): Env
      reads this, providerFrom, providerTo
    {
      Env(providerFrom.files, providerFrom.faults, providerTo.faults)
    }

    constructor (taskHandler: TaskHandler, providerFrom: Provider, providerTo: Provider, maxAttempts: int, maxRetries: int)
      requires providerFrom != providerTo
      ensures Valid()
      ensures this.taskHandler == taskHandler && this.providerFrom == providerFrom && this.providerTo == providerTo
      ensures this.maxAttempts == maxAttempts && this.maxRetries == maxRetries
    {
      this.taskHandler := taskHandler;
      this.providerFrom := providerFrom;
      this.providerTo := providerTo;
      this.maxAttempts := maxAttempts;
      this.maxRetries := maxRetries;
    }

    /**
     * `fileSyncer`: take tasks one at a time; acknowledge a task whose
     * transfer returned normally; count an `AppError`, never resetting the
     * count; stop right after the `maxRetries`-th one and throw it.
     */
    method FileSyncer(queue: seq<Task>) returns (outcome: SyncerOutcome)
      requires Valid()
      requires AllResumable(queue)
      modifies providerTo, taskHandler
      ensures providerTo.faults == old(providerTo.faults)
      ensures outcome.consumed <= |queue|
      ensures var runs := Runs(old(CurrentEnv()), queue);
        var s := Syncer(queue, runs, outcome.consumed, old(providerTo.files), maxAttempts);
        && providerTo.files == s.dest
        && taskHandler.events == old(taskHandler.events) + s.log
        && (outcome.Waiting? ==> outcome.consumed == |queue| && s.failures < maxRetries)
        && (outcome.Threw? ==> s.failures == (if maxRetries > 0 then maxRetries else 0) && outcome.error == s.last)
        && (outcome.Threw? && outcome.consumed > 0 ==> AppFailure(runs[outcome.consumed - 1]).Some?)
    {
      ghost var env := CurrentEnv();
      ghost var runs := Runs(env, queue);
      ghost var dest := providerTo.files;
      ghost var log := taskHandler.events;
      var retries := 0;
      var error: Option<Thrown> := None;
      var k := 0;
      ghost var s := Syncer(queue, runs, 0, dest, maxAttempts);
      while retries < maxRetries && k < |queue|
        invariant 0 <= k <= |queue|
        invariant CurrentEnv() == env
        invariant s == Syncer(queue, runs, k, dest, maxAttempts)
        invariant retries == s.failures && error == s.last
        invariant providerTo.files == s.dest && taskHandler.events == log + s.log
        invariant k > 0 && retries >= maxRetries ==> AppFailure(runs[k - 1]).Some?
        invariant k == 0 || retries <= maxRetries
      {
        var thrown;
        thrown, s := SyncTask(queue, k, runs, s, log);
        if thrown.Some? {
          error := thrown;
          retries := retries + 1;
        }
        k := k + 1;
      }
      if retries < maxRetries {
        outcome := Waiting(k);
      } else {
        outcome := Threw(error, k);
      }
    }

    /** One turn of `fileSyncer`'s loop, with the progress it adds to. */
    method SyncTask(queue: seq<Task>, k: nat, ghost runs: seq<Run>, ghost before: Progress, ghost log: seq<Event>)
      returns (thrown: Option<Thrown>, ghost after: Progress)
      requires Valid()
      requires AllResumable(queue) && k < |queue| && runs == Runs(CurrentEnv(), queue)
      requires providerTo.files == before.dest && taskHandler.events == log + before.log
      modifies providerTo, taskHandler
      ensures CurrentEnv() == old(CurrentEnv())
      ensures after == Step(before, queue[k], runs[k], maxAttempts)
      ensures providerTo.files == after.dest && taskHandler.events == log + after.log
      ensures thrown == AppFailure(runs[k])
      ensures after.failures == before.failures + (if thrown.Some? then 1 else 0)
      ensures after.last == if thrown.Some? then thrown else before.last
    {
      RunsAt(CurrentEnv(), queue, k);
      thrown := HandleTask(queue[k], runs[k]);
      after := Step(before, queue[k], runs[k], maxAttempts);
      AppendAssoc(log, before.log, TaskEvents(queue[k], runs[k], maxAttempts));
    }

    /**
     * One turn of `fileSyncer`'s loop: send a task's files and acknowledge
     * it if that returned normally; the `AppError` it rethrows is
     * returned instead of thrown.
     */
    method HandleTask(task: Task, ghost run: Run) returns (thrown: Option<Thrown>)
      requires Valid()
      requires Resumable(task) && run == TaskRun(CurrentEnv(), task)
      modifies providerTo, taskHandler
      ensures providerTo.faults == old(providerTo.faults)
      ensures providerTo.files == Post(old(providerTo.files), run.writes)
        && thrown == AppFailure(run)
        && taskHandler.events == old(taskHandler.events) + TaskEvents(task, run, maxAttempts)
    {
      thrown := SendFilesToCloudProvider(task);
      if thrown.None? {
        taskHandler.Ack(task.jobId, task.id);
      }
    }

    /**
     * `sendFilesToCloudProvider`: copy a task's files from its cursor on.
     * An `AppError` stops the copy at the failing file, writes that file's
     * index as the checkpoint, rejects a task and is rethrown; any other
     * failure also stops the copy but is swallowed.
     */
    method SendFilesToCloudProvider(task: Task) returns (thrown: Option<Thrown>)
      requires Valid()
      requires Resumable(task)
      modifies providerTo, taskHandler
      ensures providerTo.faults == old(providerTo.faults)
      ensures var run := TaskRun(old(CurrentEnv()), task);
        && providerTo.files == Post(old(providerTo.files), run.writes)
        && thrown == AppFailure(run)
        && taskHandler.events == old(taskHandler.events) + FailureEvents(task, run, maxAttempts)
    {
      var p := task.parameters;
      var start: nat := StartIndex(p);
      var index, failure := CopyFiles(p.paths, p.modelId, start);
      if failure.Some? && failure.value.AppError? {
        UpdateIndexError(task, index);
        RejectJobManager(failure.value, task);
        thrown := failure;
      } else {
        thrown := None;
      }
    }

    /**
     * The copy loop of `sendFilesToCloudProvider`: from `start` on, get each
     * file from the source and post it under its renamed key, stopping at
     * the first failure with `index` on the failing file.
     */
    method CopyFiles(paths: seq<string>, modelId: string, start: nat) returns (index: nat, failure: Option<Thrown>)
      requires Valid()
      modifies providerTo
      ensures providerTo.faults == old(providerTo.faults)
      ensures var run := Transfer(old(CurrentEnv()), paths, DestinationKeys(paths, modelId), start);
        && providerTo.files == Post(old(providerTo.files), run.writes)
        && index == run.index && failure == run.failure
    {
      ghost var env := CurrentEnv();
      ghost var keys := DestinationKeys(paths, modelId);
      ghost var run := Transfer(env, paths, keys, start);
      index := start;
      // `done` is what has been posted so far, `rest` the run still to come.
      ghost var done: seq<Write> := [];
      ghost var rest := run;
      failure := None;
      while index < |paths| && failure.None?
        invariant start <= index && (index <= |paths| || index == start)
        invariant CurrentEnv() == env
        invariant providerTo.files == Post(old(providerTo.files), done)
        invariant run == Run(rest.index, rest.failure, done + rest.writes)
        invariant failure.None? ==> rest == Transfer(env, paths, keys, index)
        invariant failure.Some? ==> rest == Run(index, failure, [])
        decreases |paths| - index, if failure.None? then 1 else 0
      {
        DestinationKeysAt(paths, modelId, index);
        TransferStep(env, paths, keys, index);
        var copied := CopyFile(paths[index], modelId, keys[index]);
        if copied.Err? {
          failure := Some(copied.error);
        } else {
          rest := Transfer(env, paths, keys, index + 1);
          PostSnoc(old(providerTo.files), done, copied.value);
          AppendAssoc(done, [copied.value], rest.writes);
          done := done + [copied.value];
          index := index + 1;
        }
      }
      assert done + rest.writes == done;
    }

    /**
     * One turn of the copy loop: get `filePath` from the source and post it
     * to the destination under `changeModelName(filePath, modelId)`.
     */
    method CopyFile(filePath: string, modelId: string, ghost key: string) returns (r: Result<Write, Thrown>)
      requires Valid() && key == ChangeModelName(filePath, modelId)
      modifies providerTo
      ensures providerTo.faults == old(providerTo.faults)
      ensures r == SyncFile(old(CurrentEnv()), filePath, key)
      ensures providerTo.files == if r.Ok? then old(providerTo.files)[r.value.key := r.value.data] else old(providerTo.files)
    {
      var data := providerFrom.GetFile(filePath);
      if data.Err? {
        return Err(data.error);
      }
      var newModelName := ChangeModelName(filePath, modelId);
      var posted := providerTo.PostFile(newModelName, data.value);
      if posted.Err? {
        return Err(posted.error);
      }
      return Ok(Write(newModelName, data.value));
    }

    /** `rejectJobManager`: reject, recoverable while `attempts < maxAttempts`. */
    method RejectJobManager(err: Thrown, task: Task)
      modifies taskHandler
      ensures taskHandler.events == old(taskHandler.events) + [RejectEvent(task, err, maxAttempts)]
    {
      var isRecoverable := task.attempts < maxAttempts;
      taskHandler.Reject(task.jobId, task.id, isRecoverable, err.message);
    }

    /** `updateIndexError`: the checkpoint update with a task's cursor set to `lastIndexError`. */
    method UpdateIndexError(task: Task, lastIndexError: int)
      modifies taskHandler
      ensures taskHandler.events == old(taskHandler.events) + [Update(task.jobId, task.id, CheckpointPayload(task.parameters, lastIndexError))]
    {
      taskHandler.UpdateTask(task.jobId, task.id, CheckpointPayload(task.parameters, lastIndexError));
    }
  }
}
