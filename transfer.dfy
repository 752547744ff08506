/**
 * One attempt at an ingestion task, as pure functions: which files the
 * engine copies, where it stops, what it writes to the destination and
 * which coordinator calls follow. `FileSync.FileSyncerManager` is proved to
 * behave exactly as these functions say.
 */
module TaskTransfer {
  import opened Wrappers
  import opened AppErrors
  import opened ModelPaths
  import opened Storage
  import opened Tasks
  import opened Coordinator

  /** What decides an attempt: the source's contents and both providers' failures. */
  datatype Env = Env(source: map<string, Bytes>, readFaults: map<string, Thrown>, writeFaults: map<string, Thrown>)

  /** One successful `postFile`. */
  datatype Write = Write(key: string, data: Bytes)

  /**
   * An attempt's result: the cursor where it stopped, the failure that
   * stopped it (none when it ran off the end) and its writes in order.
   */
  datatype Run = Run(index: nat, failure: Option<Thrown>, writes: seq<Write>)

  /**
   * The destination key of every path: `changeModelName(path, modelId)`,
   * which replaces the path's first segment with the model id.
   */
  function DestinationKeys(paths: seq<string>, modelId: string): (keys: seq<string>)
    ensures |keys| == |paths|
  {
    if paths == [] then [] else [ChangeModelName(paths[0], modelId)] + DestinationKeys(paths[1..], modelId)
  }

  /** The `k`-th key is the `k`-th path renamed, so it starts with the model id. */
  lemma {:induction false} DestinationKeysAt(paths: seq<string>, modelId: string, k: nat)
    requires k < |paths|
    ensures DestinationKeys(paths, modelId)[k] == ChangeModelName(paths[k], modelId)
    ensures |modelId| <= |DestinationKeys(paths, modelId)[k]|
    ensures DestinationKeys(paths, modelId)[k][..|modelId|] == modelId
  {
    if k > 0 {
      DestinationKeysAt(paths[1..], modelId, k - 1);
    }
  }

  /** One file: `getFile(path)`, then `postFile(key, data)`; the first failure wins. */
  function SyncFile(env: Env, path: string, key: string): (r: Result<Write, Thrown>)
    ensures r.Ok? <==> Read(env.source, env.readFaults, path).Ok? && key !in env.writeFaults
    ensures r.Ok? ==> r.value == Write(key, env.source[path])
    ensures r.Err? ==> r.error == if Read(env.source, env.readFaults, path).Err?
                                 then Read(env.source, env.readFaults, path).error else env.writeFaults[key]
  {
    match Read(env.source, env.readFaults, path)
    case Err(e) => Err(e)
    case Ok(data) => if key in env.writeFaults then Err(env.writeFaults[key]) else Ok(Write(key, data))
  }

  /**
   * The file loop from cursor `i`, posting `paths[k]` under `keys[k]`: files
   * are copied strictly in order, the cursor advances only past a copied
   * file, and the first failing file stops the loop with the cursor on it.
   */
  function Transfer(env: Env, paths: seq<string>, keys: seq<string>, i: nat): (r: Run)
    requires |keys| == |paths|
    decreases |paths| - i
    ensures i <= r.index
    ensures r.failure.None? ==> r.index == if i < |paths| then |paths| else i
    ensures r.failure.Some? ==> r.index < |paths| && SyncFile(env, paths[r.index], keys[r.index]) == Err(r.failure.value)
    ensures |r.writes| == r.index - i
  {
    if i >= |paths| then Run(i, None, [])
    else
      match SyncFile(env, paths[i], keys[i])
      case Err(e) => Run(i, Some(e), [])
      case Ok(w) =>
        var rest := Transfer(env, paths, keys, i + 1);
        Run(rest.index, rest.failure, [w] + rest.writes)
  }

  /** Every file before the stopping index was copied, and its write is the `k`-th. */
  lemma {:induction false} TransferWrites(env: Env, paths: seq<string>, keys: seq<string>, i: nat)
    requires |keys| == |paths|
    ensures var r := Transfer(env, paths, keys, i);
      forall k :: i <= k < r.index ==> SyncFile(env, paths[k], keys[k]) == Ok(r.writes[k - i])
    decreases |paths| - i
  {
    var r := Transfer(env, paths, keys, i);
    if i < |paths| && SyncFile(env, paths[i], keys[i]).Ok? {
      TransferWrites(env, paths, keys, i + 1);
      var rest := Transfer(env, paths, keys, i + 1);
      assert r.writes == [SyncFile(env, paths[i], keys[i]).value] + rest.writes;
      forall k | i < k < r.index ensures SyncFile(env, paths[k], keys[k]) == Ok(r.writes[k - i]) {
        assert r.writes[k - i] == rest.writes[k - (i + 1)];
      }
    }
  }

  /** The attempt `sendFilesToCloudProvider` makes for `task`. */
  function TaskRun(env: Env, task: Task): (r: Run)
    requires Resumable(task)
    ensures StartIndex(task.parameters) <= r.index
    ensures r.failure.None? ==> r.index == (if StartIndex(task.parameters) < |task.parameters.paths| then |task.parameters.paths| else StartIndex(task.parameters))
    ensures r.failure.Some? ==> r.index < |task.parameters.paths|
    ensures |r.writes| == r.index - StartIndex(task.parameters)
  {
    var p := task.parameters;
    Transfer(env, p.paths, DestinationKeys(p.paths, p.modelId), StartIndex(p))
  }

  /** The destination after `writes`, applied in order (a later write to a key wins). */
  function Post(dest: map<string, Bytes>, writes: seq<Write>): map<string, Bytes>
  {
    if writes == [] then dest
    else
      var last := writes[|writes| - 1];
      Post(dest, writes[..|writes| - 1])[last.key := last.data]
  }

  /** One more write lands on top of the earlier ones. */
  lemma PostSnoc(dest: map<string, Bytes>, writes: seq<Write>, w: Write)
    ensures Post(dest, writes + [w]) == Post(dest, writes)[w.key := w.data]
  {
    assert (writes + [w])[..|writes|] == writes;
  }

  /** One turn of the file loop. */
  lemma TransferStep(env: Env, paths: seq<string>, keys: seq<string>, i: nat)
    requires |keys| == |paths| && i < |paths|
    ensures SyncFile(env, paths[i], keys[i]).Err? ==>
      Transfer(env, paths, keys, i) == Run(i, Some(SyncFile(env, paths[i], keys[i]).error), [])
    ensures SyncFile(env, paths[i], keys[i]).Ok? ==>
      var rest := Transfer(env, paths, keys, i + 1);
      Transfer(env, paths, keys, i) == Run(rest.index, rest.failure, [SyncFile(env, paths[i], keys[i]).value] + rest.writes)
  {
  }

  /** The failure that `sendFilesToCloudProvider` rethrows: only an `AppError`. */
  function AppFailure(run: Run): (e: Option<Thrown>)
    ensures e.Some? <==> run.failure.Some? && run.failure.value.AppError?
    ensures e.Some? ==> e == run.failure
  {
    if run.failure.Some? && run.failure.value.AppError? then run.failure else None
  }

  /**
   * `updateIndexError`'s payload: in progress, and a task's parameters
   * with the cursor replaced.
   */
  function CheckpointPayload(p: TaskParameters, lastIndexError: int): (body: UpdateBody)
    ensures body.status == InProgress
    ensures body.parameters.paths == p.paths && body.parameters.modelId == p.modelId
    ensures body.parameters.lastIndexError == lastIndexError
  {
    UpdateBody(InProgress, p.(lastIndexError := lastIndexError))
  }

  /** `rejectJobManager`: recoverable while `attempts < maxAttempts`, the error's message as reason. */
  function RejectEvent(task: Task, error: Thrown, maxAttempts: int): (e: Event)
    ensures e.Reject? && e.jobId == task.jobId && e.taskId == task.id && e.reason == error.message
    ensures e.isRecoverable <==> task.attempts < maxAttempts
  {
    Event.Reject(task.jobId, task.id, task.attempts < maxAttempts, error.message)
  }

  /**
   * The coordinator calls of a failed attempt: nothing unless an `AppError`
   * stopped it; then the checkpoint at the stopping cursor, then the reject.
   */
  function FailureEvents(task: Task, run: Run, maxAttempts: int): (events: seq<Event>)
    ensures AppFailure(run).None? ==> events == []
    ensures AppFailure(run).Some? ==> events == [
      Update(task.jobId, task.id, CheckpointPayload(task.parameters, run.index)),
      RejectEvent(task, AppFailure(run).value, maxAttempts)]
  {
    match AppFailure(run)
    case None => []
    case Some(e) => [Update(task.jobId, task.id, CheckpointPayload(task.parameters, run.index)), RejectEvent(task, e, maxAttempts)]
  }

  // ----- Lemmas -----

  /** Applying writes in two batches is applying them at once. */
  lemma {:induction false} PostAppend(dest: map<string, Bytes>, first: seq<Write>, second: seq<Write>)
    ensures Post(Post(dest, first), second) == Post(dest, first + second)
    decreases |second|
  {
    if second != [] {
      var both := first + second;
      assert both[..|both| - 1] == first + second[..|second| - 1];
      assert both[|both| - 1] == second[|second| - 1];
      PostAppend(dest, first, second[..|second| - 1]);
    } else {
      assert first + second == first;
    }
  }

  /** A key no write touches keeps its presence and its contents. */
  lemma {:induction false} PostUnwritten(dest: map<string, Bytes>, writes: seq<Write>, key: string)
    ensures (exists j :: 0 <= j < |writes| && writes[j].key == key) || (key in dest <==> key in Post(dest, writes))
    ensures key in dest && (forall j :: 0 <= j < |writes| ==> writes[j].key != key) ==>
      key in Post(dest, writes) && Post(dest, writes)[key] == dest[key]
    decreases |writes|
  {
    if writes != [] {
      var n := |writes| - 1;
      var init := writes[..n];
      PostUnwritten(dest, init, key);
      forall j | 0 <= j < n ensures init[j] == writes[j] { }
    }
  }

  /** Every written key ends up in the destination with the data of its last write. */
  lemma {:induction false} PostLastWrite(dest: map<string, Bytes>, writes: seq<Write>, key: string)
    ensures forall j :: (0 <= j < |writes| && writes[j].key == key &&
      forall l :: j < l < |writes| ==> writes[l].key != key) ==> key in Post(dest, writes) && Post(dest, writes)[key] == writes[j].data
    decreases |writes|
  {
    if writes != [] {
      var n := |writes| - 1;
      var init := writes[..n];
      PostLastWrite(dest, init, key);
      forall j | 0 <= j < n ensures init[j] == writes[j] { }
    }
  }

  /**
   * Paths before the cursor are never read: an attempt from `i` depends only
   * on how the files at `i` and after behave.
   */
  lemma {:induction false} TransferIgnoresEarlierPaths(env1: Env, env2: Env, paths: seq<string>, keys: seq<string>, i: nat)
    requires |keys| == |paths|
    requires forall k :: i <= k < |paths| ==> SyncFile(env1, paths[k], keys[k]) == SyncFile(env2, paths[k], keys[k])
    ensures Transfer(env1, paths, keys, i) == Transfer(env2, paths, keys, i)
    decreases |paths| - i
  {
    if i < |paths| {
      TransferIgnoresEarlierPaths(env1, env2, paths, keys, i + 1);
    }
  }

  /**
   * No file after the stopping one is attempted: an attempt depends only on
   * how the files from `i` up to where it stops behave.
   */
  lemma {:induction false} TransferIgnoresLaterPaths(env1: Env, env2: Env, paths: seq<string>, keys: seq<string>, i: nat)
    requires |keys| == |paths|
    requires forall k :: i <= k <= Transfer(env1, paths, keys, i).index && k < |paths| ==>
      SyncFile(env1, paths[k], keys[k]) == SyncFile(env2, paths[k], keys[k])
    ensures Transfer(env1, paths, keys, i) == Transfer(env2, paths, keys, i)
    decreases |paths| - i
  {
    if i < |paths| && SyncFile(env1, paths[i], keys[i]).Ok? {
      TransferIgnoresLaterPaths(env1, env2, paths, keys, i + 1);
    }
  }

  /**
   * Resuming is as good as restarting: if an attempt from `i` stops at `j`,
   * then on any environment where the files in `[i, j)` still copy the same
   * way, an attempt from `i` writes what the first attempt wrote followed by
   * what an attempt from `j` writes, and ends where that one ends.
   */
  lemma {:induction false} TransferResume(env1: Env, env2: Env, paths: seq<string>, keys: seq<string>, i: nat)
    requires |keys| == |paths|
    requires forall k :: i <= k < Transfer(env1, paths, keys, i).index ==>
      SyncFile(env2, paths[k], keys[k]) == SyncFile(env1, paths[k], keys[k])
    ensures var r1 := Transfer(env1, paths, keys, i);
      var r2 := Transfer(env2, paths, keys, r1.index);
      Transfer(env2, paths, keys, i) == Run(r2.index, r2.failure, r1.writes + r2.writes)
    decreases |paths| - i
  {
    var r1 := Transfer(env1, paths, keys, i);
    TransferWrites(env1, paths, keys, i);
    if i < |paths| && r1.index > i {
      var w := SyncFile(env1, paths[i], keys[i]);
      assert w == Ok(r1.writes[0]);
      assert SyncFile(env2, paths[i], keys[i]) == w;
      var s1 := Transfer(env1, paths, keys, i + 1);
      assert r1 == Run(s1.index, s1.failure, [w.value] + s1.writes);
      TransferResume(env1, env2, paths, keys, i + 1);
      var r2 := Transfer(env2, paths, keys, s1.index);
      var t := Transfer(env2, paths, keys, i + 1);
      assert t == Run(r2.index, r2.failure, s1.writes + r2.writes);
      assert Transfer(env2, paths, keys, i) == Run(t.index, t.failure, [w.value] + t.writes);
      assert [w.value] + (s1.writes + r2.writes) == ([w.value] + s1.writes) + r2.writes;
    } else {
      assert r1.writes == [];
      assert [] + Transfer(env2, paths, keys, i).writes == Transfer(env2, paths, keys, i).writes;
    }
  }

  /**
   * The checkpoint written after a failed attempt makes the next attempt
   * start exactly at the failing file, with the same paths and model id.
   * On storage that has been repaired (every file now copies, and the files
   * that copied before copy the same way), what the failed attempt wrote
   * followed by what the resumed attempt writes is exactly what one
   * uninterrupted attempt would write, and the resumed attempt completes.
   */
  lemma ResumeFromCheckpoint(env1: Env, env2: Env, task: Task)
    requires Resumable(task)
    requires AppFailure(TaskRun(env1, task)).Some?
    requires var p := task.parameters; var keys := DestinationKeys(p.paths, p.modelId);
      forall k :: 0 <= k < |p.paths| ==> SyncFile(env2, p.paths[k], keys[k]).Ok?
    requires var p := task.parameters; var keys := DestinationKeys(p.paths, p.modelId);
      forall k :: 0 <= k < |p.paths| && SyncFile(env1, p.paths[k], keys[k]).Ok? ==>
        SyncFile(env2, p.paths[k], keys[k]) == SyncFile(env1, p.paths[k], keys[k])
    ensures var r1 := TaskRun(env1, task);
      var retry := task.(parameters := CheckpointPayload(task.parameters, r1.index).parameters);
      && StartIndex(retry.parameters) == r1.index
      && retry.parameters.paths == task.parameters.paths && retry.parameters.modelId == task.parameters.modelId
      && TaskRun(env2, retry).failure.None?
      && TaskRun(env2, task).writes == r1.writes + TaskRun(env2, retry).writes
  {
    var p := task.parameters;
    var keys := DestinationKeys(p.paths, p.modelId);
    TransferWrites(env1, p.paths, keys, StartIndex(p));
    TransferResume(env1, env2, p.paths, keys, StartIndex(p));
  }

  /**
   * An attempt that ran off the end has posted every file from its start
   * on, under its key, with the data of the last file posted to that key.
   */
  lemma CompletedRunPostsAll(env: Env, dest: map<string, Bytes>, paths: seq<string>, keys: seq<string>, i: nat, k: nat)
    requires |keys| == |paths|
    requires Transfer(env, paths, keys, i).failure.None?
    requires i <= k < |paths|
    requires forall l :: k < l < |paths| ==> keys[l] != keys[k]
    ensures var posted := Post(dest, Transfer(env, paths, keys, i).writes);
      paths[k] in env.source && keys[k] in posted && posted[keys[k]] == env.source[paths[k]]
  {
    var r := Transfer(env, paths, keys, i);
    TransferWrites(env, paths, keys, i);
    assert SyncFile(env, paths[k], keys[k]) == Ok(r.writes[k - i]);
    forall l | k - i < l < |r.writes| ensures r.writes[l].key != keys[k] {
      assert SyncFile(env, paths[l + i], keys[l + i]) == Ok(r.writes[l + i - i]);
    }
    PostLastWrite(dest, r.writes, keys[k]);
  }

  /** The recoverability threshold at its boundary. */
  lemma RecoverableBoundary(task: Task, error: Thrown, maxAttempts: int)
    ensures RejectEvent(task.(attempts := maxAttempts - 1), error, maxAttempts).isRecoverable
    ensures !RejectEvent(task.(attempts := maxAttempts), error, maxAttempts).isRecoverable
    ensures !RejectEvent(task.(attempts := maxAttempts + 1), error, maxAttempts).isRecoverable
  {
  }
}
