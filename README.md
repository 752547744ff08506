# file-syncer: the file-transfer task engine in Dafny

This project models the core of MapColonies/file-syncer. That core is a worker that takes ingestion tasks from a job coordinator and copies each task's files from a source storage provider to a destination provider.

A task carries three things:
- a list of object paths;
- a `modelId`;
- a resume cursor `lastIndexError`.

`sendFilesToCloudProvider` copies the files in order from the cursor on. Each file is read from the source. It is then posted to the destination under its path with the first `/`-segment replaced by the model id (`changeModelName`). When an `AppError` stops the copy, the engine does three things in order:
- it writes the failing file's index back to the coordinator as the new cursor;
- it rejects that task, as recoverable while `attempts < maxAttempts`;
- it rethrows the error.

`fileSyncer` is the outer loop. It acknowledges a task whose copy returned normally. It counts the tasks an `AppError` stopped, and throws the last such error once `maxRetries` of them have failed.

Around the engine, the model covers:
- the HTTP error classes and their status mapping;
- the error handler's trusted/critical decision;
- the two case-insensitive provider factories.

Modules, one per concern:

- `Wrappers`: `Option` and `Result`, used where the source throws.
- `AppErrors`: what the engine and the common provider factory throw. The `AppError` class they import (from `src/common/appError`) is not part of this model's sources. It is represented by its constructor arguments (status, message, trust flag). Every other JavaScript error is `PlainError`, so `instanceof AppError` becomes a constructor test.
- `ModelPaths`: `changeModelName`, with JavaScript's `split('/')` and `join('/')`.
- `ErrorTypes`, `ErrorHandler`: src/common/errors.
- `ProviderTags`, `CommonGetProvider`, `RootGetProvider`: the provider factories.
- `Storage`: a provider as a class holding a map from path to bytes, plus the paths on which its backend throws.
- `Tasks`, `Coordinator`: the record of one task. The coordinator (`TaskHandler` and its job-manager client) is a class that keeps the log of the calls made on it.
- `TaskTransfer`: one attempt at a task as pure functions. `Transfer` says which files are copied, where the copy stops, what is written and which coordinator calls follow. The lemmas state the checkpoint and resume properties.
- `FileSync`: the class `FileSyncerManager`. Its methods run the same loops as the source over the provider and coordinator objects, and each is proved against the functions above. `Syncer` specifies the outer loop task by task.

## Model

| member | source | states |
|---|---|---|
| ModelPaths.Split | src/common/utils.ts:8 | `split('/')` always yields at least one segment (the empty string gives one empty segment); `SplitSound` and `SplitJoin` characterise the segments |
| ModelPaths.Join | src/common/utils.ts:10 | `join('/')` starts with the first segment; `SplitJoin` makes it the inverse of `Split` on slash-free segments |
| ModelPaths.SplitSound | src/common/utils.ts:8 | the segments of `split('/')` contain no '/', and joining them with '/' gives back the original string |
| ModelPaths.SplitJoin | src/common/utils.ts:8-10 | splitting a '/'-join of slash-free segments gives back exactly those segments, so `split` is the unique inverse of `join` |
| ModelPaths.ChangeModelName | src/common/utils.ts:7-11 | the rewritten path starts with the new name |
| ModelPaths.ChangeModelNameSegments | src/common/utils.ts:8-10 | for a slash-free new name, the result's segments are the new name followed by the old path's later segments, unchanged and in order |
| ModelPaths.ChangeModelNameNoSlash | src/common/utils.ts:8-10 | a path without '/' (the empty path included) becomes exactly the new name |
| ModelPaths.ChangeModelNameSuffix | src/fileSyncerManager/fileSyncerManager.ts:93-97 | when the path has a '/' and the first is at k, the result is the new name followed by the path from position k on |
| ModelPaths.ChangeModelNameIdempotent | src/common/utils.ts:7-11 | with a slash-free new name, rewriting twice equals rewriting once |
| ModelPaths.ChangeModelNameExample | src/common/utils.ts:7-11 | "model/path" renamed with "newName" is "newName/path" |
| ErrorTypes.NewAppError | src/common/errors/error-types.ts:3-7 | the error keeps its name and message, and `isTrusted` defaults to true |
| ErrorTypes.InvalidInputError | src/common/errors/error-types.ts:9-13 | fixed name "Invalid Input Error", always trusted |
| ErrorTypes.ResourceNotFoundError | src/common/errors/error-types.ts:15-19 | fixed name "Resource not Found Error", always trusted |
| ErrorTypes.ResourceExistsError | src/common/errors/error-types.ts:21-25 | fixed name "Resource Already Exists Error", always trusted |
| ErrorTypes.DBConnectionError | src/common/errors/error-types.ts:27-31 | fixed name "DB Connection Error", with the caller's trust flag |
| ErrorTypes.HttpErrorCodeMapper | src/common/errors/error-types.ts:33-42 | the status is one of 400, 404 and 500: 400 exactly for the invalid-input class, 404 exactly for the not-found class |
| ErrorTypes.MapperIgnoresNameAndMessage | src/common/errors/error-types.ts:33-42 | the status depends on the class only: a base `AppError` named like a subclass still maps to 500 |
| ErrorTypes.SubclassStatuses | src/common/errors/error-types.ts:34-41 | invalid input maps to 400, not found to 404, and resource-exists and DB-connection errors to 500 |
| ErrorHandler.IsTrustedError | src/common/errors/error-handler.ts:60-65 | trusted exactly when the error is an `AppError` whose `isTrusted` is set |
| ErrorHandler.HandleTrustedError | src/common/errors/error-handler.ts:48-51 | status is the mapper's status and the body is the error's own message |
| ErrorHandler.HandleCriticalError | src/common/errors/error-handler.ts:53-58 | a response is written exactly when one exists, and it is 500 "Internal server error" |
| ErrorHandler.HandleError | src/common/errors/error-handler.ts:40-46 | the trusted branch is taken exactly when the error is trusted; otherwise the critical branch writes the generic 500 |
| ErrorHandler.HandleErrorStatus | src/common/errors/error-handler.ts:40-65 | a response is always written; 400 and 404 answer only trusted invalid-input and not-found errors; every untrusted error gets the generic 500 |
| ProviderTags.Lower | src/common/providers/getProvider.ts:13 | the model's ASCII lower-casing: the same length, with each ASCII capital replaced by its lower-case letter and every other character kept |
| ProviderTags.ParseKind | src/common/providers/getProvider.ts:13-18 | a tag selects NFS only when it has three characters and S3 only when it has two; it selects nothing exactly when its lower-cased form is neither "nfs" nor "s3" (`ParseKindNfs` and `ParseKindS3` give the exact spellings) |
| ProviderTags.ParseKindNfs | src/common/providers/getProvider.ts:13-15 | NFS is selected exactly by the three-letter spellings of "nfs" in any casing |
| ProviderTags.ParseKindS3 | src/common/providers/getProvider.ts:13-17 | S3 is selected exactly by "s3" and "S3" |
| ProviderTags.ParseKindLower | src/getProvider.ts:8 | the decision depends on the lower-cased tag only |
| ProviderTags.InvalidProviderMessage | src/common/providers/getProvider.ts:19 | the error text contains the received string and the allowed values "nfs" and "s3" |
| CommonGetProvider.GetProvider | src/common/providers/getProvider.ts:12-21 | a known tag yields its provider; any other string yields a non-trusted `AppError` with status 500 whose message names the input and both allowed values |
| CommonGetProvider.GetProviderConfig | src/common/providers/getProvider.ts:23-29 | the stored configuration when the key exists, otherwise the same non-trusted 500 error |
| CommonGetProvider.GetProviderIgnoresCase | src/common/providers/getProvider.ts:13-17 | any casing selects what the lower-case tag selects; "NFS", "nFs" and "S3" select their providers |
| RootGetProvider.GetProvider | src/getProvider.ts:7-16 | a known tag yields its provider; any other string yields a plain error (not an `AppError`) naming the input |
| RootGetProvider.GetProviderIgnoresCase | src/getProvider.ts:8-14 | any casing selects what the lower-case tag selects; "ftp" is rejected |
| Storage.MissingFile | src/common/providers/nfsProvider.ts:20-22 | the file-system provider's error for an absent path: a trusted `AppError` with status 400 whose message is "File " followed by the path |
| Storage.Read | src/common/providers/nfsProvider.ts:17-29 | a read succeeds exactly when the backend holds the path and does not throw for it; an absent path throws the trusted 400 "doesn't exists" error, checked before any I/O, so a failure registered for it never shows; a held path on which the backend throws gives that failure |
| Storage.Provider.GetFile | src/common/interfaces.ts:56-57 | `getFile` returns what `Read` says and changes nothing |
| Storage.Provider.PostFile | src/common/interfaces.ts:58 | `postFile` creates or overwrites exactly the one path, or throws and changes nothing |
| Tasks.StartIndex | src/fileSyncerManager/fileSyncerManager.ts:59 | the cursor -1 means the first file (index 0); any other cursor is the start itself; a valid cursor gives a start that is never negative |
| Coordinator.TaskHandler.UpdateTask | src/fileSyncerManager/fileSyncerManager.ts:90 | appends one update call to the log |
| Coordinator.TaskHandler.Reject | src/fileSyncerManager/fileSyncerManager.ts:82 | appends one reject call to the log |
| Coordinator.TaskHandler.Ack | src/fileSyncerManager/fileSyncerManager.ts:40 | appends one ack call to the log |
| TaskTransfer.DestinationKeysAt | src/fileSyncerManager/fileSyncerManager.ts:64-66 | the k-th destination key is the k-th path renamed, and it starts with the model id |
| TaskTransfer.SyncFile | src/fileSyncerManager/fileSyncerManager.ts:64-68 | one file succeeds exactly when the read succeeds and the post does not throw; the read's failure wins over the post's |
| TaskTransfer.Transfer | src/fileSyncerManager/fileSyncerManager.ts:59-77 | the copy never moves before its start; it stops with no failure only at the end of the paths; when something failed, the cursor is on a file whose copy fails with that error; one write per copied file |
| TaskTransfer.TaskRun | src/fileSyncerManager/fileSyncerManager.ts:59-70 | a task's attempt starts at its cursor (`startPosition`) and never moves before it; with no failure it ends at the last path (or stays at a cursor already past it); a failure leaves the cursor on one of the task's paths; one write per file copied from the cursor on |
| TaskTransfer.TransferWrites | src/fileSyncerManager/fileSyncerManager.ts:63-70 | every file between the start and the stopping cursor was copied, and its write is the corresponding one, in order |
| TaskTransfer.AppFailure | src/fileSyncerManager/fileSyncerManager.ts:71-77 | the rethrown failure is there exactly when an `AppError` stopped the copy, and is that error |
| TaskTransfer.CheckpointPayload | src/fileSyncerManager/fileSyncerManager.ts:85-90 | status in progress; the old parameters with only `lastIndexError` replaced |
| TaskTransfer.RejectEvent | src/fileSyncerManager/fileSyncerManager.ts:80-83 | the ids of the rejected task, the error's message as reason, recoverable exactly when `attempts < maxAttempts` |
| TaskTransfer.FailureEvents | src/fileSyncerManager/fileSyncerManager.ts:71-75 | no coordinator call unless an `AppError` stopped the copy; then the checkpoint at the failing index, then the reject |
| TaskTransfer.PostAppend | src/fileSyncerManager/fileSyncerManager.ts:68 | posting writes in two batches equals posting them at once |
| TaskTransfer.Post | src/fileSyncerManager/fileSyncerManager.ts:63-69 | the destination after the loop's `postFile` calls in order; `PostAppend`, `PostLastWrite` and `PostUnwritten` characterise it |
| TaskTransfer.PostLastWrite | src/fileSyncerManager/fileSyncerManager.ts:68 | a written key holds the data of its last write |
| TaskTransfer.PostUnwritten | src/fileSyncerManager/fileSyncerManager.ts:68 | a key no write touches keeps its presence and its contents |
| TaskTransfer.TransferIgnoresEarlierPaths | src/fileSyncerManager/fileSyncerManager.ts:59-64 | files before the cursor are never read: the attempt depends only on files from the cursor on |
| TaskTransfer.TransferIgnoresLaterPaths | src/fileSyncerManager/fileSyncerManager.ts:63-75 | no file after the failing one is attempted: the attempt depends only on files up to where it stops |
| TaskTransfer.TransferResume | src/fileSyncerManager/fileSyncerManager.ts:59-70 | an attempt from i equals the copied prefix up to where an earlier attempt stopped, followed by an attempt from there |
| TaskTransfer.ResumeFromCheckpoint | src/fileSyncerManager/fileSyncerManager.ts:59-75 | the retried task starts exactly at the failing file with the same paths and model id; on repaired storage it completes, and the failed attempt's writes plus the retry's equal one uninterrupted attempt |
| TaskTransfer.CompletedRunPostsAll | src/fileSyncerManager/fileSyncerManager.ts:63-70 | after a completed attempt every file from the start on is in the destination under its key, with the source's data unless a later file has the same key |
| TaskTransfer.RecoverableBoundary | src/fileSyncerManager/fileSyncerManager.ts:81 | the reject is recoverable at `maxAttempts - 1` attempts and not at `maxAttempts` or more |
| FileSync.TaskEvents | src/fileSyncerManager/fileSyncerManager.ts:36-45 | a task is acknowledged exactly when no `AppError` stopped it; a failed task gets only its checkpoint and reject |
| FileSync.Syncer | src/fileSyncerManager/fileSyncerManager.ts:31-50 | a fold of one `Step` per task taken; after n tasks at most n have been counted as failures. `SyncerFailures`, `SyncerLast` and `SyncerLogLength` give what the fold means |
| FileSync.CountFailures | src/fileSyncerManager/fileSyncerManager.ts:42-45 | the number of `AppError`-stopped runs among the first n is at most n |
| FileSync.SyncerFailures | src/fileSyncerManager/fileSyncerManager.ts:41-46 | `retries` counts exactly the tasks an `AppError` stopped, and the error to throw is present exactly when one did and is an `AppError` |
| FileSync.SyncerLogLength | src/fileSyncerManager/fileSyncerManager.ts:38-45 | each task leaves one coordinator call when acknowledged and two when it failed |
| FileSync.SyncerLast | src/fileSyncerManager/fileSyncerManager.ts:42-43 | the error kept is the failure of the latest task that failed |
| FileSync.CountFailuresGrows | src/fileSyncerManager/fileSyncerManager.ts:31-49 | the failure count is never reset: later tasks never lower it |
| FileSync.SwallowedFailureIsAcknowledged | src/fileSyncerManager/fileSyncerManager.ts:71-77 | a failure other than an `AppError` gets no checkpoint and no reject; a task is acknowledged although its copy stopped before the last file |
| FileSync.FileSyncerManager.constructor | src/fileSyncerManager/fileSyncerManager.ts:17-28 | keeps the coordinator, both providers and both limits |
| FileSync.FileSyncerManager.FileSyncer | src/fileSyncerManager/fileSyncerManager.ts:30-54 | the destination and the coordinator log are what `Syncer` says for the tasks taken; the loop waits only after all tasks, with fewer than `maxRetries` failures; it throws after exactly `maxRetries` failures (none when `maxRetries <= 0`) and throws the last one, which stopped the last task taken |
| FileSync.FileSyncerManager.SyncTask | src/fileSyncerManager/fileSyncerManager.ts:35-48 | one turn of the loop adds one `Step` and increments `retries` exactly on a rethrown error |
| FileSync.FileSyncerManager.HandleTask | src/fileSyncerManager/fileSyncerManager.ts:36-40 | the attempt's writes land in the destination; the ack follows only a normal return |
| FileSync.FileSyncerManager.SendFilesToCloudProvider | src/fileSyncerManager/fileSyncerManager.ts:56-78 | the destination gets exactly the attempt's writes; only an `AppError` is rethrown, after its checkpoint and reject |
| FileSync.FileSyncerManager.CopyFiles | src/fileSyncerManager/fileSyncerManager.ts:61-70 | the copy loop stops where `Transfer` stops, with its failure, having posted exactly its writes |
| FileSync.FileSyncerManager.CopyFile | src/fileSyncerManager/fileSyncerManager.ts:64-68 | one file is read and posted under its renamed key as `SyncFile` says; the destination changes only there |
| FileSync.FileSyncerManager.RejectJobManager | src/fileSyncerManager/fileSyncerManager.ts:80-83 | exactly one reject call, recoverable while `attempts < maxAttempts` |
| FileSync.FileSyncerManager.UpdateIndexError | src/fileSyncerManager/fileSyncerManager.ts:85-91 | exactly one update call carrying the checkpoint payload |

## Left out

- Pool/back-pressure handling, delete tasks, the cleanup update after an ack, and `start()`. The tests assert them, but no implementation of them appears in the engine's source.
- The concrete NFS and S3 providers. Each is replaced by a map from path to bytes plus a map of the paths on which its backend throws, and what it throws.
- Storage.Read: every provider reports an absent path with the file-system provider's trusted 400 error, checked before the backend is touched; the S3 provider's own error text and status for a missing object are not modelled.
- The job-manager client behind `TaskHandler`. The coordinator is the log of the calls made on it. Those calls never fail in the model; in the source an exception from `updateTask`, `reject` or `ack` would reach `fileSyncer`'s catch.
- `waitForTask`: the tasks it would hand out are the `queue` parameter of `FileSyncer`. When the queue is used up, the source would wait forever; the model returns `Waiting`.
- `sleep`/`waitTime` and all logging: no effect on the modelled state.
- FileSync.FileSyncerManager.FileSyncer requires every queued task's `lastIndexError` to be at least -1, and SendFilesToCloudProvider requires it of its task. A smaller cursor makes the source index `paths` with a negative number, which yields `undefined`, and what a provider does with that is outside the model.
- FileSync.FileSyncerManager.FileSyncer: the source's contents and both providers' failures are fixed for a whole run, since all its attempts are taken from one environment. A task that comes back in the queue therefore fails again at the same file: a failure that goes away between two attempts is not modelled at the loop level. Only TaskTransfer.ResumeFromCheckpoint relates a failed attempt to a retry in a second, repaired environment.
- FileSync.FileSyncerManager.CopyFiles, CopyFile, HandleTask and SyncTask split the two source loops into one method per turn. Each one's contract is the corresponding piece of the source's behaviour.
- ProviderTags.Lower, ProviderTags.LowerChar: only ASCII letters are lower-cased; JavaScript's `toLowerCase` maps the whole Unicode range, which can also change a string's length, and that is not modelled.
- CommonGetProvider.GetProviderConfig: `config.get`'s dotted-path lookup and its defaults are a single map lookup.
- Which provider object the factories build, and the NFS/S3 configuration contents they pass; the result is the provider's kind.
- src/providers/getProvider.ts: its configuration test is a stub that returns `123`, so its dispatch is not meaningful.
- Unhandled-exception/signal listeners and `exit` in the error handler; the logger call in `handleCriticalError`.
- The workerManager's unawaited parallel copies: concurrency, outside this sequential model.
