# Verified model of the web-downloader task engine

This project models the engine of the web-downloader server in Dafny and proves that it keeps its
promises. The engine has three layers.

**Durable task store.** `FileTaskStore` holds tasks in memory. Before each change it appends a batch
of events to a write-ahead log, and now and then it writes the whole map into a snapshot file and
starts a new log. A restart rebuilds the map by replaying the log over the snapshot. Replay is not a
copy: it ignores sizes of zero and empty names, recomputes task statuses and only moves `UpdatedAt`
forward, so that it recovers the map rests on invariants of the layer above.

**Task service.** `CreateTask` and the four `Mark...` calls change one file of a private copy of a
task, derive the task's status, store one to three events and publish the copy in a cache. Over a
database store the same calls run without a cache.

**Dispatch.** `Enqueue` submits waiting files to a bounded pool and marks them queued *after* that, so
a worker may have started or finished a file by then. A worker downloads with retries and makes one
last mark.

The main results:

- **Crash-safe snapshots.** At every step of a snapshot, and after every early return, what is on disk
  rebuilds the map (`SnapshotKeepsMap`, `FlushSnapshot`). The core is that replaying a log over a map
  that already contains it changes nothing (`DoubleReplay`), although intermediate statuses and times
  differ. Without any assumption on the clock a second replay changes nothing but `UpdatedAt`, and
  `DoubleReplayIff` says exactly when not that.
- **Any faults.** Over any mixture of attempts to log a batch and to take a snapshot, with write errors,
  cancelled flushes, device limits and steps that fail, disk and buffer hold the last snapshot put in place and
  a prefix of every batch attempted since, all of every one acknowledged through an open log
  (`EveryMixtureKeepsItsBook`); a restart rebuilds exactly what those make (`AnyMixtureRecovers`), also after a
  crash inside any of these operations (`CrashRecovers`). A rejected call may so become durable, even after a
  snapshot without it (`RejectedCallComesBack`).
- **Whole lives.** Over any list of requests, snapshots and restarts, with contexts that end, appends cut short,
  flushes and snapshots that fail anywhere, the program does what a small machine on values does, with cache
  and store always equal (`Live`). On that machine memory and disk agree whenever the log is open or missing
  (`OrderlyLifeAgrees`), unless the clock steps back, a rejected call leaves part of its lines, or a snapshot
  leaves a stale log. A call rejected half-way, or a crash inside a call, changes at most what that call
  changes (`TraceIsPartOfCall`, `CrashInCall`).
- **Torn logs.** Any byte prefix of a log reads back as exactly the events whose text survived
  (`TornTail`), on a concrete JSON printer and parser; a whole log reads back exactly if every line is
  within the scan limit (`ReadsBackIff`); and what any next line does to the reading is said for each kind of
  line (`NextLine`).
- **What a call means.** From the call and the old tasks alone: which calls are turned down and why, every field
  a creation or a mark writes, and its events (`MarkAnswers`, `CreateWrites`, `MarkWrites`, `MarkLogs`). Over any
  run a completed file has the name and size of the one completed mark that went through on it
  (`CompletedOnce`).
- **Concurrency.** Under every interleaving of concurrent calls, with snapshots that fail anywhere and faults
  that leave traces, the service behaves like a sequential run in the order of the answers, and while no
  fault has left a trace the log rebuilds the store (`EveryInterleavingIsSequential`, `TidyRecovers`). A mark
  reads the clock before it gets to the store, so it may be logged with an older time than a creation before
  it; the log still rebuilds the store (`LateMarkOnDisk`).
- **Dispatch.** Under every interleaving of dispatchers and workers no file is orphaned
  (`AtRestNoFileIsBusy`) and none ever goes back (`FilesOnlyMoveForward`); every run of Enqueue submits
  exactly the files it should (`EveryEnqueueIsExact`), and the next one exactly those an earlier one
  wanted that have not been submitted since (`NextEnqueueTakesTheRest`). The pool hands jobs out in the order in
  which it accepted them (`FirstInFirstOut`).
- **Jobs.** How many downloads a job begins, when it is given up and with which error is a closed form of the
  world around it (`WhyGivenUp`); what it returns and what its last mark records follow (`LastMarkSays`).
- **Both kinds of service**, driven with the same calls, hold the same tasks after each and give the same
  answers but to a Mark call on an unknown id (`CallBoth`).

Where the program does not do what one would expect, the exact condition is proved:

- An acknowledged update that changes a task survives a restart exactly if the log was open: a snapshot
  whose log failed to close leaves a log that acknowledges everything and stores nothing
  (`SurvivesIffLogOpen`, `ForgottenAfterFailedClose`). Until the next snapshot is put in place a restart finds
  the tasks of the failed close (`SinceFailedClose`); one that also gets the old log out of the way mends
  this (`PlacedMendsUnlessStale`).
- If that next snapshot cannot move the old log away, a restart replays the old log over newer tasks. It takes
  every part of every file from the disk as it was before if the log creates the task or writes the part, and
  from memory otherwise (`StaleLogDecides`); so it gives a file back exactly if those parts are the same
  (`GivesFileBackIff`), and an acknowledged completion is undone exactly if the log creates the task or sets
  the file's status (`CompletionIsUndoneIff`). A finished download can be waiting again
  (`StaleLogUndoesACompletion`), or downloading with its final size, which breaks the invariant replay
  rests on and which no dispatcher ever picks up again (`StaleLogLosesACompletion`).
- After a crash inside a line the program goes on appending to the log as it is. Records appended then are read
  back exactly if the crash left whole lines (`AppendedIsReadIff`); otherwise neither the torn line nor anything
  behind it is ever read again, and a new process acknowledges updates that the next restart does not find
  (`AppendToCut`, `ForgottenAfterTear`).
- A call whose line reaches the scan limit is acknowledged and keeps every later restart from loading; a call
  leaves the store restartable exactly if its lines fit (`LongLineStopsRestart`, `CallKeepsReady`). With the
  program's own encoding one long error message is enough (`OneLongMessageEndsIt`).
- When the clock steps back, `UpdatedAt` recovers exactly if the task's status changed
  (`EventsRecoverCallIff`), and a log the service wrote can turn `UpdatedAt` back when replayed twice
  (`SecondReplayTurnsTimeBack`).
- With a working store, and other workers changing the tasks meanwhile, a job's file stays in downloading
  exactly if the failed mark still finds it downloading and its context is over by the last of the looks at it
  that the mark then needs (`LastMarkDecides`). How many those are depends on the task's other files, so another
  worker can decide it (`OthersDecide`).
- Files left queued or downloading when everything has come to rest are exactly those whose last job was
  dropped or whose last mark failed, and they stay so in every continuation (`BusyAtRestIffLost`,
  `BusyAtRestForGood`).
- `Stop` drains the pool exactly if `Start` had spawned a worker by then or nothing was accepted
  (`StopReturnsWhenDrained`).

Modules follow the program's packages. `Core`, `Records`, `Replay`, `Urls`, `Calls`, `FileStates` and `Runs` are
the specification on values, `CallLaws` says what it means for a caller, and `ClockStepsBack` is a case study on it; `Objects`, `Sorting`, `FileLogs`,
`FileTaskStores`, `BoltTaskStores`, `TaskServices`, `BoltTaskServices`, `Lifetimes`, `DownloadManagers` and
`Downloaders` are the program's mutable objects, proved against it; `Recovery` and `SnapshotSteps` say what
the states of the disk mean, `AnyFaults` what any mixture of operations makes of them, and `StaleLogs`,
`LongLines` and `TornAppends` (with `JsonTears`) how lives go wrong; `Interleavings`, `Dispatching` (with `Submissions` and `Orphans` over it) and
`Pools` are state machines for what runs concurrently; `Json`, `Wal` and `EventCodecs` hold the text of the log.
`Disks` is the abstract disk: it remembers every state a crash could leave. What the outside world
decides enters as parameters: which step of a snapshot fails, when a context ends, how many bytes the
device takes, what a download attempt returns, what the clock says, what others do between two steps.

The program's comment on `AppendOnlyLog` promises durability of appended events
(internal/storage/wal/wal.go:15-17); `Append` and `Flush` on a closed log return no error and store
nothing (lines 70-72 and 94-96), and the model follows the code. After a snapshot that failed the server
logs the error and goes on with the same service (cmd/server/main.go:190-193), and so does `Live`.

`dafny verify dfyconfig.toml` checks everything.

## Model

| member | source | states |
|---|---|---|
| Core.StatusIgnoresOrder | internal/core/status.go:30-69 | A task's status depends only on how often each file status occurs. |
| Core.FinalStatusMeansAllFinished | internal/core/status.go:30-69 | A task status is final iff every file is finished, pending iff there are files and all wait, completed iff all are completed, failed iff there are files and all failed, partially completed iff all are finished and both kinds of end occur, in progress in every other case. |
| Objects.TaskObject.ObtainStatus | internal/core/status.go:30-69 | The counting loop and its branches compute the status that the quantified definition gives, for every list of files. |
| Objects.TaskObject.UpdateStatus | internal/core/task.go:35-41 | In place: status and, if it changed, UpdatedAt; nothing else of the task. |
| Objects.TaskObject.CloneTask | internal/core/task.go:43-60 | The clone has equal contents and consists of new objects only. |
| Objects.TaskObject.ApplyInPlace | internal/storage/file_task_store.go:227-276 | One replayed event changes the task object as the specification's ApplyToTask says: conditional size, name and time, out-of-range indexes ignored. |
| Objects.PutKeepsSeparate | internal/storage/file_task_store.go:70 | Storing a task whose objects are all foreign to the map keeps the stored tasks pairwise disjoint. |
| Objects.ApplyEvents | internal/storage/file_task_store.go:216-282 | Replaying a log over task objects gives the fold of ApplyEvent, fails exactly on an unreadable event, and keeps tasks disjoint. |
| Objects.Rebuild | internal/storage/file_task_store.go:101-122 | Snapshot tasks, then the log, in new objects. |
| Replay.LastTaskWins | internal/storage/file_task_store.go:108-113 | Of the tasks of a snapshot with one id the last is loaded. |
| Replay.ReplayIsLocal | internal/storage/file_task_store.go:216-282 | What becomes of one task id depends only on the task stored under it and the events that concern it. |
| Replay.DoubleReplay | internal/storage/file_task_store.go:216-282 | If no task's events step back in time and each base task is not newer than its last touching event, replaying a log twice equals replaying it once, in every field, and stays so. |
| Replay.DoubleReplayIff | internal/storage/file_task_store.go:216-282 | For every log and base, with no assumption on the clock: a second replay changes no task but for UpdatedAt, and not that iff every task's time repeats. |
| Replay.RepeatsInOrder | internal/storage/file_task_store.go:239-258 | For a log in order the time of a task repeats iff the task is not newer than its last touching event, or the first replay sets the time in any case, or the second does not. |
| Replay.StatusEventRepeats | internal/storage/file_task_store.go:229-236 | An ordered log that holds a task-status event of the task repeats its time, whatever the base. |
| Replay.PartAgrees | internal/storage/file_task_store.go:237-272 | Two replays of one log over different tasks: a part of a file that some event writes comes out the same, one that none writes stays as it was in each. |
| ClockStepsBack.SecondReplayTurnsTimeBack | internal/storage/file_task_store.go:252-258 | After a snapshot at u the clock steps back and the service writes three calls: the first replay of its log, which is in order, keeps u, and the second leaves the older time. |
| Urls.NormalizeUrls | internal/service/service.go:767-790 | The one-pass clean-up with a seen-set yields the distinct trimmed URLs in first-occurrence order, or the error for none or an empty one. |
| Urls.NormalizeIsIdempotent | internal/service/service.go:767-790 | A cleaned list is non-empty, free of duplicates and padding, holds exactly the trimmed inputs, and is left alone by a second clean-up. |
| Urls.NormalizeAnswers | internal/service/service.go:767-790 | A list of URLs is turned down iff it is empty or has a blank entry; otherwise the cleaned list holds the trimmed entries in the order in which each stands there first. |
| Urls.TrimTakesOff | internal/service/service.go:778 | Trimming takes off white space at both ends, all of it and nothing else. |
| Urls.SpacesOfLatin1 | internal/service/service.go:778 | Which characters of Latin-1 are white space. |
| CallLaws.MarkAnswers | internal/service/service.go:206-308 | A Mark call is turned down for a negative size, an unknown task, an index out of range, a completed file, in this order, and otherwise answers with the task; a queue mark on a busy or finished file is the only other one that changes nothing. |
| CallLaws.CreateAnswers | internal/service/service.go:99-140 | A creation is turned down iff its URLs are or its id is known. |
| CallLaws.CreateWrites | internal/core/task.go:20-33 | A new task lists the cleaned URLs in order with one waiting, empty file for each, is pending, and carries the time of the call twice; no other task changes; its event holds it. |
| CallLaws.MarkWrites | internal/service/service.go:447-461 | Field by field, for each mark that goes through: status, trimmed name and size of a completion, empty or trimmed error, start time (new for a start, kept or set for an end, left by a queue mark), end time; the task status that follows and the time of the call; every other file, field and task untouched. |
| CallLaws.MarkLogs | internal/service/service.go:661-715 | Its one to three events in order, with version, task, time and payload taken from the file as it now is, the task-status event iff the task status has changed. |
| CallLaws.EventWrites | internal/storage/file_task_store.go:216-282 | What each kind of replayed event writes, field by field, and what it leaves alone. |
| CallLaws.CreationReplays | internal/storage/file_task_store.go:219-227 | A replayed creation stores its task under its own id in place of what was there; an event about an unknown task, or without a task, does nothing. |
| CallLaws.CompletedOnce | internal/service/service.go:447-461 | Over any run, a file completed at its end and not at its start was completed by exactly one call, and has the trimmed name and the size that call gave. |
| Calls.ExecKeepsGood | internal/service/service.go:99-140 | Every call keeps: status follows from files, sizes are not negative, only completed files have a size or name; its events are readable and carry its time. |
| Calls.EventsRecoverCall | internal/service/service.go:661-715 | Replaying a call's events over the old tasks gives the new tasks in every field, also without the task-status event, if no task is newer than the call. |
| Calls.EventsRecoverCallIff | internal/storage/file_task_store.go:252-258 | Without that condition: recovery is exact iff the task is not newer than the call or the new file status changes the status derived from the files. |
| Runs.RunRecovers | internal/service/service.go:99-140 | The log of any run, replayed over where the run began, gives the tasks where it ended; task-status events are redundant in it. |
| Runs.SnapshotOverItsOwnLog | internal/storage/file_task_store.go:137-167 | The tasks at the end of a run survive replay of the run's own log. |
| Runs.HalfWrittenLog | internal/storage/file_task_store.go:228-276 | A run's log cut after any event rebuilds the tasks after some prefix of the calls but for one file (and its task's status and time) of the call being logged; every status follows from its files; a whole log gives the end. |
| Runs.RunMovesForward | internal/service/service.go:229-238 | Over any run no task disappears, a completed file never changes, started files never go back, no file becomes waiting. |
| Runs.LateQueueMarkCanBeStruckOut | internal/service/service.go:334-349 | A queue mark on a file that is busy or finished by then can be struck out of any run: tasks and log of the whole run stay the same. |
| Json.ValueParses | internal/storage/wal/wal.go:79 | Parsing what was printed gives the value back and leaves the rest, for every value and continuation. |
| Json.PrintedIsPrintable | internal/storage/wal/wal.go:83-88 | Printed JSON holds no raw control character, so an encoded event holds no line break. |
| Json.PrefixDoesNotParse | internal/storage/wal/wal.go:169-181 | No proper prefix of a printed object is a JSON text. |
| JsonTears.TornObjectAndRecord | internal/storage/wal/wal.go:169-181 | The start of a printed object, or all of it, with a log record right behind it is no JSON text. |
| Wal.ReadAll | internal/storage/wal/wal.go:145-188 | The scanning loop is interrupted iff its context ends at a line it gets to that is within the scan limit, and otherwise returns what the specification of reading says. |
| Wal.NextLine | internal/storage/wal/wal.go:159-184 | What the next line does to the reading: at the scan limit an error; blank, passed over; not JSON, the end of the log whatever follows; a value that is no event, an error; an event, read before those behind it; a carriage return is no part of the line. |
| Wal.BadLineEndsTheLog | internal/storage/wal/wal.go:169-181 | Behind whole records, a line that is not JSON ends the reading with exactly these records, whatever stands behind it. |
| Wal.TurnsOfLog | internal/storage/wal/wal.go:159-162 | Reading a whole log looks at its context once for every event. |
| Wal.ReadsBackIff | internal/storage/wal/wal.go:156-187 | Reading back appended events gives exactly them iff every line is under the scan limit, and the over-long error otherwise. |
| Wal.TornTail | internal/storage/wal/wal.go:169-181 | Reading a log cut after any byte gives exactly the events whose text is whole, with or without its line break. |
| EventCodecs.EncodingIsLossless | internal/storage/wal/record.go:10-51 | With the field names and the omitted empty fields of the program, no two events of seven-bit text are written alike, so a decoder gives each back. |
| EventCodecs.NamesOfEvent | internal/storage/wal/record.go:42-51 | An event is an object with the fields version, task_id, type, created_at and payload. |
| EventCodecs.NamesOfPayload | internal/storage/wal/record.go:19-40 | The fields of each payload, those that may be left out there iff they are not empty. |
| TornAppends.EncodedIsVersioned | internal/storage/wal/record.go:42-51 | Every line of the program begins as a record. |
| TornAppends.AppendToCut | internal/storage/wal/wal.go:37-60 | What appending to a log cut after any byte comes to: behind whole lines the new records are read after the old ones; behind part of a line, or a text without its line break, only what stands before that line is read, or the line is over the limit. |
| TornAppends.AppendedIsReadIff | internal/storage/wal/wal.go:37-60 | Records appended to a cut log are read back behind what was read before iff the cut left whole lines. |
| TornAppends.AcknowledgedAfterTearIsLost | internal/storage/file_task_store.go:169-177 | A batch acknowledged through a log cut inside a line is not found by a restart, which finds only what stood before that line. |
| TornAppends.ForgottenAfterTear | internal/storage/file_task_store.go:29-135 | A new store over such a log loads, acknowledges an update of any known task, and the next restart does not find it. |
| FileLogs.FileLog.Append | internal/storage/wal/wal.go:69-91 | Adds a prefix of the batch's bytes to what is on disk and buffered, each record as a text and then a line break: all of it on success, whole lines up to where the context is found cancelled, none if the writer was broken before; keeps the account of acknowledged batches. |
| FileLogs.FileLog.Flush | internal/storage/wal/wal.go:93-109 | Moves buffered bytes to disk in order; on success nothing is buffered; succeeds silently when closed. |
| FileLogs.FileLog.Close | internal/storage/wal/wal.go:111-139 | The log is closed whatever fails; on success, and whenever the device has room, everything sent is on disk. |
| FileLogs.FileLog.Acknowledge | internal/storage/file_task_store.go:169-177 | Disk and buffer together are always the prefixes taken of each attempted batch in call order, and every acknowledged batch is whole and on disk. |
| Recovery.HeldIsReloaded | internal/storage/file_task_store.go:97-135 | If the disk holds m through a log, a restart rebuilds m from exactly those events. |
| Recovery.SnapshotReplacesBase | internal/storage/file_task_store.go:158-166 | A snapshot of what the disk holds may replace the old one with the whole old log in place, with no log, or with an empty one. |
| Recovery.BatchIsHeld | internal/storage/file_task_store.go:169-177 | Logging a batch at the present time makes the disk hold the map with the batch applied, now and for later replays. |
| Recovery.CrashInBatch | internal/storage/file_task_store.go:169-177 | Any cut inside a batch being written rebuilds the map with a prefix of the batch applied. |
| Recovery.LogReloadsIff | internal/storage/file_task_store.go:97-135 | A log the service wrote can be loaded iff its lines are under the scan limit, and then gives the snapshot with the log applied. |
| FileTaskStores.FileTaskStore.constructor | internal/storage/file_task_store.go:29-40 | A new store has no tasks and an open log that continues the file found. |
| FileTaskStores.FileTaskStore.FlushAppend | internal/storage/file_task_store.go:169-177 | Fails when the log is missing; through an open log success means that everything sent is on disk and the batch is acknowledged, and with room on the device the contexts alone decide how many events are kept; which error is returned; through a closed one it succeeds and stores nothing. |
| FileTaskStores.FileTaskStore.LogBatch | internal/storage/file_task_store.go:169-177 | Every disk state in between rebuilds a prefix of the batch; afterwards the log has kept a prefix of it, all of it on success. |
| FileTaskStores.FileTaskStore.CreateTask | internal/storage/file_task_store.go:54-73 | Logs, then stores a copy in new objects; fails exactly so on a known id; a failure leaves memory as it was and names its cause; a healthy log makes it succeed. |
| FileTaskStores.FileTaskStore.UpdateTask | internal/storage/file_task_store.go:75-95 | The same for a known id; fails on an unknown one; a store that lost its log acknowledges no update with events. |
| FileTaskStores.FileTaskStore.LoadAll | internal/storage/file_task_store.go:97-135 | Memory becomes what the disk rebuilds, in new objects; the returned copies share nothing with it; it fails iff its context ends at a line that reading gets to, or as the disk explains, and then memory stays. |
| SnapshotSteps.FirstFaultMisses | internal/storage/file_task_store.go:137-214 | A snapshot runs to its end iff none of its thirteen steps fails; otherwise it stops at a failing one. |
| SnapshotSteps.FirstFaultIsFirst | internal/storage/file_task_store.go:137-214 | It stops at the first failing step in the order listed; a closed log is neither flushed nor closed. |
| FileTaskStores.FileTaskStore.WriteSnapshot | internal/storage/snapshot/snapshot.go:26-65 | The snapshot file changes atomically, at the rename, and only if no step before failed. |
| FileTaskStores.FileTaskStore.BackupAndResetLog | internal/storage/file_task_store.go:179-214 | Where each failing step leaves log field and disk; on success a new empty log. |
| SnapshotSteps.SnapshotKeepsMap | internal/storage/file_task_store.go:137-214 | Every disk state of a snapshot attempt, and the state it ends in, holds the map. |
| SnapshotSteps.DoneHolds | internal/storage/file_task_store.go:137-167 | A snapshot that is done leaves the disk rebuilding exactly its tasks, whatever went before. |
| AnyFaults.EveryMixtureKeepsItsBook | internal/storage/file_task_store.go:137-205 | After any mixture of logged batches and snapshots, whichever fail and however: disk and buffer hold the last snapshot put in place and, since its log was started, a prefix of every attempted batch in order, all of each acknowledged through an open log, none of those a closed one swallowed. |
| AnyFaults.AnyMixtureRecovers | internal/storage/file_task_store.go:97-177 | A restart then rebuilds that snapshot with the kept lines replayed, exactly so once all is written, and never without what was acknowledged. |
| AnyFaults.CrashRecovers | internal/storage/file_task_store.go:137-205 | A crash inside an operation: before a snapshot is in place the kept lines are replayed as far as written, no acknowledged one missing; from then on a restart finds the snapshot, alone or with the whole kept log over it. |
| AnyFaults.RejectedCallComesBack | internal/storage/wal/wal.go:93-109 | A rejected call whose lines stayed buffered is replayed over a snapshot without it if a crash falls before the log file is moved away. |
| FileTaskStores.FileTaskStore.FlushSnapshot | internal/storage/file_task_store.go:137-167 | The snapshot holds the map, the current version and the time given; the attempt stops at the first failing step and leaves log and disk as that step does, the disk going through more of what was buffered and then exactly the listed states; memory stays. |
| FileTaskStores.FileTaskStore.Close | internal/storage/file_task_store.go:42-52 | The store has no log afterwards; if the device has room everything buffered is on disk. |
| FileTaskStores.SurvivesIffLogOpen | internal/storage/file_task_store.go:75-95 | On a store that kept its map, an acknowledged update that changes a task survives a restart iff the log was open; a closed log always acknowledges, a missing one never. |
| FileTaskStores.ForgottenAfterFailedClose | internal/storage/file_task_store.go:183-187 | After a snapshot whose log failed to close, every changing update is acknowledged and forgotten by a restart. |
| BoltTaskStores.BoltTaskStore.CreateTask | internal/storage/bolt_task_store.go:55-78 | Stores a new task iff the context lives, the id is new and the commit goes through; otherwise changes nothing and says which of these failed. |
| BoltTaskStores.BoltTaskStore.UpdateTask | internal/storage/bolt_task_store.go:80-104 | The same for a known task. |
| BoltTaskStores.BoltTaskStore.GetTaskByID | internal/storage/bolt_task_store.go:160-191 | A fresh copy of the stored task, an empty task for an unknown id. |
| BoltTaskStores.BoltTaskStore.ListTasks | internal/storage/bolt_task_store.go:106-148 | Fresh, disjoint copies of exactly the stored tasks, sorted by creation time. |
| Sorting.SortTasks | internal/core/task.go:75-92 | The list holds exactly the tasks of the map, none of them less than an earlier one in the comparator's order. |
| Sorting.LessIsOrder | internal/core/task.go:76-91 | The comparator is a strict weak order. |
| Sorting.SortedIff | internal/core/task.go:75-92 | A list is sorted iff older tasks come first, tasks without a creation time last, and of these none before one whose id is smaller byte by byte. |
| TaskServices.BuildFileEvents | internal/service/service.go:661-715 | One to three events with the file's new contents, the task-status event iff the status changed. |
| TaskServices.ChangeFileInPlace | internal/service/service.go:447-461 | Each Mark operation's change of the file object; what it means field by field is MarkWrites. |
| TaskServices.MarkCopy | internal/service/service.go:229-257 | On a private copy: the rejection, the ignored late queue mark, or the changed task and its events that the specification gives. |
| TaskServices.TaskService.CloneForUpdate | internal/service/service.go:717-743 | A private copy of the cached task, or the rejection for an unknown id or an index out of range. |
| TaskServices.TaskService.Perform | internal/service/service.go:206-308 | CreateTask and the four Mark calls: cache and store both become what the specification says, or neither changes and the error is returned, which names what failed; a healthy store never faults; the answer shares no object with cache or store; no task object that was published is ever written. What it means for the caller is AnswerMeans with CallLaws. |
| TaskServices.AnswerMeans | internal/service/service.go:99-140 | A call answers with a task iff it is not turned down and the store takes what it has to store, and that task is the one held; in every other case nothing has changed and the answer says why. |
| TaskServices.TaskService.GetTask | internal/service/service.go:143-169 | A fresh copy of the cached task, or not-found. |
| TaskServices.TaskService.GetTaskAround | internal/service/service.go:150-157 | With any calls between the lookup under the lock and the copy after it, the copy is the task as it was at the lookup: published tasks are replaced, never written. |
| TaskServices.TaskService.SortedTasks | internal/service/service.go:172-204 | Fresh, disjoint copies of exactly the cached tasks, sorted by creation time. |
| TaskServices.TaskService.FlushSnapshot | internal/service/service.go:641-655 | A snapshot holds the cached tasks, leaves cache and store equal and unchanged, and the disk as the first failing step leaves it. |
| TaskServices.NewTaskService | internal/service/service.go:44-97 | Cache and store both become what the disk rebuilds, in disjoint objects; it fails iff loading does, with loading's error. |
| TaskServices.CallKeepsReady | internal/service/service.go:206-308 | After a call without fault the disk rebuilds the new tasks iff its lines can be read back; a call whose fault left no trace in the log leaves the disk state as it was. |
| TaskServices.LongLineStopsRestart | internal/storage/wal/wal.go:156-187 | After an acknowledged call a restart finds the new tasks if its lines are under the scan limit, and otherwise fails with the over-long error. |
| LongLines.LineIsLonger | internal/storage/wal/wal.go:79-88 | The line of an event is at least as long as any text in it. |
| LongLines.OneLongMessageEndsIt | internal/storage/wal/wal.go:156-187 | One failed mark whose message reaches the scan limit is acknowledged, and after the next restart the database is down for good. |
| BoltTaskServices.BoltTaskService.LoadForUpdate | internal/service/service.go:745-765 | A private copy of the stored task; an unknown id is rejected for its index. |
| BoltTaskServices.BoltTaskService.Perform | internal/service/service.go:269-308 | The calls without a cache answer and store what the uncached specification says; one with something to store fails iff its context has ended at the store or the commit fails, with that error and nothing changed; what a context that has ended before the call, the load or the store makes of each call. |
| BoltTaskServices.BoltTaskService.GetTask | internal/service/service.go:160-168 | A fresh copy of the stored task, an empty one for an unknown id. |
| BoltTaskServices.CallBoth | internal/service/service.go:206-308 | Driven with the same calls over working stores, the cached and the uncached service hold the same tasks after each call, and their answers are equal iff the call creates, names a stored task, or has a negative size. |
| Lifetimes.CrashInCall | internal/service/service.go:206-308 | A crash while a call is logged rebuilds the tasks before it, those after it, or those before it but for one file, its task's status and UpdatedAt; statuses follow from files. |
| Lifetimes.Live | internal/storage/file_task_store.go:29-214 | Any list of requests, snapshots and restarts, with contexts that end, appends cut short, flushes, syncs and snapshot steps that fail: cache and store are equal and, like what a restart would find, exactly what the machine on values says; while lines are buffered the disk may lack unacknowledged ones. |
| Lifetimes.OrderlyLifeAgrees | internal/storage/file_task_store.go:54-167 | If the clock does not step back, no rejected call leaves part of its lines and no snapshot a stale log, memory is what a restart would find whenever the log is not closed. |
| Lifetimes.TraceIsPartOfCall | internal/storage/wal/wal.go:73-91 | A call rejected after some of its lines were taken leaves memory alone, and a restart finds the tasks before it, those after it, or those before it but for one file. |
| StaleLogs.EveryLifeIsShaped | internal/storage/file_task_store.go:97-214 | In every life the log's events are about tasks of the snapshot or ones it creates itself, memory has every task of the snapshot with the same files, and while the log is open no others than a restart would find. |
| StaleLogs.StaleLogDecides | internal/storage/file_task_store.go:179-205 | After a snapshot put in place beside an old log that could not be moved: a restart finds the tasks in memory and those the log creates, and takes each part of each file (status and error, size, name, times) from what it would have found before if the log creates the task or writes the part, and from memory otherwise. |
| StaleLogs.GivesFileBackIff | internal/storage/file_task_store.go:179-205 | So it gives a file in memory back iff every part the log decides is the same in memory as on the disk before. |
| StaleLogs.SinceFailedClose | internal/storage/file_task_store.go:183-187 | From a failed close until the next snapshot is put in place a restart finds what was in memory at the failed close, however many calls are acknowledged. |
| StaleLogs.StaleLogStands | internal/storage/file_task_store.go:169-172 | Nothing before the restart can mend a stale log: whatever calls and snapshots follow, it decides as said. |
| StaleLogs.CompletionIsUndoneIff | internal/storage/file_task_store.go:183-205 | A download completed between the failed close and the stale log, acknowledged and in the snapshot, is undone by a restart iff the log creates the task or sets the status of the file; its size is forgotten iff the log creates the task or sets the size. |
| StaleLogs.CompletionIsLostForGood | internal/service/download_manager.go:139-148 | If the log started the file and does not create its task, the file comes back downloading with its final size: the invariant is broken, and in every run of a process over these tasks it stays downloading. |
| StaleLogs.StaleLogUndoesACompletion | internal/storage/file_task_store.go:179-205 | A life in which a completed download, in memory and in the snapshot file, is waiting again after a restart. |
| StaleLogs.StaleLogLosesACompletion | internal/storage/file_task_store.go:179-205 | A life in which it is downloading with the size of the finished file, for good. |
| Interleavings.CopyIsCurrent | internal/service/service.go:717-743 | With the lock held, what a call computes from its copy is what it would compute from cache or store, so no update of another file is lost. |
| Interleavings.NewOnDisk | internal/service/service.go:116-131 | A creation may be logged with an older time than earlier events; the log still rebuilds the store, now and replayed twice. |
| Interleavings.LateMarkOnDisk | internal/service/service.go:238-261 | A mark read the clock before it got to the store, so it may be logged with an older time than a creation before it; the log still rebuilds the store, now and replayed twice. |
| Interleavings.SnapshotOnDisk | internal/storage/file_task_store.go:137-167 | A snapshot of the store over the whole log keeps the disk rebuilding the store while calls are under way. |
| Interleavings.EveryInterleavingIsSequential | internal/service/service.go:217-266 | In every interleaving, with failing snapshots and faults that leave traces, the answers are those of a sequential run in answer order, which respects calls that did not overlap; the cache is where that run ends; cache and store differ only for the lock holder's saved task and creations in flight; while no fault has left a trace the log rebuilds the store. |
| Interleavings.TidyRecovers | internal/storage/file_task_store.go:97-135 | In such a state a restart from the disk finds the store if every line is under the scan limit, and fails otherwise. |
| Interleavings.DoneMendsTheLog | internal/storage/file_task_store.go:137-167 | A snapshot that is done makes the log rebuild the store, whatever faults came before. |
| Interleavings.QuietMeansEqual | internal/service/service.go:129-137 | When no call is between store and cache, cache, store and the sequential run agree, and so does a restart if no fault has left a trace. |
| Dispatching.MarkQueuedAttends | internal/service/download_manager.go:150-159 | The late queue mark is right: if the file has not started, its job is still in flight. |
| Dispatching.EveryFileIsAttended | internal/service/download_manager.go:127-162 | In every reachable state, unless its job or mark was lost, a queued file has a job queued or taken and not started, a downloading file a worker before its last mark; the queue is within capacity. |
| Dispatching.AtRestNoFileIsBusy | internal/worker/downloader.go:94-156 | With nothing lost at the start and no mark of a worker failing, when queue and workers are at rest no file is queued or downloading, even if queue marks failed. |
| Orphans.BusyAtRestIffLost | internal/worker/downloader.go:94-156 | When everything has come to rest and no queue mark failed, the files left queued or downloading are exactly those whose last job was dropped or last mark failed, or that were so at the start. |
| Orphans.AbandonedForGood | internal/service/download_manager.go:139-148 | A busy file without a job, which no dispatcher at work may still submit, keeps its status in every continuation. |
| Orphans.BusyAtRestForGood | internal/service/download_manager.go:139-148 | So does every file that is busy when everything has come to rest. |
| Orphans.OrphanIsReachable | internal/worker/downloader.go:99-101 | One failed start mark leads to such a file, abandoned for good: the working store is needed. |
| Dispatching.FilesOnlyMoveForward | internal/worker/downloader.go:117-151 | With any dispatchers, workers and duplicate jobs: completed files never change, started files never go back, none becomes waiting. |
| Dispatching.JobsAreTakenInOrder | internal/worker/pool.go:108-134 | In every run the jobs submitted are those workers got, in that order, and then those queued. |
| Submissions.EveryEnqueueIsExact | internal/service/download_manager.go:139-160 | In every run, with any dispatchers and worker steps: one that came to its end has submitted exactly its wanted files in order, one refused at a file exactly those before it, one whose mark failed that one as well, one still at work exactly those it has passed. |
| Submissions.UnsentFileKeepsItsStatus | internal/service/download_manager.go:150-159 | In every run a file that has not been submitted keeps its status. |
| Submissions.SendableIffUnsent | internal/service/download_manager.go:139-148 | When no dispatcher is at work and no queue mark has failed, a file is to be submitted iff it was at an earlier moment and has not been submitted. |
| Submissions.NextEnqueueTakesTheRest | internal/service/download_manager.go:139-160 | So the next Enqueue wants, in order, exactly the files an earlier one wanted that have not been submitted since. |
| Submissions.EachFileIsSubmittedOnce | internal/service/download_manager.go:139-160 | With one dispatcher at a time and no failed queue mark, the submissions are those of one Enqueue after another and no file is among them twice, whatever workers do. |
| Submissions.WantedIsExact | internal/service/download_manager.go:139-148 | The indexes Enqueue submits are exactly those neither finished nor busy, ascending. |
| DownloadManagers.DownloadManager.Enqueue | internal/service/download_manager.go:127-162 | Whatever others do between its steps: success submits exactly the files wanted at its start, in order, a refusal exactly those below its index, a failed mark exactly those up to it; every file dealt with is queued or beyond; without interference nothing else changes. |
| DownloadManagers.DownloadManager.EnqueueAll | internal/service/download_manager.go:165-185 | The same for each listed task as it is when its turn comes, stopping at the first error, or silently when enqueueing is disabled meanwhile; the files it goes by are those of a moment in between. |
| DownloadManagers.JobsNameTheirFiles | internal/service/download_manager.go:150 | There is one job for each wanted file, in order, and it names the task, the file and the file's URL. |
| Pools.EveryStateIsAccountedFor | internal/worker/pool.go:59-134 | The accepted jobs are, in order, those taken and those queued, and as a multiset those queued, running and handled; the queue stays within capacity and running jobs within the worker count. |
| Pools.NextInLine | internal/worker/pool.go:120-134 | In every run a worker that takes a job gets the first accepted one that nobody has taken yet. |
| Pools.FirstInFirstOut | internal/worker/pool.go:120-134 | Of two jobs the one taken earlier was accepted earlier. |
| Pools.StopReturnsWhenDrained | internal/worker/pool.go:70-77 | When Stop returns everything accepted was handled exactly once iff Start had spawned a worker or nothing was accepted. |
| Pools.StopCanOvertakeStart | internal/worker/pool.go:59-77 | The other case is reachable. |
| Pools.StartedPoolHasWorkers | internal/worker/pool.go:59-69 | After Start has returned the first case holds. |
| Pools.StoppedStaysDrained | internal/worker/pool.go:79-125 | After Stop from a drained pool nothing is accepted and nothing is left to handle. |
| Pools.DrainDecreases | internal/worker/pool.go:127-134 | Once the channel is closed every step of spawning and working lowers a measure. |
| Pools.DrainIsNeverStuck | internal/worker/pool.go:127-134 | And one is possible until every worker has exited. |
| Downloaders.MarkIsAllowed | internal/service/service.go:447-461 | A start, completed or failed mark on the tasks it finds is turned down iff the file is completed, and otherwise gives the file its status with as many events as its looks are counted by. |
| Downloaders.Downloader.TryAll | internal/worker/downloader.go:103-149 | As many downloads as the world lets it begin, at most maxAttempts + 1; the error of a job that is given up; and its course, with others changing the tasks before each mark. |
| Downloaders.Downloader.Mark | internal/storage/wal/wal.go:69-109 | A mark goes through iff the service allows it, the store takes it and its context is not over at the last of its looks: one by the service, one before each event, one before the flush. |
| Downloaders.Downloader.Handle | internal/worker/downloader.go:94-156 | No error iff the completed mark went through on the tasks it found; otherwise exactly one failed mark with the error the job is given up with, and whether it went through on the tasks it found; the resulting tasks in each case. |
| Downloaders.WhyGivenUp | internal/worker/downloader.go:103-156 | From the world alone: no attempts, no error; all broken, the last one's error; base over by the last attempt that could be made, the context's error, after as many downloads as began before; got the file, the error of the completed mark. |
| Downloaders.LastMarkSays | internal/worker/downloader.go:137-201 | The error returned; and if the last mark is made, the name and size of the last download, or the error, cut at 256 bytes and trimmed, stand in the file. |
| Downloaders.ContextsEnd | internal/worker/downloader.go:300-307 | A base that has ended leaves the context of the last mark its full time; one that ends later ends it too. |
| Downloaders.LastMarkDecides | internal/worker/downloader.go:151-201 | With a working store and others moving files forward meanwhile, a started file ends completed iff its completed mark goes through or another job completed it; otherwise downloading iff the failed mark finds it so and its context is over by the last of the looks that mark then needs. |
| Downloaders.OthersDecide | internal/worker/downloader.go:151-156 | The same job under the same contexts: alone it ends failed after four looks, and with a second worker finishing another file of the task it needs five and stays downloading. |

## Left out

- HTTP handlers, middleware, DTOs, routing, configuration, logging, id generation and server wiring: plumbing.
- The network transfer, file names from headers and URLs, and the copy to disk inside one download attempt: one outcome per attempt.
- Texts are byte strings. The program's encoder replaces bytes that are not valid UTF-8, and cutting an error message at 256 bytes can split a character: such an event is not clean, and what is said about recovery asks for clean events.
- EventCodecs.EncodingIsLossless: for seven-bit text only, because other text the encoder may escape or replace; an instant is quoted text whose digits stand for the RFC 3339 form; files are not null.
- Json.ValueParses: the language has no booleans, fractions, white space, nor escapes above U+007F, which events do not contain but for the escapes the encoder writes for U+2028, U+2029 and U+FFFD.
- The snapshot file is a decoded value, so decoding errors of a snapshot do not occur.
- Real files, timers and transactions: rename, sync and a database transaction are atomic steps; timeouts are contexts that end.
- Lifetimes.Live: a restart closes the store first, which with nothing buffered is also what a crash comes to, and the device has room; crashes with lines buffered and write errors are AnyMixtureRecovers and CrashRecovers, and going on after a crash inside a line is TornAppends.
- Lost updates between the load and the store of a call without a cache.
- The order of the list returned by `LoadAll` and of the tasks inside a snapshot: both become maps at once.
- `ResetBufferSize`, names of rotated log files, the error builder.
- The `useCache` flag: it never changes, so its two values are two classes; the four Mark methods, which differ only in how they change the file, are one method over the call.
- Interleavings.EveryInterleavingIsSequential: the store's own operations, snapshots included, are atomic steps, as its mutex makes them; what the disk holds after a fault with a trace is AnyMixtureRecovers.
- Dispatching.AtRestNoFileIsBusy: files left queued or downloading by an earlier process are counted as lost from the start; the program never picks them up again.
- Downloaders.Downloader.Handle: marks go to the cached service over the file store, whose looks at a context are counted; the text of a failed mark's error is given by the world.
