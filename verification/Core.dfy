/** Tasks and files as values, and the status a task derives from its files. */
module Core {

  datatype Option<+T> = None | Some(value: T)

  datatype Result<+T, +E> = Success(value: T) | Failure(error: E)

  /** What an invariant comes to. An invariant that is said through a verdict is passed on as a whole
      where it is not needed in its parts. */
  datatype Verdict = Sound | Unsound

  /** An instant read from the service clock. */
  type Time = int

  /** The program stores a status as text; Other is any text that is not one of its constants. */
  datatype TaskStatus =
    | TaskPending
    | TaskInProgress
    | TaskFailed
    | TaskPartiallyCompleted
    | TaskCompleted
    | TaskOther(text: string)

  datatype FileStatus =
    | FileWaiting
    | FileQueued
    | FileDownloading
    | FileCompleted
    | FileError
    | FileOther(text: string)

  datatype File = File(
    url: string,
    filename: string,
    status: FileStatus,
    size: int,
    error: string,
    startedAt: Option<Time>,
    completedAt: Option<Time>)

  datatype Task = Task(
    id: string,
    files: seq<File>,
    status: TaskStatus,
    urls: seq<string>,
    createdAt: Option<Time>,
    updatedAt: Option<Time>)

  predicate IsBusy(s: FileStatus) {
    s.FileQueued? || s.FileDownloading?
  }

  predicate IsFinished(s: FileStatus) {
    s.FileCompleted? || s.FileError?
  }

  function Statuses(files: seq<File>): (ss: seq<FileStatus>)
    ensures |ss| == |files|
    ensures forall i :: 0 <= i < |files| ==> ss[i] == files[i].status
  {
    seq(|files|, i requires 0 <= i < |files| => files[i].status)
  }

  predicate AnyBusy(ss: seq<FileStatus>) { exists i :: 0 <= i < |ss| && IsBusy(ss[i]) }

  predicate AllWaiting(ss: seq<FileStatus>) { forall i :: 0 <= i < |ss| ==> ss[i].FileWaiting? }

  predicate AllFinished(ss: seq<FileStatus>) { forall i :: 0 <= i < |ss| ==> IsFinished(ss[i]) }

  predicate AllCompleted(ss: seq<FileStatus>) { forall i :: 0 <= i < |ss| ==> ss[i].FileCompleted? }

  predicate AllFailed(ss: seq<FileStatus>) { forall i :: 0 <= i < |ss| ==> ss[i].FileError? }

  /** The status of a task, said with quantifiers over its files; the program counts instead
      (see Objects.TaskObject.ObtainStatus). */
  function StatusOf(ss: seq<FileStatus>): TaskStatus {
    if ss == [] then TaskCompleted
    else if AnyBusy(ss) then TaskInProgress
    else if AllWaiting(ss) then TaskPending
    else if AllCompleted(ss) then TaskCompleted
    else if AllFailed(ss) then TaskFailed
    else if AllFinished(ss) then TaskPartiallyCompleted
    else TaskInProgress
  }

  function ObtainStatus(files: seq<File>): TaskStatus {
    StatusOf(Statuses(files))
  }

  /** Status and UpdatedAt after core.Task.UpdateStatus. */
  function UpdateStatus(t: Task, now: Time): (r: Task)
    ensures r.status == ObtainStatus(r.files) && r.files == t.files
  {
    var st := ObtainStatus(t.files);
    if st != t.status then t.(status := st, updatedAt := Some(now)) else t
  }

  function NewFile(url: string): File {
    File(url, "", FileWaiting, 0, "", None, None)
  }

  function NewTask(id: string, now: Time, urls: seq<string>): Task {
    Task(id, NewFiles(urls), TaskPending, urls, Some(now), Some(now))
  }

  function NewFiles(urls: seq<string>): seq<File> {
    seq(|urls|, i requires 0 <= i < |urls| => NewFile(urls[i]))
  }

  /** The task status depends only on how often each file status occurs. */
  lemma StatusIgnoresOrder(a: seq<FileStatus>, b: seq<FileStatus>)
    requires multiset(a) == multiset(b)
    ensures StatusOf(a) == StatusOf(b)
  {
    forall s ensures s in a <==> s in b {
      assert s in multiset(a) <==> s in multiset(b);
    }
    SameMembers(a, b);
    SameMembers(b, a);
    assert a == [] <==> b == [] by {
      assert |multiset(a)| == |a| && |multiset(b)| == |b|;
    }
  }

  lemma SameMembers(a: seq<FileStatus>, b: seq<FileStatus>)
    requires forall s :: s in a <==> s in b
    ensures AnyBusy(a) ==> AnyBusy(b)
    ensures AllWaiting(b) ==> AllWaiting(a)
    ensures AllCompleted(b) ==> AllCompleted(a)
    ensures AllFailed(b) ==> AllFailed(a)
    ensures AllFinished(b) ==> AllFinished(a)
  {
    forall i | 0 <= i < |a| ensures exists j :: 0 <= j < |b| && b[j] == a[i] {
      assert a[i] in b;
    }
  }

  /** A task is in a final state exactly when every file is; it is pending exactly when it has
      files and all of them wait, partially completed exactly when all files are finished and both kinds of
      end occur, and in progress in every other case. */
  lemma FinalStatusMeansAllFinished(ss: seq<FileStatus>)
    ensures StatusOf(ss) in {TaskCompleted, TaskFailed, TaskPartiallyCompleted} <==> AllFinished(ss)
    ensures StatusOf(ss) == TaskPending <==> ss != [] && AllWaiting(ss)
    ensures StatusOf(ss) == TaskCompleted <==> AllCompleted(ss)
    ensures StatusOf(ss) == TaskFailed <==> ss != [] && AllFailed(ss)
    ensures StatusOf(ss) == TaskPartiallyCompleted <==> AllFinished(ss) && FileCompleted in ss && FileError in ss
    ensures StatusOf(ss) == TaskInProgress <==> !AllFinished(ss) && !AllWaiting(ss)
  {
    if ss != [] {
      assert IsBusy(ss[0]) || ss[0].FileWaiting? || IsFinished(ss[0]) || ss[0].FileOther?;
    }
  }
}
