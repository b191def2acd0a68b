/** What each call of the task service means for a caller: said from the call and the old tasks alone, field
    by field, with the answers and the events. */
module CallLaws {
  import opened Core
  import opened Records
  import opened Replay
  import opened Calls
  import opened FileStates
  import opened Runs
  import Urls

  function FileAt(m: Tasks, f: FileId): Option<File> {
    if f.id in m && 0 <= f.index < |m[f.id].files| then Some(m[f.id].files[f.index]) else None
  }

  function FileOf(c: Call): FileId
    requires !c.Create?
  {
    FileId(c.id, c.index)
  }

  // ---------------------------------------------------------------- answers

  /** A Mark call is turned down for a negative size, an unknown task, an index out of range or a completed
      file, in this order, and otherwise answers with the task as it then is. A queue mark on a file that is
      queued, downloading or finished changes nothing; any other mark that is not turned down does. */
  lemma MarkAnswers(m: Tasks, c: Call)
    requires !c.Create?
    ensures
      var (o, f) := (Exec(m, c), FileAt(m, FileOf(c)));
      var tooSmall := c.MarkCompleted? && c.size < 0;
      var settled := f.Some? && f.value.status in {FileQueued, FileDownloading, FileCompleted, FileError};
      && (o.result == Failure(BadSize) <==> tooSmall)
      && (o.result == Failure(Rejection.NotFound) <==> !tooSmall && c.id !in m)
      && (o.result == Failure(BadIndex) <==> !tooSmall && c.id in m && f == None)
      && (o.result == Failure(AlreadyCompleted) <==> !tooSmall && f.Some? && !c.MarkQueued? && f.value.status == FileCompleted)
      && (o.result.Success? <==> !tooSmall && f.Some? && (c.MarkQueued? || f.value.status != FileCompleted))
      && (o.result.Success? ==> c.id in o.tasks && o.result.value == o.tasks[c.id])
      && (o.events != [] <==> o.result.Success? && !(c.MarkQueued? && settled))
      && (o.events == [] ==> o.tasks == m)
  {
  }

  /** A creation is turned down for its list of URLs or for a known id, and otherwise adds a task. */
  lemma CreateAnswers(m: Tasks, c: Call)
    requires c.Create?
    ensures
      var (o, urls) := (Exec(m, c), Urls.Normalize(c.rawUrls));
      && (urls.Failure? ==> o.result == Failure(BadUrls(urls.error)))
      && (urls.Success? && c.id in m ==> o.result == Failure(Rejection.AlreadyExists))
      && (o.result.Success? <==> urls.Success? && c.id !in m)
      && (o.result.Success? ==> o.events != [] && c.id in o.tasks && o.result.value == o.tasks[c.id])
      && (o.result.Failure? ==> o.events == [] && o.tasks == m)
  {
  }

  // ---------------------------------------------------------------- what a creation writes

  /** A new task lists the cleaned URLs in their order, with one waiting file for each, and carries the time
      of the call; no other task changes. */
  lemma CreateWrites(m: Tasks, c: Call)
    requires c.Create? && Exec(m, c).result.Success?
    ensures Urls.Normalize(c.rawUrls).Success?
    ensures
      var (o, urls) := (Exec(m, c), Urls.Normalize(c.rawUrls).value);
      && o.tasks.Keys == m.Keys + {c.id} && (forall id :: id in m ==> o.tasks[id] == m[id])
      && var t := o.tasks[c.id];
      && t.id == c.id && t.urls == urls && t.status == TaskPending
      && t.createdAt == t.updatedAt == Some(c.now)
      && |t.files| == |urls|
      && (forall i :: 0 <= i < |urls| ==>
            var f := t.files[i];
            && f.url == urls[i] && f.status == FileWaiting
            && f.filename == "" && f.size == 0 && f.error == "" && f.startedAt == None && f.completedAt == None)
      && o.events == [Event(1, c.id, c.now, TaskCreated(Some(t)))]
  {
  }

  // ---------------------------------------------------------------- what a mark writes

  /** The file as a mark leaves it. */
  predicate WritesFile(c: Call, f: File, g: File)
    requires !c.Create?
  {
    && g.url == f.url
    && match c
       case MarkStarted(_, _, now) =>
         && g.status == FileDownloading && g.error == "" && g.startedAt == Some(now)
         && g.filename == f.filename && g.size == f.size && g.completedAt == f.completedAt
       case MarkQueued(_, _, now) =>
         && g.status == FileQueued && g.error == "" && g.startedAt == f.startedAt
         && g.filename == f.filename && g.size == f.size && g.completedAt == f.completedAt
       case MarkCompleted(_, _, filename, size, now) =>
         && g.status == FileCompleted && g.error == "" && g.filename == Urls.Trim(filename) && g.size == size
         && g.startedAt == (if f.startedAt.Some? then f.startedAt else Some(now)) && g.completedAt == Some(now)
       case MarkFailed(_, _, msg, now) =>
         && g.status == FileError && g.error == Urls.Trim(msg) && g.filename == f.filename && g.size == f.size
         && g.startedAt == (if f.startedAt.Some? then f.startedAt else Some(now)) && g.completedAt == Some(now)
  }

  /** A mark that goes through writes its file, the status that follows from all files, and the time; every
      other file, every other field of the task and every other task stay as they were. */
  lemma MarkWrites(m: Tasks, c: Call)
    requires !c.Create? && Exec(m, c).events != []
    ensures FileAt(m, FileOf(c)).Some?
    ensures
      var r := Exec(m, c).tasks;
      && r.Keys == m.Keys && (forall id :: id in m && id != c.id ==> r[id] == m[id])
      && var (t, u) := (m[c.id], r[c.id]);
      && u.id == t.id && u.urls == t.urls && u.createdAt == t.createdAt && u.updatedAt == Some(c.now)
      && u.status == StatusOf(Statuses(u.files))
      && |u.files| == |t.files| && (forall i :: 0 <= i < |t.files| && i != c.index ==> u.files[i] == t.files[i])
      && WritesFile(c, t.files[c.index], u.files[c.index])
  {
  }

  /** The events of a mark that goes through, in order: the file's new status, error and size; unless it is a
      queue mark its new name and times; and the task's new status if it has changed. */
  lemma MarkLogs(m: Tasks, c: Call)
    requires !c.Create? && Exec(m, c).events != []
    ensures FileAt(m, FileOf(c)).Some? && FileAt(Exec(m, c).tasks, FileOf(c)).Some?
    ensures
      var (o, g) := (Exec(m, c), FileAt(Exec(m, c).tasks, FileOf(c)).value);
      var (meta, changed) := (!c.MarkQueued?, o.tasks[c.id].status != m[c.id].status);
      && |o.events| == 1 + (if meta then 1 else 0) + (if changed then 1 else 0)
      && (forall k :: 0 <= k < |o.events| ==>
            o.events[k].version == 1 && o.events[k].taskId == c.id && o.events[k].createdAt == c.now)
      && o.events[0].payload == FileStatusSet(c.index, g.status, g.error, g.size)
      && (meta ==> o.events[1].payload == FileMetaSet(c.index, g.filename, g.startedAt, g.completedAt))
      && (changed ==> o.events[|o.events| - 1].payload == TaskStatusSet(o.tasks[c.id].status))
  {
  }

  // ---------------------------------------------------------------- what a replayed event writes

  /** A replayed event about a stored task: a task status is taken over with its time; a file status sets
      status and error, and the size if it is positive, moves UpdatedAt forward only, unless the status
      derived from the files changes with it, and derives the task's status; the file's other data set the
      name if there is one, and both times. Nothing else is written, and nothing for an index out of range. */
  lemma EventWrites(m: Tasks, ev: Event)
    requires ev.taskId in m && !ev.payload.TaskCreated?
    ensures
      var r := ApplyEvent(m, ev);
      && r.Keys == m.Keys && (forall id :: id in m && id != ev.taskId ==> r[id] == m[id])
      && var (t, u) := (m[ev.taskId], r[ev.taskId]);
      && u.id == t.id && u.urls == t.urls && u.createdAt == t.createdAt && |u.files| == |t.files|
      && match ev.payload
         case TaskStatusSet(st) => u.status == st && u.updatedAt == Some(ev.createdAt) && u.files == t.files
         case FileStatusSet(i, st, err, size) =>
           if 0 <= i < |t.files| then
             var (f, g) := (t.files[i], u.files[i]);
             && (forall j :: 0 <= j < |t.files| && j != i ==> u.files[j] == t.files[j])
             && g.status == st && g.error == err && g.size == (if size > 0 then size else f.size)
             && g.url == f.url && g.filename == f.filename && g.startedAt == f.startedAt && g.completedAt == f.completedAt
             && u.status == StatusOf(Statuses(u.files))
             && u.updatedAt == (if t.updatedAt.Some? && ev.createdAt <= t.updatedAt.value && u.status == t.status
                                then t.updatedAt else Some(ev.createdAt))
           else u == t
         case FileMetaSet(i, name, started, completed) =>
           if 0 <= i < |t.files| then
             var (f, g) := (t.files[i], u.files[i]);
             && (forall j :: 0 <= j < |t.files| && j != i ==> u.files[j] == t.files[j])
             && g.filename == (if name != "" then name else f.filename) && g.startedAt == started && g.completedAt == completed
             && g.url == f.url && g.status == f.status && g.error == f.error && g.size == f.size
             && u.status == t.status && u.updatedAt == t.updatedAt
           else u == t
         case _ => u == t
  {
  }

  /** A replayed creation stores its task under the task's own id, in place of what was there; any other event
      about an unknown task does nothing. */
  lemma CreationReplays(m: Tasks, ev: Event)
    ensures
      var r := ApplyEvent(m, ev);
      && (ev.payload.TaskCreated? && ev.payload.task.Some? ==>
            var t := ev.payload.task.value;
            t.id in r && r[t.id] == t && r.Keys == m.Keys + {t.id} && forall id :: id in m && id != t.id ==> r[id] == m[id])
      && (ev.payload.TaskCreated? && ev.payload.task == None ==> r == m)
      && (!ev.payload.TaskCreated? && ev.taskId !in m ==> r == m)
  {
  }

  // ---------------------------------------------------------------- over whole runs

  /** The call is a completed mark on the file that goes through. */
  predicate Completes(m: Tasks, c: Call, f: FileId) {
    c.MarkCompleted? && FileOf(c) == f && Exec(m, c).events != []
  }

  predicate CompletesAt(m: Tasks, calls: seq<Call>, f: FileId, k: nat)
    requires k < |calls|
  {
    Completes(Run(m, calls[..k]).tasks, calls[k], f)
  }

  /** A call completes a file only by a completed mark on it that goes through, and none goes through on a
      completed file. */
  lemma CallCompletes(m: Tasks, c: Call, f: FileId)
    ensures
      var (a, b) := (FileAt(m, f), FileAt(Exec(m, c).tasks, f));
      && (a.Some? && a.value.status == FileCompleted ==> b == a && !Completes(m, c, f))
      && (b.Some? && b.value.status == FileCompleted && b != a ==> Completes(m, c, f))
      && (Completes(m, c, f) ==>
            b.Some? && b.value.status == FileCompleted && b.value.filename == Urls.Trim(c.filename) && b.value.size == c.size)
  {
    if c.Create? {
      if Exec(m, c).result.Success? { CreateWrites(m, c); }
      else { CreateAnswers(m, c); }
    } else {
      MarkAnswers(m, c);
      if Exec(m, c).events != [] { MarkWrites(m, c); }
    }
  }

  function EndOf(m: Tasks, calls: seq<Call>, n: nat, f: FileId): Option<File>
    requires n <= |calls|
  {
    FileAt(Run(m, calls[..n]).tasks, f)
  }

  predicate IsCompleted(f: Option<File>) {
    f.Some? && f.value.status == FileCompleted
  }

  predicate HasNameAndSize(f: Option<File>, c: Call)
    requires c.MarkCompleted?
  {
    f.Some? && f.value.filename == Urls.Trim(c.filename) && f.value.size == c.size
  }

  lemma NextCompletes(m: Tasks, calls: seq<Call>, f: FileId, n: nat)
    requires n < |calls|
    ensures StaysAt(EndOf(m, calls, n, f), EndOf(m, calls, n + 1, f), CompletesAt(m, calls, f, n))
    ensures CompletesAt(m, calls, f, n) ==> calls[n].MarkCompleted? && HasNameAndSize(EndOf(m, calls, n + 1, f), calls[n])
  {
    RunOfNext(m, calls, n);
    CallCompletes(Run(m, calls[..n]).tasks, calls[n], f);
  }

  /** A history of a file, with the steps that complete it: a completed file stays as it is. */
  predicate StaysCompleted(ends: seq<Option<File>>, steps: seq<bool>) {
    |ends| == |steps| + 1 && forall i: nat :: i < |steps| ==> StaysAt(ends[i], ends[i + 1], steps[i])
  }

  predicate StaysAt(before: Option<File>, after: Option<File>, completes: bool) {
    && (IsCompleted(before) ==> after == before && !completes)
    && (IsCompleted(after) && after != before ==> completes)
    && (completes ==> IsCompleted(after))
  }

  /** Then just one of them does. */
  lemma {:induction false} ExactlyOne(ends: seq<Option<File>>, steps: seq<bool>, n: nat) returns (k: nat)
    requires StaysCompleted(ends, steps) && n <= |steps| && !IsCompleted(ends[0]) && IsCompleted(ends[n])
    ensures k < n && steps[k] && ends[n] == ends[k + 1]
    ensures forall j: nat :: j < n && steps[j] ==> j == k
    decreases n
  {
    if IsCompleted(ends[n - 1]) {
      k := ExactlyOne(ends, steps, n - 1);
    } else {
      k := n - 1;
      forall j: nat | j < n - 1 ensures !steps[j] {
        StillNotCompleted(ends, steps, j, n - 1);
      }
    }
  }

  lemma {:induction false} StillNotCompleted(ends: seq<Option<File>>, steps: seq<bool>, j: nat, n: nat)
    requires StaysCompleted(ends, steps) && j < n <= |steps| && !IsCompleted(ends[n])
    ensures !steps[j]
    decreases n
  {
    if j < n - 1 {
      StillNotCompleted(ends, steps, j, n - 1);
    }
  }

  /** A file that is completed at the end of a run and was not at its start was completed by exactly one of its
      calls, and has the name and size that call gave. */
  lemma CompletedOnce(m: Tasks, calls: seq<Call>, f: FileId) returns (k: nat)
    requires !IsCompleted(FileAt(m, f)) && IsCompleted(FileAt(Run(m, calls).tasks, f))
    ensures k < |calls| && calls[k].MarkCompleted? && CompletesAt(m, calls, f, k)
    ensures forall j: nat :: j < |calls| && CompletesAt(m, calls, f, j) ==> j == k
    ensures HasNameAndSize(FileAt(Run(m, calls).tasks, f), calls[k])
  {
    var ends, steps := HistoryOf(m, calls, f);
    k := ExactlyOne(ends, steps, |calls|);
    assert calls[k].MarkCompleted?;
  }

  lemma HistoryOf(m: Tasks, calls: seq<Call>, f: FileId) returns (ends: seq<Option<File>>, steps: seq<bool>)
    ensures |steps| == |calls| && StaysCompleted(ends, steps)
    ensures ends[0] == FileAt(m, f) && ends[|calls|] == FileAt(Run(m, calls).tasks, f)
    ensures forall k: nat :: k < |calls| ==> steps[k] == CompletesAt(m, calls, f, k)
    ensures forall k: nat :: k < |calls| && steps[k] ==> calls[k].MarkCompleted? && HasNameAndSize(ends[k + 1], calls[k])
  {
    var n := |calls|;
    ends := seq(n + 1, i requires 0 <= i <= n => EndOf(m, calls, i, f));
    steps := seq(n, i requires 0 <= i < n => CompletesAt(m, calls, f, i));
    assert calls[..0] == [] && calls[..n] == calls;
    forall i: nat | i < n
      ensures StaysAt(ends[i], ends[i + 1], steps[i])
      ensures steps[i] ==> calls[i].MarkCompleted? && HasNameAndSize(ends[i + 1], calls[i])
    {
      NextCompletes(m, calls, f, i);
    }
  }
}
