/** Tasks and files as the program holds them: objects that are changed in place and copied at
    every boundary. A task's list of files is built once and never replaced. */
module Objects {
  import opened Core
  import opened Records
  import opened Replay

  class FileObject {
    const url: string
    var filename: string
    var status: FileStatus
    var size: int
    var error: string
    var startedAt: Option<Time>
    var completedAt: Option<Time>

    constructor (f: File)
      ensures View() == f
    {
      url := f.url;
      filename, status, size, error := f.filename, f.status, f.size, f.error;
      startedAt, completedAt := f.startedAt, f.completedAt;
    }

    function View(): File
      reads this
    {
      File(url, filename, status, size, error, startedAt, completedAt)
    }

    method CloneFile() returns (c: FileObject)
      ensures fresh(c) && c.View() == View()
    {
      c := new FileObject(View());
    }
  }

  class TaskObject {
    const id: string
    const files: seq<FileObject>
    var status: TaskStatus
    const urls: seq<string>
    const createdAt: Option<Time>
    var updatedAt: Option<Time>

    constructor (id: string, files: seq<FileObject>, status: TaskStatus, urls: seq<string>,
                 createdAt: Option<Time>, updatedAt: Option<Time>)
      ensures this.id == id && this.files == files && this.status == status && this.urls == urls
      ensures this.createdAt == createdAt && this.updatedAt == updatedAt
    {
      this.id, this.files, this.status, this.urls := id, files, status, urls;
      this.createdAt, this.updatedAt := createdAt, updatedAt;
    }

    /** No two slots share a file object. */
    ghost predicate Valid() {
      forall i, j :: 0 <= i < j < |files| ==> files[i] != files[j]
    }

    ghost function Footprint(): set<object> {
      {this as object} + set f: FileObject | f in files :: f as object
    }

    function FileViews(): (fs: seq<File>)
      reads files
    {
      seq(|files|, i requires 0 <= i < |files| reads files => files[i].View())
    }

    function View(): Task
      reads this, files
    {
      Task(id, FileViews(), status, urls, createdAt, updatedAt)
    }

    method CloneTask() returns (c: TaskObject)
      requires Valid()
      ensures c.Valid() && fresh(c.Footprint())
      ensures c.View() == View() && c.id == id && |c.files| == |files|
    {
      var fs: seq<FileObject> := [];
      for i := 0 to |files|
        invariant |fs| == i
        invariant forall k :: 0 <= k < i ==> fresh(fs[k]) && fs[k].View() == files[k].View()
        invariant forall j, k :: 0 <= j < k < i ==> fs[j] != fs[k]
      {
        var f := files[i].CloneFile();
        fs := fs + [f];
      }
      c := new TaskObject(id, fs, status, urls, createdAt, updatedAt);
      assert c.FileViews() == FileViews();
    }

    /** Counts the files by status and decides on the counts. */
    method ObtainStatus() returns (st: TaskStatus)
      ensures st == Core.ObtainStatus(FileViews())
    {
      var n := |files|;
      if n == 0 {
        return TaskCompleted;
      }
      ghost var ss := Statuses(FileViews());
      var wait, download, complete, error := 0, 0, 0, 0;
      for i := 0 to n
        invariant 0 <= wait && 0 <= download && 0 <= complete && 0 <= error
        invariant wait + download + complete + error <= i
        invariant download > 0 <==> AnyBusy(ss[..i])
        invariant wait == i <==> AllWaiting(ss[..i])
        invariant complete == i <==> AllCompleted(ss[..i])
        invariant error == i <==> AllFailed(ss[..i])
        invariant complete + error == i <==> AllFinished(ss[..i])
      {
        assert ss[..i + 1] == ss[..i] + [ss[i]];
        OneMore(ss[..i], ss[i]);
        match files[i].status
        case FileCompleted => complete := complete + 1;
        case FileError => error := error + 1;
        case FileQueued => download := download + 1;
        case FileDownloading => download := download + 1;
        case FileWaiting => wait := wait + 1;
        case FileOther(_) =>
      }
      assert ss[..n] == ss;
      if download > 0 {
        return TaskInProgress;
      }
      if n == wait {
        return TaskPending;
      }
      var finish := complete + error;
      if wait > 0 && finish > 0 {
        return TaskInProgress;
      }
      if n == finish {
        if n == complete {
          return TaskCompleted;
        }
        if n == error {
          return TaskFailed;
        }
        return TaskPartiallyCompleted;
      }
      return TaskInProgress;
    }

    method UpdateStatus(now: Time)
      modifies this
      ensures View() == Core.UpdateStatus(old(View()), now)
    {
      var st := ObtainStatus();
      if st != status {
        status := st;
        updatedAt := Some(now);
      }
      assert FileViews() == old(FileViews());
    }

    /** The effect of one replayed event on this task, in place. */
    method ApplyInPlace(ev: Event)
      requires Valid() && !ev.payload.TaskCreated?
      modifies Footprint()
      ensures View() == ApplyToTask(old(View()), ev)
    {
      match ev.payload
      case TaskStatusSet(st) =>
        status := st;
        updatedAt := Some(ev.createdAt);
        assert FileViews() == old(FileViews());
      case FileStatusSet(i, st, err, size) =>
        if 0 <= i < |files| {
          var f := files[i];
          assert f in files;
          f.status := st;
          f.error := err;
          if size > 0 {
            f.size := size;
          }
          if updatedAt == None || updatedAt.value < ev.createdAt {
            updatedAt := Some(ev.createdAt);
          }
          assert FileViews() == old(FileViews())[i := f.View()];
          UpdateStatus(ev.createdAt);
        }
      case FileMetaSet(i, name, started, completed) =>
        if 0 <= i < |files| {
          var f := files[i];
          assert f in files;
          if name != "" {
            f.filename := name;
          }
          f.startedAt := started;
          f.completedAt := completed;
          assert FileViews() == old(FileViews())[i := f.View()];
        }
      case Unreadable =>
    }
  }

  lemma OneMore(ss: seq<FileStatus>, s: FileStatus)
    ensures AnyBusy(ss + [s]) <==> AnyBusy(ss) || IsBusy(s)
    ensures AllWaiting(ss + [s]) <==> AllWaiting(ss) && s.FileWaiting?
    ensures AllCompleted(ss + [s]) <==> AllCompleted(ss) && s.FileCompleted?
    ensures AllFailed(ss + [s]) <==> AllFailed(ss) && s.FileError?
    ensures AllFinished(ss + [s]) <==> AllFinished(ss) && IsFinished(s)
  {
    var t := ss + [s];
    assert t[|ss|] == s;
    assert forall i :: 0 <= i < |ss| ==> t[i] == ss[i];
  }

  /** A new task object from the cleaned list of URLs. */
  method MakeTask(id: string, now: Time, urls: seq<string>) returns (t: TaskObject)
    ensures t.Valid() && fresh(t.Footprint()) && t.id == id
    ensures t.View() == NewTask(id, now, urls)
  {
    var fs: seq<FileObject> := [];
    for i := 0 to |urls|
      invariant |fs| == i
      invariant forall k :: 0 <= k < i ==> fresh(fs[k]) && fs[k].View() == NewFile(urls[k])
      invariant forall j, k :: 0 <= j < k < i ==> fs[j] != fs[k]
    {
      var f := new FileObject(NewFile(urls[i]));
      fs := fs + [f];
    }
    t := new TaskObject(id, fs, TaskPending, urls, Some(now), Some(now));
    assert t.FileViews() == NewTask(id, now, urls).files;
  }

  /** An object with the contents of a decoded task. */
  method FromValue(v: Task) returns (t: TaskObject)
    ensures t.Valid() && fresh(t.Footprint()) && t.id == v.id && t.View() == v
  {
    var fs: seq<FileObject> := [];
    for i := 0 to |v.files|
      invariant |fs| == i
      invariant forall k :: 0 <= k < i ==> fresh(fs[k]) && fs[k].View() == v.files[k]
      invariant forall j, k :: 0 <= j < k < i ==> fs[j] != fs[k]
    {
      var f := new FileObject(v.files[i]);
      fs := fs + [f];
    }
    t := new TaskObject(v.id, fs, v.status, v.urls, v.createdAt, v.updatedAt);
    assert t.FileViews() == v.files;
  }

  // ---------------------------------------------------------------- maps of task objects

  type TaskObjects = map<string, TaskObject>

  ghost function ObjectsOf(m: TaskObjects): set<object> {
    set id, o | id in m && o in m[id].Footprint() :: o
  }

  lemma InObjects(m: TaskObjects, id: string)
    requires id in m
    ensures m[id] in ObjectsOf(m) && forall f :: f in m[id].files ==> f in ObjectsOf(m)
    ensures m[id].Footprint() <= ObjectsOf(m)
  {
    assert m[id] as object in m[id].Footprint();
    forall f | f in m[id].files ensures f in ObjectsOf(m) {
      assert f as object in m[id].Footprint();
    }
  }

  /** Every task is stored under its own id and shares no object with another. */
  ghost predicate Separate(m: TaskObjects) {
    && (forall id :: id in m ==> m[id].Valid() && m[id].id == id)
    && (forall a, b :: a in m && b in m && a != b ==> m[a].Footprint() !! m[b].Footprint())
  }

  ghost function ViewAll(m: TaskObjects): (v: Tasks)
    reads ObjectsOf(m)
    ensures v.Keys == m.Keys
  {
    map id | id in m :: InObjects(m, id); m[id].View()
  }

  /** Task objects none of which was written look as they did. */
  twostate lemma SameViews(m: TaskObjects)
    requires forall id :: id in m ==> m[id].View() == old(m[id].View())
    ensures ViewAll(m) == old(ViewAll(m))
  {
    EqualTasks(ViewAll(m), old(ViewAll(m)));
  }

  /** A set stays apart from one that grows by others. */
  lemma StillApart(mine: set<object>, before: set<object>, after: set<object>)
    requires mine !! before && mine !! (after - before)
    ensures mine !! after
  {
  }

  lemma PutKeepsSeparate(m: TaskObjects, t: TaskObject)
    requires Separate(m) && t.Valid() && t.Footprint() !! ObjectsOf(m)
    ensures Separate(m[t.id := t])
    ensures ObjectsOf(m[t.id := t]) <= ObjectsOf(m) + t.Footprint()
  {
    var r := m[t.id := t];
    forall a, b | a in r && b in r && a != b ensures r[a].Footprint() !! r[b].Footprint() {
      assert forall id :: id in m ==> m[id].Footprint() <= ObjectsOf(m);
    }
  }

  /** Adds an object for a decoded task, replacing what its id held. */
  method AddDecoded(m: TaskObjects, t: Task) returns (r: TaskObjects)
    requires Separate(m)
    ensures Separate(r) && fresh(ObjectsOf(r) - ObjectsOf(m)) && ViewAll(r) == old(ViewAll(m))[t.id := t]
  {
    var o := FromValue(t);
    assert forall id :: id in m ==> m[id].View() == old(m[id].View());
    PutKeepsSeparate(m, o);
    r := m[t.id := o];
    EqualTasks(ViewAll(r), old(ViewAll(m))[t.id := t]);
  }

  /** Adds a copy of a task, replacing what its id held. */
  method AddCopy(m: TaskObjects, t: TaskObject) returns (r: TaskObjects)
    requires Separate(m) && t.Valid()
    ensures Separate(r) && fresh(ObjectsOf(r) - ObjectsOf(m))
    ensures ViewAll(r) == old(ViewAll(m))[t.id := old(t.View())]
  {
    var c := t.CloneTask();
    assert forall id :: id in m ==> m[id].View() == old(m[id].View());
    PutKeepsSeparate(m, c);
    r := m[t.id := c];
    EqualTasks(ViewAll(r), old(ViewAll(m))[t.id := old(t.View())]);
  }

  lemma OneLess(v: Tasks, left: set<string>, id: string)
    requires id in left && left <= v.Keys
    ensures (v - left)[id := v[id]] == v - (left - {id})
  {
  }

  /** A copy of every task; the order of the program's list of copies is left out. */
  method CopyTasks(m: TaskObjects) returns (r: TaskObjects)
    requires Separate(m)
    ensures Separate(r) && fresh(ObjectsOf(r)) && ViewAll(r) == old(ViewAll(m)) == ViewAll(m)
  {
    r := CopyEach(m);
    SameViews(m);
  }

  method CopyEach(m: TaskObjects) returns (r: TaskObjects)
    requires Separate(m)
    ensures Separate(r) && fresh(ObjectsOf(r)) && ViewAll(r) == old(ViewAll(m))
  {
    ghost var v := ViewAll(m);
    ghost var made: set<object> := {};
    r := map[];
    var left := m.Keys;
    while left != {}
      invariant left <= m.Keys
      invariant Separate(r) && ObjectsOf(r) <= made && fresh(made)
      invariant ViewAll(r) == v - left
    {
      var id :| id in left;
      assert m[id].View() == v[id] by {
        assert m[id].FileViews() == old(m[id].FileViews());
      }
      ghost var more;
      r, more := CopyOne(m, r, id, v[id]);
      made := made + more;
      OneLess(v, left, id);
      left := left - {id};
    }
    NothingLess(v);
  }

  lemma NothingLess(v: Tasks)
    ensures v - {} == v
  {
  }

  method CopyOne(m: TaskObjects, r: TaskObjects, id: string, ghost v: Task) returns (s: TaskObjects, ghost made: set<object>)
    requires Separate(m) && Separate(r) && id in m && m[id].View() == v
    ensures Separate(s) && fresh(made) && ObjectsOf(s) <= ObjectsOf(r) + made
    ensures ViewAll(s) == old(ViewAll(r))[id := v]
  {
    ghost var before := ObjectsOf(r);
    s := AddCopy(r, m[id]);
    made := ObjectsOf(s) - before;
  }

  /** Replays events over a map, changing the task objects in it. */
  method ApplyEvents(m: TaskObjects, evs: seq<Event>) returns (r: TaskObjects, ok: bool)
    requires Separate(m)
    modifies ObjectsOf(m)
    ensures ok == AllReadable(evs)
    ensures Separate(r) && fresh(ObjectsOf(r) - ObjectsOf(m))
    ensures ok ==> ViewAll(r) == Apply(old(ViewAll(m)), evs)
  {
    ghost var v := ViewAll(m);
    r, ok := m, true;
    NoneApplied(v, evs);
    for i := 0 to |evs|
      invariant Separate(r) && fresh(ObjectsOf(r) - ObjectsOf(m))
      invariant Readable(evs, i) && ViewAll(r) == AppliedUpTo(v, evs, i)
    {
      NextApplied(v, evs, i);
      if evs[i].payload.Unreadable? {
        return r, false;
      }
      r := ApplyOneEvent(r, evs[i]);
    }
    NoneApplied(v, evs);
  }

  ghost predicate Readable(evs: seq<Event>, i: nat)
    requires i <= |evs|
  {
    AllReadable(evs[..i])
  }

  ghost function AppliedUpTo(m: Tasks, evs: seq<Event>, i: nat): Tasks
    requires i <= |evs|
  {
    Apply(m, evs[..i])
  }

  lemma NoneApplied(m: Tasks, evs: seq<Event>)
    ensures AppliedUpTo(m, evs, 0) == m && Readable(evs, 0)
    ensures AppliedUpTo(m, evs, |evs|) == Apply(m, evs) && Readable(evs, |evs|) == AllReadable(evs)
  {
    assert evs[..0] == [] && evs[..|evs|] == evs;
  }

  lemma NextApplied(m: Tasks, evs: seq<Event>, i: nat)
    requires i < |evs|
    ensures AppliedUpTo(m, evs, i + 1) == ApplyEvent(AppliedUpTo(m, evs, i), evs[i])
    ensures Readable(evs, i + 1) <==> Readable(evs, i) && !evs[i].payload.Unreadable?
    ensures evs[i].payload.Unreadable? ==> !AllReadable(evs)
  {
    assert evs[..i + 1][..i] == evs[..i];
    assert evs[..i + 1] == evs[..i] + [evs[i]];
  }

  method ApplyOneEvent(m: TaskObjects, ev: Event) returns (r: TaskObjects)
    requires Separate(m) && !ev.payload.Unreadable?
    modifies ObjectsOf(m)
    ensures Separate(r) && fresh(ObjectsOf(r) - ObjectsOf(m))
    ensures ViewAll(r) == ApplyEvent(old(ViewAll(m)), ev)
  {
    if ev.payload.TaskCreated? {
      if ev.payload.task.Some? {
        r := AddDecoded(m, ev.payload.task.value);
        return;
      }
    } else if ev.taskId in m {
      InObjects(m, ev.taskId);
      ApplyToStored(m, ev);
      EqualTasks(ViewAll(m), ApplyEvent(old(ViewAll(m)), ev));
    }
    return m;
  }

  lemma FootprintsApart(m: TaskObjects, id: string, other: string)
    requires Separate(m) && id in m && other in m && id != other
    ensures m[other] as object !in m[id].Footprint()
    ensures forall f :: f in m[other].files ==> f as object !in m[id].Footprint()
  {
    assert m[other] as object in m[other].Footprint();
    forall f | f in m[other].files ensures f as object !in m[id].Footprint() {
      assert f as object in m[other].Footprint();
    }
  }

  method ApplyToStored(m: TaskObjects, ev: Event)
    requires Separate(m) && ev.taskId in m && !ev.payload.TaskCreated?
    modifies m[ev.taskId].Footprint()
    ensures m[ev.taskId].View() == ApplyToTask(old(m[ev.taskId].View()), ev)
    ensures forall id :: id in m && id != ev.taskId ==> m[id].View() == old(m[id].View())
  {
    m[ev.taskId].ApplyInPlace(ev);
    forall id | id in m && id != ev.taskId ensures m[id].View() == old(m[id].View()) {
      FootprintsApart(m, ev.taskId, id);
      forall i | 0 <= i < |m[id].files| ensures m[id].files[i].View() == old(m[id].files[i].View()) {
        assert m[id].files[i] in m[id].files;
      }
      assert m[id].FileViews() == old(m[id].FileViews());
    }
  }

  method FromValues(ts: seq<Task>) returns (m: TaskObjects)
    ensures Separate(m) && fresh(ObjectsOf(m)) && ViewAll(m) == TasksOf(ts)
  {
    m := map[];
    assert ts[..0] == [];
    for i := 0 to |ts|
      invariant Separate(m) && fresh(ObjectsOf(m)) && ViewAll(m) == TasksOf(ts[..i])
    {
      assert ts[..i + 1][..i] == ts[..i];
      m := AddDecoded(m, ts[i]);
    }
    assert ts[..|ts|] == ts;
  }

  /** Loading: the tasks of a snapshot, then the events logged since. */
  method Rebuild(ts: seq<Task>, evs: seq<Event>) returns (r: TaskObjects, ok: bool)
    ensures ok == AllReadable(evs)
    ensures Separate(r) && fresh(ObjectsOf(r))
    ensures ok ==> ViewAll(r) == Apply(TasksOf(ts), evs)
  {
    r := FromValues(ts);
    r, ok := ApplyEvents(r, evs);
  }
}
