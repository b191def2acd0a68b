/** The task service over the file store: a cache of tasks in front of the store. Whether a service
    caches is fixed when it is made, so the path without a cache is a class of its own (see
    BoltTaskServices). */
module TaskServices {
  import opened Core
  import opened Records
  import opened Replay
  import opened Calls
  import opened CallLaws
  import opened Objects
  import opened TaskStores
  import opened Disks
  import opened SnapshotSteps
  import opened Sorting
  import opened FileTaskStores
  import opened Wal
  import opened Recovery
  import Urls

  datatype ServiceError = ContextDone | Rejected(why: Rejection) | StoreFailed(reason: StoreError)

  function ViewOf(r: Result<TaskObject, ServiceError>): Result<Task, ServiceError>
    reads if r.Success? then {r.value} else {}, if r.Success? then r.value.files else []
  {
    match r
    case Success(t) => Success(t.View())
    case Failure(e) => Failure(e)
  }

  function RejectionError(why: Rejection): ServiceError {
    if why == Rejection.AlreadyExists then StoreFailed(StoreError.AlreadyExists) else Rejected(why)
  }

  datatype Reply = Reply(tasks: Tasks, result: Result<Task, ServiceError>)

  /** What a call leaves and answers, given the fault the store met, if any: a rejected call and a
      call with nothing to store do not reach the store, and a failed store changes nothing. */
  function Serve(m: Tasks, o: Outcome, fault: Option<StoreError>): Reply {
    match o.result
    case Failure(why) => Reply(m, Failure(RejectionError(why)))
    case Success(t) =>
      if o.events != [] && fault.Some? then Reply(m, Failure(StoreFailed(fault.value)))
      else Reply(o.tasks, Success(t))
  }

  /** What an answer means: a task exactly if the call was not turned down and, if it had anything to store, the
      store took it; that task is then the one held. In every other case nothing has changed. */
  lemma AnswerMeans(m: Tasks, c: Call, fault: Option<StoreError>)
    ensures
      var (o, reply) := (Exec(m, c), Serve(m, Exec(m, c), fault));
      && (reply.result.Success? <==> o.result.Success? && (o.events == [] || fault == None))
      && (reply.result.Success? ==>
            reply.tasks == o.tasks && c.id in reply.tasks && reply.result.value == reply.tasks[c.id])
      && (reply.result.Failure? ==> reply.tasks == m)
      && (o.result.Failure? ==>
            reply.result == Failure(if o.result.error == Rejection.AlreadyExists then StoreFailed(StoreError.AlreadyExists)
                                    else Rejected(o.result.error)))
      && (o.result.Success? && o.events != [] && fault.Some? ==> reply.result == Failure(StoreFailed(fault.value)))
  {
    if c.Create? { CreateAnswers(m, c); } else { MarkAnswers(m, c); }
  }

  /** A task v, new or updated, was sent to a store that held m and now holds r: it is stored once its events
      are logged, and one that should not be there, or should, is refused without touching the log. */
  ghost predicate Sent(c: Codec, w: Weather, p: Saved, q: Saved, m: Tasks, r: Tasks, v: Task, evs: seq<Event>,
                       isNew: bool, err: Option<StoreError>)
  {
    SentVerdict(c, w, p, q, m, r, v, evs, isNew, err) == Sound
  }

  ghost function SentVerdict(c: Codec, w: Weather, p: Saved, q: Saved, m: Tasks, r: Tasks, v: Task, evs: seq<Event>,
                             isNew: bool, err: Option<StoreError>): Verdict
  {
    if && r == (if err == None then m[v.id := v] else m)
       && (Unlogged(err) <==> (isNew <==> v.id in m))
       && (isNew && Unlogged(err) ==> err == Some(StoreError.AlreadyExists))
       && Attempted(c, w, p, q, if Unlogged(err) then [] else evs, if Unlogged(err) then None else err)
    then Sound else Unsound
  }

  lemma IsSent(c: Codec, w: Weather, p: Saved, q: Saved, m: Tasks, r: Tasks, v: Task, evs: seq<Event>,
               isNew: bool, err: Option<StoreError>)
    requires r == (if err == None then m[v.id := v] else m)
    requires Unlogged(err) <==> (isNew <==> v.id in m)
    requires isNew && Unlogged(err) ==> err == Some(StoreError.AlreadyExists)
    requires Attempted(c, w, p, q, if Unlogged(err) then [] else evs, if Unlogged(err) then None else err)
    ensures Sent(c, w, p, q, m, r, v, evs, isNew, err)
  {
  }

  lemma ServeMark(m: Tasks, c: Call, o: Outcome)
    requires !c.Create? && ExecMark(m, c) == o
    ensures Exec(m, c) == o && |o.events| <= 3 && (o.result.Success? ==> c.id in m)
    ensures o.result.Failure? ==> o.result.error != Rejection.AlreadyExists
  {
  }

  /** What creating a task under a cleaned list of URLs comes to. */
  function Creation(m: Tasks, id: string, now: Time, urls: seq<string>): Outcome {
    var t := NewTask(id, now, urls);
    if id in m then Reject(m, Rejection.AlreadyExists)
    else Outcome(m[id := t], [Event(LogVersion, id, now, TaskCreated(Some(t)))], Success(t))
  }

  lemma ExecCreate(m: Tasks, c: Call, urls: Result<seq<string>, Urls.UrlError>)
    requires c.Create? && Urls.Normalize(c.rawUrls) == urls
    ensures Exec(m, c) == if urls.Success? then Creation(m, c.id, c.now, urls.value) else Reject(m, BadUrls(urls.error))
  {
  }

  // ---------------------------------------------------------------- shared by both kinds of service

  function ChangedFile(f: File, c: Call): File
    requires !c.Create?
  {
    if c.MarkQueued? then QueuedFile(f) else MarkedFile(f, c)
  }

  method BuildFileEvents(id: string, index: int, f: FileObject, newStatus: TaskStatus, prevStatus: TaskStatus,
                         now: Time, includeMetadata: bool) returns (evs: seq<Event>)
    ensures evs == FileEvents(id, index, f.View(), newStatus, prevStatus, now, includeMetadata)
  {
    evs := [Event(LogVersion, id, now, FileStatusSet(index, f.status, f.error, f.size))];
    if includeMetadata {
      evs := evs + [Event(LogVersion, id, now, FileMetaSet(index, f.filename, f.startedAt, f.completedAt))];
    }
    if newStatus != prevStatus {
      evs := evs + [Event(LogVersion, id, now, TaskStatusSet(newStatus))];
    }
  }

  method ChangeFileInPlace(f: FileObject, c: Call)
    requires !c.Create?
    modifies f
    ensures f.View() == ChangedFile(old(f.View()), c)
  {
    match c
    case MarkStarted(_, _, now) =>
      f.status := FileDownloading;
      f.error := "";
      f.startedAt := Some(now);
    case MarkQueued(_, _, _) =>
      f.status := FileQueued;
      f.error := "";
    case MarkCompleted(_, _, filename, size, now) =>
      f.status := FileCompleted;
      f.completedAt := Some(now);
      if f.startedAt == None {
        f.startedAt := Some(now);
      }
      f.filename := Urls.Trim(filename);
      f.size := size;
      f.error := "";
    case MarkFailed(_, _, msg, now) =>
      f.status := FileError;
      f.error := Urls.Trim(msg);
      f.completedAt := Some(now);
      if f.startedAt == None {
        f.startedAt := Some(now);
      }
  }

  /** The part every Mark operation shares: change the file, derive the task status, list the events. */
  method ChangeInPlace(t: TaskObject, c: Call) returns (evs: seq<Event>)
    requires t.Valid() && !c.Create? && 0 <= c.index < |t.files|
    modifies t, t.files[c.index]
    ensures
      var f := ChangedFile(old(t.files[c.index].View()), c);
      && t.View() == WithFile(old(t.View()), c.index, f, c.now)
      && evs == FileEvents(c.id, c.index, f, t.status, old(t.status), c.now, !c.MarkQueued?)
  {
    var f := t.files[c.index];
    assert f in t.files;
    ChangeFileInPlace(f, c);
    var prev := t.status;
    t.updatedAt := Some(c.now);
    assert t.FileViews() == old(t.FileViews())[c.index := f.View()];
    t.UpdateStatus(c.now);
    evs := BuildFileEvents(c.id, c.index, f, t.status, prev, c.now, !c.MarkQueued?);
  }

  /** From a private copy of the task to its new contents, for an index in range: nothing to do, a
      rejection, or events to store. */
  method MarkCopy(t: TaskObject, c: Call, ghost m: Tasks) returns (why: Option<Rejection>, evs: seq<Event>)
    requires t.Valid() && !c.Create? && 0 <= c.index < |t.files| && (c.MarkCompleted? ==> c.size >= 0)
    requires c.id in m && m[c.id] == t.View()
    modifies t.Footprint()
    ensures why.Some? ==> ExecMark(m, c) == Reject(m, why.value) && evs == []
    ensures why == None ==> ExecMark(m, c) == Outcome(m[c.id := t.View()], evs, Success(t.View()))
    ensures why == None && evs == [] ==> m[c.id := t.View()] == m
  {
    var f := t.files[c.index];
    assert f in t.files;
    if c.MarkQueued? {
      match f.status {
        case FileCompleted => return None, [];
        case FileError => return None, [];
        case FileQueued => return None, [];
        case FileDownloading => return None, [];
        case FileWaiting =>
        case FileOther(_) =>
      }
    } else if f.status == FileCompleted {
      return Some(AlreadyCompleted), [];
    }
    evs := ChangeInPlace(t, c);
    why := None;
  }

  // ---------------------------------------------------------------- the cached service

  class TaskService {
    const store: FileTaskStore
    var tasks: TaskObjects

    /** Store and cache hold equal tasks in disjoint objects. */
    ghost predicate Valid()
      reads this, store, store.disk, store.log, ObjectsOf(tasks), ObjectsOf(store.tasks)
    {
      && store.Valid() && Separate(tasks)
      && ObjectsOf(tasks) !! ObjectsOf(store.tasks)
      && View() == store.View()
    }

    ghost function View(): Tasks
      reads this`tasks, ObjectsOf(tasks)
    {
      ViewAll(tasks)
    }

    constructor (store: FileTaskStore, tasks: TaskObjects)
      requires store.Valid() && Separate(tasks) && ObjectsOf(tasks) !! ObjectsOf(store.tasks) && ViewAll(tasks) == store.View()
      ensures this.store == store && this.tasks == tasks && Valid() && View() == old(ViewAll(tasks))
    {
      this.store, this.tasks := store, tasks;
      new;
      SameViews(tasks);
      SameViews(store.tasks);
    }

    /** A private copy of a stored task, if the index names one of its files. */
    method CloneForUpdate(id: string, index: int) returns (r: Result<TaskObject, Rejection>)
      requires Separate(tasks)
      ensures id !in tasks ==> r == Failure(Rejection.NotFound)
      ensures id in tasks && !(0 <= index < |tasks[id].files|) ==> r == Failure(BadIndex)
      ensures id in tasks && 0 <= index < |tasks[id].files| ==> r.Success?
      ensures r.Success? ==>
                && r.value.Valid() && fresh(r.value.Footprint()) && r.value.View() == old(View())[id]
                && 0 <= index < |r.value.files|
    {
      if id !in tasks {
        return Failure(Rejection.NotFound);
      }
      if index < 0 || index >= |tasks[id].files| {
        return Failure(BadIndex);
      }
      var c := tasks[id].CloneTask();
      return Success(c);
    }

    /** Everything a Mark operation does before it turns to the store. */
    method PrepareMark(c: Call) returns (r: Result<TaskObject, Rejection>, evs: seq<Event>)
      requires Separate(tasks) && !c.Create?
      ensures r.Failure? ==> ExecMark(old(View()), c) == Reject(old(View()), r.error)
      ensures r.Success? ==>
                && r.value.Valid() && fresh(r.value.Footprint()) && r.value.id == c.id && c.id in tasks
                && ExecMark(old(View()), c) == Outcome(old(View())[c.id := r.value.View()], evs, Success(r.value.View()))
                && (evs == [] ==> old(View())[c.id := r.value.View()] == old(View()))
    {
      if c.MarkCompleted? && c.size < 0 {
        return Failure(BadSize), [];
      }
      r := CloneForUpdate(c.id, c.index);
      if r.Failure? {
        return r, [];
      }
      var why;
      why, evs := MarkCopy(r.value, c, old(View()));
      if why.Some? {
        return Failure(why.value), [];
      }
    }

    ghost predicate Disjoint()
      reads this`tasks, store`tasks
    {
      ObjectsOf(tasks) !! ObjectsOf(store.tasks)
    }

    /** Sends a new or an updated task and its events to the store, which adds only new objects. */
    method Send(c: TaskObject, evs: seq<Event>, isNew: bool, w: Weather) returns (err: Option<StoreError>)
      requires store.Valid() && c.Valid() && (isNew ==> |evs| == 1)
      modifies store`tasks, store`logged, store`safe, store.log, store.disk
      ensures store.Valid() && fresh(ObjectsOf(store.tasks) - old(ObjectsOf(store.tasks)))
      ensures Sent(store.codec, w, old(store.Durably()), store.Durably(), old(store.View()), store.View(), old(c.View()), evs, isNew, err)
    {
      ghost var p, m, v := store.Durably(), store.View(), c.View();
      if isNew {
        assert evs == [evs[0]];
        err := store.CreateTask(c, evs[0], w);
      } else {
        err := store.UpdateTask(c, evs, w);
      }
      IsSent(store.codec, w, p, store.Durably(), m, store.View(), v, evs, isNew, err);
    }

    method SendApart(c: TaskObject, evs: seq<Event>, isNew: bool, w: Weather) returns (err: Option<StoreError>)
      requires store.Valid() && c.Valid() && Disjoint() && (isNew ==> |evs| == 1)
      modifies store`tasks, store`logged, store`safe, store.log, store.disk
      ensures store.Valid() && Disjoint()
      ensures Sent(store.codec, w, old(store.Durably()), store.Durably(), old(store.View()), store.View(), old(c.View()), evs, isNew, err)
    {
      ghost var cached, stored := ObjectsOf(tasks), ObjectsOf(store.tasks);
      err := Send(c, evs, isNew, w);
      StillApart(cached, stored, ObjectsOf(store.tasks));
    }

    /** No task object in the cache, nor the private one, changes when a copy is sent. */
    method SendCopy(t: TaskObject, c: TaskObject, evs: seq<Event>, isNew: bool, w: Weather)
      returns (err: Option<StoreError>)
      requires store.Valid() && c.Valid() && Disjoint() && (isNew ==> |evs| == 1)
      modifies store`tasks, store`logged, store`safe, store.log, store.disk
      ensures store.Valid() && Disjoint() && View() == old(View()) && t.View() == old(t.View())
      ensures Sent(store.codec, w, old(store.Durably()), store.Durably(), old(store.View()), store.View(), old(c.View()), evs, isNew, err)
    {
      err := SendApart(c, evs, isNew, w);
      SameViews(tasks);
    }

    method Replace(r: TaskObjects)
      modifies this`tasks
      ensures tasks == r && View() == old(ViewAll(r)) && store.View() == old(store.View())
    {
      tasks := r;
      SameViews(r);
      SameViews(store.tasks);
    }

    method AddToCache(t: TaskObject) returns (r: TaskObjects)
      requires Separate(tasks) && t.Valid() && Disjoint()
      ensures Separate(r) && ObjectsOf(r) !! ObjectsOf(store.tasks)
      ensures ViewAll(r) == old(View())[t.id := old(t.View())] && store.View() == old(store.View())
    {
      ghost var stored, cached := ObjectsOf(store.tasks), ObjectsOf(tasks);
      r := AddCopy(tasks, t);
      assert stored !! (ObjectsOf(r) - cached);
      SameViews(store.tasks);
    }

    /** Puts a copy of the updated task in the cache; what the store holds is not touched. */
    method Publish(t: TaskObject, ghost m: Tasks, ghost v: Task)
      requires store.Valid() && Separate(tasks) && Disjoint() && t.Valid() && t.View() == v
      requires View() == m && store.View() == m[v.id := v]
      modifies this`tasks
      ensures Valid() && View() == m[v.id := v] && t.View() == v && store.Durably() == old(store.Durably())
    {
      var r := AddToCache(t);
      Replace(r);
    }

    /** A copy for the caller, apart from what store and cache hold. */
    method CopyForCaller(t: TaskObject) returns (r: TaskObject)
      requires t.Valid()
      ensures r.Valid() && fresh(r.Footprint()) && r.View() == t.View() == old(t.View())
      ensures r.Footprint() !! ObjectsOf(tasks) && r.Footprint() !! ObjectsOf(store.tasks)
      ensures View() == old(View()) && store.View() == old(store.View())
    {
      ghost var held := ObjectsOf(tasks) + ObjectsOf(store.tasks);
      r := t.CloneTask();
      assert held !! r.Footprint();
      SameViews(tasks);
      SameViews(store.tasks);
    }

    /** CopyForCaller between two steps of a call: nothing the service holds has changed. */
    method HandOut(t: TaskObject) returns (r: TaskObject)
      requires Valid() && t.Valid()
      ensures r.Valid() && fresh(r.Footprint()) && r.View() == t.View() == old(t.View())
      ensures r.Footprint() !! ObjectsOf(tasks) && r.Footprint() !! ObjectsOf(store.tasks)
      ensures Valid() && View() == old(View()) && store.Durably() == old(store.Durably())
    {
      r := CopyForCaller(t);
    }

    /** Store first, then cache: t is private to the caller, sent a copy of it. */
    method SendAndPublish(t: TaskObject, sent: TaskObject, evs: seq<Event>, isNew: bool, w: Weather,
                          ghost v: Task) returns (err: Option<StoreError>)
      requires Valid() && t.Valid() && sent.Valid() && t.View() == sent.View() == v && (isNew ==> |evs| == 1)
      modifies this`tasks, store`tasks, store`logged, store`safe, store.log, store.disk
      ensures Valid() && t.View() == v
      ensures Sent(store.codec, w, old(store.Durably()), store.Durably(), old(View()), View(), v, evs, isNew, err)
    {
      ghost var m := View();
      err := SendCopy(t, sent, evs, isNew, w);
      if err == None {
        Publish(t, m, v);
      }
    }

    method Prepare(c: Call) returns (r: Result<TaskObject, Rejection>, evs: seq<Event>)
      requires Separate(tasks) && !c.Create?
      ensures View() == old(View()) && store.View() == old(store.View())
      ensures r.Failure? ==> ExecMark(View(), c) == Reject(View(), r.error)
      ensures r.Success? ==>
                && r.value.Valid() && r.value.id == c.id
                && ExecMark(View(), c) == Outcome(View()[c.id := r.value.View()], evs, Success(r.value.View()))
                && (evs == [] ==> View()[c.id := r.value.View()] == View())
    {
      r, evs := PrepareMark(c);
      SameViews(tasks);
      SameViews(store.tasks);
    }

    /** Whatever is to be done with a prepared task: a task with no events only goes to the cache. */
    method Commit(t: TaskObject, evs: seq<Event>, isNew: bool, w: Weather, ghost m: Tasks, ghost v: Task)
      returns (err: Option<StoreError>)
      requires Valid() && View() == m && t.Valid() && t.View() == v
      requires (evs == [] ==> m == m[v.id := v]) && (isNew ==> |evs| == 1)
      modifies this`tasks, store`tasks, store`logged, store`safe, store.log, store.disk
      ensures Valid() && View() == (if err == None then m[v.id := v] else m) && t.View() == v
      ensures evs == [] ==> err == None
      ensures evs != [] ==> (Unlogged(err) <==> (isNew <==> v.id in m))
      ensures isNew && Unlogged(err) ==> err == Some(StoreError.AlreadyExists)
      ensures Attempted(store.codec, w, old(store.Durably()), store.Durably(), if Unlogged(err) then [] else evs, if Unlogged(err) then None else err)
    {
      if |evs| == 0 {
        Publish(t, m, v);
        AttemptedNothing(store.codec, w, old(store.Durably()));
        return None;
      }
      var sent := HandOut(t);
      err := SendAndPublish(t, sent, evs, isNew, w, v);
    }

    /** The second half of a Mark operation: t holds what the outcome o says. */
    method CommitChange(t: TaskObject, evs: seq<Event>, w: Weather, ghost o: Outcome, ghost v: Task)
      returns (r: Result<TaskObject, ServiceError>, ghost fault: Option<StoreError>)
      requires Valid() && t.Valid() && t.View() == v && v.id in View() && |evs| <= 3
      requires o == Outcome(View()[v.id := v], evs, Success(v)) && (evs == [] ==> View() == o.tasks)
      modifies this`tasks, store`tasks, store`logged, store`safe, store.log, store.disk
      ensures Valid() && Reply(View(), ViewOf(r)) == Serve(old(View()), o, fault)
      ensures r.Success? ==> r.value.Valid()
      ensures Attempted(store.codec, w, old(store.Durably()), store.Durably(), o.events, fault)
    {
      var err := Commit(t, evs, false, w, View(), v);
      fault := err;
      r := if err.Some? then Failure(StoreFailed(err.value)) else Success(t);
    }

    /** A Mark operation on a live context, up to the task it worked on. */
    method PrepareAndCommit(c: Call, w: Weather, ghost o: Outcome)
      returns (r: Result<TaskObject, ServiceError>, ghost fault: Option<StoreError>)
      requires Valid() && !c.Create? && o == ExecMark(View(), c)
      modifies this`tasks, store`tasks, store`logged, store`safe, store.log, store.disk
      ensures Valid() && Reply(View(), ViewOf(r)) == Serve(old(View()), o, fault)
      ensures r.Success? ==> r.value.Valid()
      ensures Attempted(store.codec, w, old(store.Durably()), store.Durably(), o.events, fault)
    {
      ghost var m := View();
      var t, evs := Prepare(c);
      ServeMark(m, c, o);
      if t.Failure? {
        AttemptedNothing(store.codec, w, store.Durably());
        return Failure(Rejected(t.error)), None;
      }
      r, fault := CommitChange(t.value, evs, w, o, t.value.View());
    }

    /** CreateTask with a cleaned list of URLs, up to the task it made. */
    method MakeAndCommit(id: string, now: Time, urls: seq<string>, w: Weather, ghost o: Outcome)
      returns (r: Result<TaskObject, ServiceError>, ghost fault: Option<StoreError>)
      requires Valid() && o == Creation(View(), id, now, urls)
      modifies this`tasks, store`tasks, store`logged, store`safe, store.log, store.disk
      ensures Valid() && Reply(View(), ViewOf(r)) == Serve(old(View()), o, fault)
      ensures r.Success? ==> r.value.Valid()
      ensures Attempted(store.codec, w, old(store.Durably()), store.Durably(), o.events, fault)
    {
      ghost var m := View();
      var t := NewObject(id, now, urls);
      var err := CommitNew(t, id, now, w, m, t.View());
      fault := if id in m then None else err;
      r := if err.Some? then Failure(StoreFailed(err.value)) else Success(t);
    }

    /** A new task object; store and cache are as they were. */
    method NewObject(id: string, now: Time, urls: seq<string>) returns (t: TaskObject)
      requires Valid()
      ensures t.Valid() && t.View() == NewTask(id, now, urls)
      ensures Valid() && View() == old(View()) && store.Durably() == old(store.Durably())
    {
      t := MakeTask(id, now, urls);
      SameViews(tasks);
      SameViews(store.tasks);
    }

    method CommitNew(t: TaskObject, id: string, now: Time, w: Weather, ghost m: Tasks, ghost v: Task)
      returns (err: Option<StoreError>)
      requires Valid() && View() == m && t.Valid() && t.View() == v && v.id == id
      modifies this`tasks, store`tasks, store`logged, store`safe, store.log, store.disk
      ensures Valid() && View() == (if err == None then m[v.id := v] else m) && t.View() == v
      ensures id in m <==> Unlogged(err)
      ensures Unlogged(err) ==> err == Some(StoreError.AlreadyExists)
      ensures
        Attempted(store.codec, w, old(store.Durably()), store.Durably(),
             if Unlogged(err) then [] else [Event(LogVersion, id, now, TaskCreated(Some(v)))],
             if Unlogged(err) then None else err)
    {
      var ev := Event(LogVersion, id, now, TaskCreated(Some(t.View())));
      err := Commit(t, [ev], true, w, m, v);
    }

    /** Cleaning up URLs leaves store and cache as they were. */
    method CleanUrls(raw: seq<string>) returns (urls: Result<seq<string>, Urls.UrlError>)
      requires Valid()
      ensures urls == Urls.Normalize(raw)
      ensures Valid() && View() == old(View()) && store.Durably() == old(store.Durably())
    {
      urls := Urls.NormalizeUrls(raw);
      SameViews(tasks);
      SameViews(store.tasks);
    }

    /** A call that changes tasks, up to the task it worked on. */
    method Carry(c: Call, w: Weather) returns (r: Result<TaskObject, ServiceError>, ghost fault: Option<StoreError>)
      requires Valid()
      modifies this`tasks, store`tasks, store`logged, store`safe, store.log, store.disk
      ensures Valid() && Reply(View(), ViewOf(r)) == Serve(old(View()), Exec(old(View()), c), fault)
      ensures r.Success? ==> r.value.Valid()
      ensures Attempted(store.codec, w, old(store.Durably()), store.Durably(), Exec(old(View()), c).events, fault)
    {
      ghost var o := Exec(View(), c);
      if !c.Create? {
        r, fault := PrepareAndCommit(c, w, o);
        return;
      }
      var urls := CleanUrls(c.rawUrls);
      ExecCreate(View(), c, urls);
      if urls.Failure? {
        AttemptedNothing(store.codec, w, store.Durably());
        return Failure(Rejected(BadUrls(urls.error))), None;
      }
      r, fault := MakeAndCommit(c.id, c.now, urls.value, w, o);
    }

    /** A call that changes tasks. The task handed back shares nothing with store or cache. */
    method Perform(c: Call, live: bool, w: Weather) returns (r: Result<TaskObject, ServiceError>, ghost fault: Option<StoreError>)
      requires Valid()
      modifies this`tasks, store`tasks, store`logged, store`safe, store.log, store.disk
      ensures Valid()
      ensures live ==> Reply(View(), ViewOf(r)) == Serve(old(View()), Exec(old(View()), c), fault)
      ensures !live ==> r == Failure(ContextDone) && View() == old(View()) && store.Durably() == old(store.Durably())
      ensures r.Success? ==>
                && r.value.Valid() && fresh(r.value.Footprint())
                && r.value.Footprint() !! ObjectsOf(tasks) && r.value.Footprint() !! ObjectsOf(store.tasks)
      ensures live ==> Attempted(store.codec, w, old(store.Durably()), store.Durably(), Exec(old(View()), c).events, fault)
    {
      if !live {
        return Failure(ContextDone), None;
      }
      r, fault := Carry(c, w);
      if r.Success? {
        var out := HandOut(r.value);
        r := Success(out);
      }
    }

    /** Perform beside a task object that someone still reads. */
    method PerformBeside(t: TaskObject, c: Call, w: Weather) returns (r: Result<TaskObject, ServiceError>)
      requires Valid()
      modifies this`tasks, store`tasks, store`logged, store`safe, store.log, store.disk
      ensures Valid() && t.View() == old(t.View())
    {
      ghost var fault;
      r, fault := Perform(c, true, w);
    }

    /** The cached task. */
    method GetTask(id: string, live: bool) returns (r: Result<TaskObject, ServiceError>)
      requires Separate(tasks)
      ensures !live ==> r == Failure(ContextDone)
      ensures live && id !in tasks ==> r == Failure(Rejected(Rejection.NotFound))
      ensures live && id in tasks ==>
                && r.Success? && r.value.Valid() && r.value.View() == old(View())[id] && fresh(r.value.Footprint())
                && r.value.Footprint() !! ObjectsOf(tasks) && r.value.Footprint() !! ObjectsOf(store.tasks)
      ensures View() == old(View()) && store.View() == old(store.View())
    {
      if !live {
        return Failure(ContextDone);
      }
      if id !in tasks {
        return Failure(Rejected(Rejection.NotFound));
      }
      var t := CopyForCaller(tasks[id]);
      return Success(t);
    }

    /** GetTask in two steps with whole calls in between: the lookup reads the map under the lock, the
        copy is made after it is released. Published objects are replaced and never written, so the
        copy is the task as it was at the lookup. */
    method GetTaskAround(id: string, calls: seq<Call>, w: Weather) returns (r: TaskObject)
      requires Valid() && id in tasks
      modifies this`tasks, store`tasks, store`logged, store`safe, store.log, store.disk
      ensures Valid() && r.Valid() && fresh(r.Footprint()) && r.View() == old(View())[id]
      ensures r.Footprint() !! ObjectsOf(tasks) && r.Footprint() !! ObjectsOf(store.tasks)
    {
      var t := tasks[id];
      PerformAllBeside(t, calls, w);
      r := HandOut(t);
    }

    method PerformAllBeside(t: TaskObject, calls: seq<Call>, w: Weather)
      requires Valid()
      modifies this`tasks, store`tasks, store`logged, store`safe, store.log, store.disk
      ensures Valid() && t.View() == old(t.View())
    {
      for i := 0 to |calls|
        invariant Valid() && t.View() == old(t.View())
      {
        var answer := PerformBeside(t, calls[i], w);
      }
    }

    /** Sorting writes no task object, of the cache or of the copies. */
    method SortCopies(copies: TaskObjects) returns (ts: seq<TaskObject>)
      requires Separate(copies)
      ensures Sorted(ts) && Lists(ts, copies) && ViewAll(copies) == old(ViewAll(copies)) && View() == old(View())
    {
      ts := SortTasks(copies);
      SameViews(copies);
      SameViews(tasks);
    }

    /** Copies of all tasks, sorted. */
    method SortedTasks(live: bool) returns (r: Result<seq<TaskObject>, ServiceError>, ghost m: TaskObjects)
      requires Separate(tasks)
      ensures r.Success? <==> live
      ensures r.Success? ==>
                && Sorted(r.value) && Lists(r.value, m)
                && Separate(m) && fresh(ObjectsOf(m)) && ViewAll(m) == View() == old(View())
    {
      m := map[];
      if !live {
        return Failure(ContextDone), m;
      }
      var copies := CopyTasks(tasks);
      var ts := SortCopies(copies);
      return Success(ts), copies;
    }

    method SnapStore(createdAt: Time, faults: set<Step>) returns (o: SnapshotOutcome, ghost ss: Snapshot)
      requires store.Valid()
      modifies store`log, store`logged, store`safe, store.log, store.disk
      ensures store.Valid() && TasksOf(ss.tasks) == old(store.View()) == store.View() && View() == old(View())
      ensures store.log == old(store.log) || store.log == null || fresh(store.log)
      ensures Snapped(old(store.Durably()), store.Durably(), ss, o, faults)
    {
      o, ss := store.FlushSnapshot(createdAt, faults);
      SameViews(tasks);
    }

    /** A snapshot touches no task object, of the store or of the cache. */
    method FlushSnapshot(createdAt: Time, faults: set<Step>) returns (o: SnapshotOutcome, ghost ss: Snapshot)
      requires Valid()
      modifies store`log, store`logged, store`safe, store.log, store.disk
      ensures Valid() && View() == old(View()) && TasksOf(ss.tasks) == View()
      ensures store.log == old(store.log) || store.log == null || fresh(store.log)
      ensures Snapped(old(store.Durably()), store.Durably(), ss, o, faults)
    {
      o, ss := SnapStore(createdAt, faults);
    }
  }

  /** A service over a freshly loaded store. */
  method NewTaskService(store: FileTaskStore, live: bool, stopAt: Option<nat>) returns (r: Result<TaskService, StoreError>)
    requires store.Valid()
    modifies store`tasks, store`logged, store`safe
    ensures store.Valid()
    ensures !live ==> r == Failure(StoreError.Cancelled)
    ensures r.Failure? ==> store.Durably() == old(store.Durably())
    ensures
      var err := LoadError(store.codec, store.disk.State(), stopAt);
      live ==> if err.Some? then r == Failure(err.value) else r.Success?
    ensures r.Success? ==>
              && fresh(r.value) && r.value.store == store && r.value.Valid()
              && Recover(store.codec, store.disk.State()) == Success(r.value.View())
              && ReadEvents(store.codec, LogText(store.disk.State())) == Success(store.logged)
              && store.Durably() == old(store.Durably()).(logged := store.logged, safe := |store.logged|)
  {
    var err, loaded := store.LoadAll(live, stopAt);
    if err.Some? {
      return Failure(err.value);
    }
    var svc := Cached(store, loaded);
    return Success(svc);
  }

  /** Copies of loaded tasks; the store keeps its own as they are. */
  method CopyLoaded(store: FileTaskStore, loaded: TaskObjects) returns (copies: TaskObjects)
    requires Separate(loaded)
    ensures Separate(copies) && fresh(ObjectsOf(copies)) && ViewAll(copies) == old(ViewAll(loaded))
    ensures store.View() == old(store.View())
  {
    copies := CopyTasks(loaded);
    SameViews(store.tasks);
  }

  method CopyApart(store: FileTaskStore, loaded: TaskObjects) returns (copies: TaskObjects)
    requires store.Valid() && Separate(loaded) && ViewAll(loaded) == store.View()
    ensures store.Valid() && Separate(copies) && ObjectsOf(copies) !! ObjectsOf(store.tasks)
    ensures ViewAll(copies) == store.View() == old(store.View())
  {
    ghost var stored := ObjectsOf(store.tasks);
    copies := CopyLoaded(store, loaded);
    assert stored !! ObjectsOf(copies);
  }

  method Cached(store: FileTaskStore, loaded: TaskObjects) returns (svc: TaskService)
    requires store.Valid() && Separate(loaded) && ViewAll(loaded) == store.View()
    ensures fresh(svc) && svc.store == store && svc.Valid() && svc.View() == old(store.View())
  {
    var copies := CopyApart(store, loaded);
    svc := new TaskService(store, copies);
  }

  // ---------------------------------------------------------------- memory, cache and disk over a call

  /** The disk rebuilds m, m is in order, and nothing is later than now. */
  ghost predicate Ready(c: Codec, p: Saved, m: Tasks, now: Time) {
    Rebuilds(c, p) == Some(m) && Good(m) && AllNotAfter(m, now) && Early(p, now)
  }

  /** A call that meets no fault leaves disk and memory in step exactly if its lines can be read back;
      one that does leaves the disk as it was, if there is no trace of it in the log. */
  lemma CallKeepsReady(c: Codec, w: Weather, p: Saved, q: Saved, m: Tasks, call: Call, fault: Option<StoreError>)
    requires Ready(c, p, m, call.now) && Tried(c, w, p, q, Exec(m, call).events, fault == None)
    ensures fault == None ==> (Ready(c, q, Exec(m, call).tasks, call.now) <==> Fits(c, Exec(m, call).events))
    ensures fault.Some? && Quiet(q) && q.disk.wal == p.disk.wal ==> Ready(c, q, m, call.now)
  {
    var evs := Exec(m, call).events;
    ExecKeepsGood(m, call);
    EventsRecoverCall(m, call);
    TriedIsWrote(c, w, p, q, evs, fault == None);
    WroteRebuilds(c, p, q, evs, fault == None, call.now);
    if fault == None {
      FitsConcat(c, p.logged, evs);
      AcknowledgedIsLogged(c, p, q, evs);
    }
  }

  lemma AcknowledgedIsLogged(c: Codec, p: Saved, q: Saved, evs: seq<Event>)
    requires Wrote(c, p, q, evs, true) && Quiet(p)
    ensures q.logged == p.logged + evs
  {
    assert evs[..|evs|] == evs;
    assert p.logged + [] == p.logged;
  }

  /** An acknowledged call whose line is over the scan limit, or a log that already holds one, keeps
      every later restart from loading. */
  lemma LongLineStopsRestart(c: Codec, w: Weather, p: Saved, q: Saved, m: Tasks, call: Call)
    requires Lossless(c) && Ready(c, p, m, call.now) && Tried(c, w, p, q, Exec(m, call).events, true)
    requires Clean(c, Exec(m, call).events)
    ensures Recover(c, q.disk) == if Short(c, Exec(m, call).events) then Success(Exec(m, call).tasks) else Failure(BadLog(LineTooLong))
  {
    var evs := Exec(m, call).events;
    ExecKeepsGood(m, call);
    EventsRecoverCall(m, call);
    TriedIsWrote(c, w, p, q, evs, true);
    var n: nat :| WroteN(c, p, q, evs, true, n);
    AcknowledgedIsLogged(c, p, q, evs);
    if evs != [] {
      OkIsWhole(c, p, q, evs, n);
    } else {
      assert EncodeAll(c, evs) == "" && LogText(p.disk) + "" == LogText(p.disk);
    }
    EncodeAllConcat(c, p.logged, evs);
    ShortConcat(c, p.logged, evs);
    LogReloadsIff(c, q.disk, q.logged);
    ApplyConcat(SnapshotTasks(p.disk.snapshot), p.logged, evs);
  }

  lemma ShortConcat(c: Codec, a: seq<Event>, b: seq<Event>)
    ensures Short(c, a + b) <==> Short(c, a) && Short(c, b)
    ensures Clean(c, a + b) <==> Clean(c, a) && Clean(c, b)
    ensures AllReadable(a + b) <==> AllReadable(a) && AllReadable(b)
  {
    var all := a + b;
    assert forall i :: 0 <= i < |a| ==> all[i] == a[i];
    assert forall i :: 0 <= i < |b| ==> all[|a| + i] == b[i];
  }
}
