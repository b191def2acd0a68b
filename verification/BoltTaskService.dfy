/** The task service over the database store: no cache, each call loads the task, changes its copy and
    stores it back. */
module BoltTaskServices {
  import opened Core
  import opened Records
  import opened Replay
  import opened Calls
  import opened Runs
  import opened Objects
  import opened TaskStores
  import opened BoltTaskStores
  import opened Wal
  import opened Recovery
  import opened Sorting
  import opened FileTaskStores
  import opened TaskServices
  import Urls

  /** What a call comes to without a cache. Looking up an unknown id gives an empty task, so a Mark
      call on one is rejected for its index. */
  function ExecUncached(m: Tasks, c: Call): Outcome {
    if !c.Create? && c.id !in m && !(c.MarkCompleted? && c.size < 0) then Reject(m, BadIndex)
    else Exec(m, c)
  }

  /** What a transaction that has something to store comes to. */
  function StoreFault(stores: bool, commits: bool): Option<StoreError> {
    if !stores then Some(StoreError.Cancelled) else if !commits then Some(NotCommitted) else None
  }

  class BoltTaskService {
    const bolt: BoltTaskStore

    ghost predicate Valid()
      reads this, bolt
    {
      bolt.Valid()
    }

    ghost function View(): Tasks
      reads this, bolt
    {
      bolt.bucket
    }

    constructor (bolt: BoltTaskStore)
      ensures this.bolt == bolt
    {
      this.bolt := bolt;
    }

    /** A private copy of a stored task, if the index names one of its files. */
    method LoadForUpdate(id: string, index: int, loads: bool) returns (r: Result<TaskObject, ServiceError>)
      requires Valid()
      ensures !loads ==> r == Failure(StoreFailed(StoreError.Cancelled))
      ensures loads && id !in View() ==> r == Failure(Rejected(BadIndex))
      ensures loads && id in View() && !(0 <= index < |View()[id].files|) ==> r == Failure(Rejected(BadIndex))
      ensures loads && id in View() && 0 <= index < |View()[id].files| ==> r.Success? && r.value.View() == View()[id]
      ensures r.Success? ==> r.value.Valid() && fresh(r.value.Footprint())
    {
      var err, t := bolt.GetTaskByID(id, loads);
      if err.Some? {
        return Failure(StoreFailed(err.value));
      }
      if index < 0 || index >= |t.files| {
        return Failure(Rejected(BadIndex));
      }
      var c := t.CloneTask();
      return Success(c);
    }

    /** loads and stores say whether the context still lives at the load and at the store, commits
        whether the storing transaction goes through. */
    method Mark(c: Call, loads: bool, stores: bool, commits: bool)
      returns (r: Result<TaskObject, ServiceError>, ghost fault: Option<StoreError>)
      requires Valid() && !c.Create?
      modifies bolt
      ensures Valid()
      ensures loads ==>
                && Reply(View(), ViewOf(r)) == Serve(old(View()), ExecUncached(old(View()), c), fault)
                && fault == if ExecUncached(old(View()), c).events == [] then None else StoreFault(stores, commits)
      ensures !loads ==>
                && r == Failure(if c.MarkCompleted? && c.size < 0 then Rejected(BadSize) else StoreFailed(StoreError.Cancelled))
                && View() == old(View())
      ensures r.Success? ==> r.value.Valid() && fresh(r.value.Footprint())
    {
      ghost var m := View();
      if c.MarkCompleted? && c.size < 0 {
        return Failure(Rejected(BadSize)), None;
      }
      var l := LoadForUpdate(c.id, c.index, loads);
      if l.Failure? {
        return l, None;
      }
      var t := l.value;
      var why, evs := MarkCopy(t, c, m);
      if why.Some? {
        return Failure(Rejected(why.value)), None;
      }
      r, fault := StoreMarked(t, evs, stores, commits, c.id);
    }

    /** Stores a changed copy, if there is anything to store, and hands out another. */
    method StoreMarked(t: TaskObject, evs: seq<Event>, stores: bool, commits: bool, ghost id: string)
      returns (r: Result<TaskObject, ServiceError>, ghost fault: Option<StoreError>)
      requires Valid() && t.Valid() && t.View().id == id && id in View()
      modifies bolt
      ensures Valid()
      ensures fault.Some? ==> r == Failure(StoreFailed(fault.value)) && evs != [] && View() == old(View())
      ensures fault == None ==> ViewOf(r) == Success(old(t.View())) && r.value.Valid() && fresh(r.value.Footprint())
      ensures fault == None ==> View() == if evs == [] then old(View()) else old(View())[id := old(t.View())]
      ensures fault == if evs == [] then None else StoreFault(stores, commits)
    {
      fault := None;
      if |evs| > 0 {
        var sent := t.CloneTask();
        var err := bolt.UpdateTask(sent, stores, commits);
        fault := err;
        if err.Some? {
          return Failure(StoreFailed(err.value)), fault;
        }
      }
      var out := t.CloneTask();
      return Success(out), fault;
    }

    method CreateTask(c: Call, stores: bool, commits: bool)
      returns (r: Result<TaskObject, ServiceError>, ghost fault: Option<StoreError>)
      requires Valid() && c.Create?
      modifies bolt
      ensures Valid()
      ensures stores ==>
                && Reply(View(), ViewOf(r)) == Serve(old(View()), Exec(old(View()), c), fault)
                && fault == if Exec(old(View()), c).events == [] then None else StoreFault(stores, commits)
      ensures !stores ==>
                && View() == old(View())
                && r == Failure(match Urls.Normalize(c.rawUrls)
                                case Failure(why) => Rejected(BadUrls(why))
                                case Success(_) => StoreFailed(StoreError.Cancelled))
      ensures r.Success? ==> r.value.Valid() && fresh(r.value.Footprint())
    {
      ghost var m := View();
      var urls := Urls.NormalizeUrls(c.rawUrls);
      ExecCreate(m, c, urls);
      if urls.Failure? {
        return Failure(Rejected(BadUrls(urls.error))), None;
      }
      var t := MakeTask(c.id, c.now, urls.value);
      var sent := t.CloneTask();
      var err := bolt.CreateTask(sent, stores, commits);
      fault := if c.id in m then None else err;
      if err.Some? {
        return Failure(StoreFailed(err.value)), fault;
      }
      var out := t.CloneTask();
      return Success(out), fault;
    }

    /** A call that changes tasks; loads and stores say whether the context still lives when the task is
        loaded and when it is stored. */
    method Perform(c: Call, live: bool, loads: bool, stores: bool, commits: bool)
      returns (r: Result<TaskObject, ServiceError>, ghost fault: Option<StoreError>)
      requires Valid()
      modifies bolt
      ensures Valid()
      // What is looked up and stored while the context lives.
      ensures live && (if c.Create? then stores else loads) ==>
                var o := ExecUncached(old(View()), c);
                && Reply(View(), ViewOf(r)) == Serve(old(View()), o, fault)
                && fault == if o.events == [] then None else StoreFault(stores, commits)
      // What a context that has ended by then, or before, makes of the call.
      ensures !live ==> r == Failure(ContextDone) && View() == old(View())
      ensures live && c.Create? && !stores ==>
                && View() == old(View())
                && r == Failure(match Urls.Normalize(c.rawUrls)
                                case Failure(why) => Rejected(BadUrls(why))
                                case Success(_) => StoreFailed(StoreError.Cancelled))
      ensures live && !c.Create? && !loads ==>
                && View() == old(View())
                && r == Failure(if c.MarkCompleted? && c.size < 0 then Rejected(BadSize) else StoreFailed(StoreError.Cancelled))
      ensures r.Success? ==> r.value.Valid() && fresh(r.value.Footprint())
    {
      if !live {
        return Failure(ContextDone), None;
      }
      if c.Create? {
        r, fault := CreateTask(c, stores, commits);
      } else {
        r, fault := Mark(c, loads, stores, commits);
      }
    }

    /** Unlike the cached service, an unknown id is answered with an empty task. */
    method GetTask(id: string, live: bool, loads: bool) returns (r: Result<TaskObject, ServiceError>)
      requires Valid()
      ensures !live ==> r == Failure(ContextDone)
      ensures live && !loads ==> r == Failure(StoreFailed(StoreError.Cancelled))
      ensures live && loads ==> r.Success? && r.value.Valid() && fresh(r.value.Footprint())
      ensures live && loads ==> r.value.View() == if id in View() then View()[id] else EmptyTask
    {
      if !live {
        return Failure(ContextDone);
      }
      var err, t := bolt.GetTaskByID(id, loads);
      if err.Some? {
        return Failure(StoreFailed(err.value));
      }
      var out := t.CloneTask();
      return Success(out);
    }

    method SortedTasks(live: bool, loads: bool) returns (r: Result<seq<TaskObject>, ServiceError>, ghost m: TaskObjects)
      requires Valid()
      ensures r.Success? <==> live && loads
      ensures r.Success? ==>
                && Sorted(r.value) && Lists(r.value, m)
                && Separate(m) && fresh(ObjectsOf(m)) && ViewAll(m) == View()
    {
      m := map[];
      if !live {
        return Failure(ContextDone), m;
      }
      var err, ts;
      err, ts, m := bolt.ListTasks(loads);
      if err.Some? {
        return Failure(StoreFailed(err.value)), m;
      }
      return Success(ts), m;
    }
  }

  // ---------------------------------------------------------------- both kinds of service

  /** The two kinds of service always hold the same tasks, and they give the same answer except to a
      Mark call on an unknown id, which both reject, for different reasons. */
  lemma ModesAgreeOnCall(m: Tasks, c: Call)
    ensures ExecUncached(m, c).tasks == Exec(m, c).tasks && ExecUncached(m, c).events == Exec(m, c).events
    ensures ExecUncached(m, c).result.Success? <==> Exec(m, c).result.Success?
    ensures
      ExecUncached(m, c) == Exec(m, c)
      <==> c.Create? || c.id in m || (c.MarkCompleted? && c.size < 0)
  {
  }

  /** Whether both kinds of service give a call the same answer. */
  predicate SameAnswer(m: Tasks, c: Call) {
    c.Create? || c.id in m || (c.MarkCompleted? && c.size < 0)
  }

  lemma FaultlessServe(m: Tasks, c: Call)
    ensures Serve(m, Exec(m, c), None).tasks == Serve(m, ExecUncached(m, c), None).tasks == Exec(m, c).tasks
    ensures Serve(m, Exec(m, c), None).result == Serve(m, ExecUncached(m, c), None).result <==> SameAnswer(m, c)
  {
    ModesAgreeOnCall(m, c);
  }

  lemma AtMostThree(m: Tasks, c: Call)
    ensures |Exec(m, c).events| <= 3
  {
  }

  lemma StaysHealthy(c: Codec, w: Weather, p: Saved, q: Saved, batch: seq<Event>, ok: bool)
    requires Tried(c, w, p, q, batch, ok) && Healthy(p) && Fine(w, |batch|)
    ensures Healthy(q) && ok
  {
    TriedIsWrote(c, w, p, q, batch, ok);
  }

  /** A call to the cached service over a working store; the database is not touched. */
  method CallCached(a: TaskService, c: Call, ghost m: Tasks) returns (ghost reply: Result<Task, ServiceError>)
    requires a.Valid() && a.View() == m && Healthy(a.store.Durably())
    modifies a`tasks, a.store`tasks, a.store`logged, a.store`safe, a.store.log, a.store.disk
    ensures a.Valid() && Healthy(a.store.Durably())
    ensures Reply(a.View(), reply) == Serve(m, Exec(m, c), None)
  {
    ghost var p := a.store.Durably();
    var r;
    ghost var fault;
    var w := Weather(3, true, true);
    r, fault := a.Perform(c, true, w);
    AtMostThree(m, c);
    StaysHealthy(a.store.codec, w, p, a.store.Durably(), Exec(m, c).events, fault == None);
    reply := ViewOf(r);
  }

  /** A call to the service over a working database. */
  method CallWorking(b: BoltTaskService, c: Call, ghost m: Tasks) returns (ghost reply: Result<Task, ServiceError>)
    requires b.Valid() && b.View() == m
    modifies b.bolt
    ensures b.Valid() && Reply(b.View(), reply) == Serve(m, ExecUncached(m, c), None)
  {
    var r;
    ghost var fault;
    r, fault := b.Perform(c, true, true, true, true);
    reply := ViewOf(r);
  }

  /** The cached service is not touched by it. */
  method CallUncached(b: BoltTaskService, a: TaskService, c: Call, ghost m: Tasks)
    returns (ghost reply: Result<Task, ServiceError>)
    requires a.Valid() && b.Valid() && b.View() == m
    modifies b.bolt
    ensures b.Valid() && Reply(b.View(), reply) == Serve(m, ExecUncached(m, c), None)
    ensures a.Valid() && a.View() == old(a.View()) && a.store.Durably() == old(a.store.Durably())
  {
    reply := CallWorking(b, c, m);
    SameViews(a.tasks);
    SameViews(a.store.tasks);
  }

  /** What both services hold, if it is the same and their stores can go on. */
  ghost function Shared(a: TaskService, b: BoltTaskService): Option<Tasks>
    reads a, a.store, a.store.disk, a.store.log, ObjectsOf(a.tasks), ObjectsOf(a.store.tasks), b, b.bolt
  {
    if a.Valid() && b.Valid() && Healthy(a.store.Durably()) && a.View() == b.View() then Some(a.View()) else None
  }

  /** One call to both. */
  method CallEach(a: TaskService, b: BoltTaskService, c: Call, ghost m: Tasks) returns (ghost x: Reply, ghost y: Reply)
    requires Shared(a, b) == Some(m)
    modifies a`tasks, a.store`tasks, a.store`logged, a.store`safe, a.store.log, a.store.disk, b.bolt
    ensures Shared(a, b) == Some(Exec(m, c).tasks)
    ensures x.tasks == y.tasks == Exec(m, c).tasks && (x.result == y.result <==> SameAnswer(m, c))
  {
    ghost var ra := CallCached(a, c, m);
    ghost var rb := CallUncached(b, a, c, m);
    FaultlessServe(m, c);
    x, y := Reply(a.View(), ra), Reply(b.View(), rb);
  }

  /** After call k both services hold what the specification says, and their answers to it are the same
      unless it is a Mark call on an unknown id. */
  predicate InStepAt(m: Tasks, calls: seq<Call>, x: Reply, y: Reply, k: nat)
    requires k < |calls|
  {
    && x.tasks == y.tasks == Run(m, calls[..k + 1]).tasks
    && (x.result == y.result <==> SameAnswer(Run(m, calls[..k]).tasks, calls[k]))
  }

  predicate InStep(m: Tasks, calls: seq<Call>, xs: seq<Reply>, ys: seq<Reply>) {
    && |xs| == |ys| <= |calls|
    && forall k: nat :: k < |xs| ==> InStepAt(m, calls, xs[k], ys[k], k)
  }

  /** The same calls, one after another, to both services, over working stores that hold the same tasks
      at the start: they hold the same tasks after each call, and give the same answers but to a Mark
      call on an unknown id, which both reject for different reasons. */
  method CallBoth(a: TaskService, b: BoltTaskService, calls: seq<Call>)
    returns (ghost xs: seq<Reply>, ghost ys: seq<Reply>)
    requires Shared(a, b).Some?
    modifies a`tasks, a.store`tasks, a.store`logged, a.store`safe, a.store.log, a.store.disk, b.bolt
    ensures Shared(a, b) == Some(Run(old(Shared(a, b)).value, calls).tasks)
    ensures |xs| == |calls| && InStep(old(Shared(a, b)).value, calls, xs, ys)
  {
    ghost var m := a.View();
    xs, ys := [], [];
    for i := 0 to |calls|
      invariant Shared(a, b) == Some(Run(m, calls[..i]).tasks)
      invariant |xs| == i && InStep(m, calls, xs, ys)
    {
      ghost var x, y := CallEach(a, b, calls[i], Run(m, calls[..i]).tasks);
      RunOfNext(m, calls, i);
      assert InStepAt(m, calls, x, y, i);
      xs, ys := xs + [x], ys + [y];
    }
    assert calls[..|calls|] == calls;
  }
}
