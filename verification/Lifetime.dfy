/** The life of one task database: requests, snapshots and restarts in any order. */
module Lifetimes {
  import opened Core
  import opened Records
  import opened Replay
  import opened Calls
  import opened FileStates
  import opened Runs
  import opened Wal
  import opened Disks
  import opened Recovery
  import opened SnapshotSteps
  import opened Objects
  import opened TaskStores
  import opened FileTaskStores
  import opened TaskServices
  import Urls

  // ---------------------------------------------------------------- a crash during a call

  predicate Between(m: Tasks, call: Call, r: Tasks) {
    && Consistent(r)
    && (r == m || r == Exec(m, call).tasks || (!call.Create? && OneFileApart(m, r, call.id, call.index)))
  }

  /** A crash while a call is being logged: a restart finds the tasks before the call, those after
      it, or those before it but for one file and its task's status and UpdatedAt; and every task's
      status still follows from its files. */
  lemma CrashInCall(c: Codec, p: Saved, m: Tasks, call: Call, cut: DiskState) returns (r: Tasks)
    requires Lossless(c) && Ready(c, p, m, call.now) && Fits(c, Exec(m, call).events)
    requires cut.snapshot == p.disk.snapshot && cut.wal.Some?
    requires LogText(p.disk) <= cut.wal.value <= LogText(p.disk) + EncodeAll(c, Exec(m, call).events)
    ensures Recover(c, cut) == Success(r) && Between(m, call, r)
  {
    var evs := Exec(m, call).events;
    ExecKeepsGood(m, call);
    CrashInBatch(c, p.disk, p.logged, m, evs, cut);
    var j :| 0 <= j <= |evs| && Recover(c, cut) == Success(Apply(m, evs[..j]));
    HalfOfCall(m, call, j);
    r := Apply(m, evs[..j]);
  }

  // ---------------------------------------------------------------- a life, on values

  /** A request with what it meets: whether its context lives when the call begins, and the weather
      while its events are logged. */
  datatype Act =
    | Request(call: Call, live: bool, w: Weather)
    | TakeSnapshot(at: Time, faults: set<Step>)
    | Restart

  /** The tasks in memory, the tasks in the snapshot, the events whose lines went into the log, how many
      of them were acknowledged, and how the store finds its log. A restart that cannot read the log
      leaves the database down. */
  datatype Life = Life(up: bool, tasks: Tasks, base: Tasks, logged: seq<Event>, safe: nat, log: LogState)

  const Birth := Life(true, map[], map[], [], 0, Open)

  /** What a restart would find. */
  function OnDisk(l: Life): Tasks {
    Apply(l.base, l.logged)
  }

  function SnapshotOutcomeOf(l: Life, faults: set<Step>): SnapshotOutcome {
    if l.log.Missing? then LogMissing else OutcomeOf(FirstFault(l.log.Shut?, faults))
  }

  /** The events a request leaves in an open log. */
  function TraceOf(o: Outcome, w: Weather): seq<Event> {
    o.events[..KeptBy(w, |o.events|)]
  }

  /** Without a log a call that has something to log is rejected; through a closed one it is
      acknowledged and not stored. A call rejected half-way leaves the lines it had written. */
  function AfterRequest(l: Life, call: Call, w: Weather): Life {
    var o := Exec(l.tasks, call);
    if l.log.Missing? then l
    else if l.log.Shut? then l.(tasks := o.tasks)
    else
      var logged := l.logged + TraceOf(o, w);
      if Fine(w, |o.events|) then l.(tasks := o.tasks, logged := logged, safe := if o.events == [] then l.safe else |logged|)
      else l.(logged := logged)
  }

  /** A snapshot that was put in place stays, whatever fails then. */
  function AfterSnapshot(l: Life, o: SnapshotOutcome): Life {
    if !Placed(o) then l
    else if o.Done? then l.(base := l.tasks, logged := [], safe := 0, log := Open)
    else if o.step.CloseLog? then l.(base := l.tasks, log := Shut)
    else if o.step.OpenLog? then l.(base := l.tasks, logged := [], safe := 0, log := Missing)
    else l.(base := l.tasks, log := Missing)
  }

  /** A restart closes the store, which writes out what is still buffered, and loads it anew. With
      nothing buffered it is also what a crash comes to. */
  function Advance(c: Codec, l: Life, act: Act): Life {
    match act
    case Restart =>
      if Short(c, l.logged) then Life(true, OnDisk(l), l.base, l.logged, |l.logged|, Open) else l.(up := false)
    case Request(call, live, w) =>
      if l.up && live then AfterRequest(l, call, w) else l
    case TakeSnapshot(_, faults) =>
      if l.up then AfterSnapshot(l, SnapshotOutcomeOf(l, faults)) else l
  }

  function From(c: Codec, l: Life, acts: seq<Act>): Life
    decreases |acts|
  {
    if acts == [] then l else Advance(c, From(c, l, acts[..|acts| - 1]), acts[|acts| - 1])
  }

  function LifeOf(c: Codec, acts: seq<Act>): Life {
    From(c, Birth, acts)
  }

  /** The encoder keeps the texts of every event that is logged. */
  ghost predicate CleanAct(c: Codec, l: Life, act: Act) {
    act.Request? ==> Clean(c, Exec(l.tasks, act.call).events)
  }

  ghost predicate CleanLife(c: Codec, acts: seq<Act>) {
    forall i: nat :: i < |acts| ==> CleanAt(c, acts, i)
  }

  ghost predicate CleanAt(c: Codec, acts: seq<Act>, i: nat)
    requires i < |acts|
  {
    CleanAct(c, LifeOf(c, acts[..i]), acts[i])
  }

  // ---------------------------------------------------------------- the program lives it

  /** Lines that were not acknowledged may still be buffered. */
  predicate Buffering(l: Life) {
    l.log.Open? && l.safe < |l.logged|
  }

  /** The durable side of a store and what l says of it. */
  ghost predicate Shows(c: Codec, l: Life, p: Saved) {
    && p.roomy && p.log == l.log && !l.log.Broken? && p.logged == l.logged && p.safe == l.safe
    && (!l.log.Open? ==> p.pending == "") && Stream(p) == EncodeAll(c, l.logged)
    && l.safe <= |l.logged| && EncodeAll(c, l.logged[..l.safe]) <= LogText(p.disk)
    && SnapshotTasks(p.disk.snapshot) == l.base && Clean(c, l.logged) && AllReadable(l.logged)
  }

  /** The disk once everything is written out. */
  ghost predicate DiskShows(c: Codec, l: Life, d: DiskState) {
    && SnapshotTasks(d.snapshot) == l.base && LogText(d) == EncodeAll(c, l.logged)
    && Clean(c, l.logged) && AllReadable(l.logged)
  }

  lemma NoEventsNoChange(m: Tasks, call: Call)
    ensures Exec(m, call).events == [] ==> Exec(m, call).tasks == m
    ensures |Exec(m, call).events| <= 3
  {
  }

  /** What the store does with a request is what the life does with it. */
  lemma RequestStep(c: Codec, l: Life, p: Saved, q: Saved, call: Call, w: Weather, ok: bool)
    requires l.up && Shows(c, l, p) && CleanAct(c, l, Request(call, true, w)) && AllReadable(Exec(l.tasks, call).events)
    requires Tried(c, w, p, q, Exec(l.tasks, call).events, ok)
    ensures Shows(c, AfterRequest(l, call, w), q) && AfterRequest(l, call, w).up
    ensures AfterRequest(l, call, w).tasks == (if ok then Exec(l.tasks, call).tasks else l.tasks)
    ensures !ok ==> Exec(l.tasks, call).events != []
  {
    var evs := Exec(l.tasks, call).events;
    NoEventsNoChange(l.tasks, call);
    var n: nat :| TriedN(c, w, p, q, evs, ok, n);
    if evs == [] {
      assert l.logged + evs[..0] == l.logged;
    } else if l.log.Open? {
      RequestLogged(c, l, p, q, evs, ok, n);
    }
  }

  lemma RequestLogged(c: Codec, l: Life, p: Saved, q: Saved, evs: seq<Event>, ok: bool, n: nat)
    requires Shows(c, l, p) && l.log.Open? && Clean(c, evs) && AllReadable(evs) && evs != []
    requires WroteN(c, p, q, evs, ok, n)
    ensures
      var logged := l.logged + evs[..n];
      Shows(c, l.(logged := logged, safe := if ok then |logged| else l.safe), q)
  {
    var logged := l.logged + evs[..n];
    EncodeAllConcat(c, l.logged, evs[..n]);
    assert evs[..n] + evs[n..] == evs;
    ShortConcat(c, evs[..n], evs[n..]);
    ShortConcat(c, l.logged, evs[..n]);
    assert logged[..|logged|] == logged && logged[..l.safe] == l.logged[..l.safe];
    assert LogText(q.disk) + "" == LogText(q.disk);
  }

  /** The same for a snapshot. */
  lemma SnapshotStep(c: Codec, l: Life, p: Saved, q: Saved, ss: Snapshot, o: SnapshotOutcome, faults: set<Step>)
    requires l.up && Shows(c, l, p) && TasksOf(ss.tasks) == l.tasks && Snapped(p, q, ss, o, faults)
    ensures Shows(c, AfterSnapshot(l, o), q) && o == SnapshotOutcomeOf(l, faults)
    ensures var l1 := AfterSnapshot(l, o); l1.up && l1.tasks == l.tasks
  {
    if Placed(o) {
      SnapshotPlaced(c, l, p, ss, o);
    }
  }

  lemma SnapshotPlaced(c: Codec, l: Life, p: Saved, ss: Snapshot, o: SnapshotOutcome)
    requires Shows(c, l, p) && !l.log.Missing? && TasksOf(ss.tasks) == l.tasks && Placed(o)
    ensures Shows(c, AfterSnapshot(l, o), After(p, ss, o))
  {
    if o.Done? {
      EmptyShows(c, l, ss, Open, Some(""));
    } else if o.step.OpenLog? {
      EmptyShows(c, l, ss, Missing, None);
    } else {
      assert LogText(p.disk) + "" == LogText(p.disk);
      KeptShows(c, l, p, ss, if o.step.CloseLog? then Shut else Missing, Flushed(p));
    }
  }

  /** A snapshot beside an empty log, or none. */
  lemma EmptyShows(c: Codec, l: Life, ss: Snapshot, log: LogState, wal: Option<string>)
    requires TasksOf(ss.tasks) == l.tasks && !log.Broken? && LogText(DiskState(Some(ss), wal)) == ""
    ensures Shows(c, l.(base := l.tasks, logged := [], safe := 0, log := log), Saved(log, true, DiskState(Some(ss), wal), "", [], 0))
  {
  }

  /** A snapshot beside the old log, all of it written out. */
  lemma KeptShows(c: Codec, l: Life, p: Saved, ss: Snapshot, log: LogState, wal: Option<string>)
    requires Shows(c, l, p) && TasksOf(ss.tasks) == l.tasks && (log.Shut? || log.Missing?)
    requires LogText(DiskState(Some(ss), wal)) == Stream(p)
    ensures Shows(c, l.(base := l.tasks, log := log), Saved(log, true, DiskState(Some(ss), wal), "", p.logged, p.safe))
  {
    assert Stream(p) + "" == Stream(p);
    PrefixOfLog(c, l.logged, l.safe);
  }

  lemma PrefixOfLog(c: Codec, evs: seq<Event>, n: nat)
    requires n <= |evs|
    ensures EncodeAll(c, evs[..n]) <= EncodeAll(c, evs)
  {
    EncodeAllConcat(c, evs[..n], evs[n..]);
    assert evs[..n] + evs[n..] == evs;
  }

  /** Service, store and disk are what l says; nothing is said of a service that is down. */
  ghost function LifeVerdict(svc: TaskService?, c: Codec, disk: Disk, l: Life): Verdict
    reads disk, svc, if svc != null then {svc.store, svc.store.disk, svc.store.log} else {},
          if svc != null then ObjectsOf(svc.tasks) + ObjectsOf(svc.store.tasks) else {}
  {
    if && disk.Valid() && disk.room == None
       && (l.up ==>
             && svc != null && svc.store.codec == c && svc.store.disk == disk
             && svc.Valid() && svc.View() == l.tasks && Shows(c, l, svc.store.Durably()))
       && (!l.up ==> DiskShows(c, l, disk.State()))
    then Sound else Unsound
  }

  ghost predicate Alive(svc: TaskService?, c: Codec, disk: Disk, l: Life)
    reads disk, svc, if svc != null then {svc.store, svc.store.disk, svc.store.log} else {},
          if svc != null then ObjectsOf(svc.tasks) + ObjectsOf(svc.store.tasks) else {}
  {
    LifeVerdict(svc, c, disk, l) == Sound
  }

  method Ask(svc: TaskService, call: Call, w: Weather, c: Codec, disk: Disk, ghost l: Life) returns (ghost ok: bool)
    requires l.up && Alive(svc, c, disk, l) && CleanAct(c, l, Request(call, true, w))
    modifies svc`tasks, svc.store`tasks, svc.store`logged, svc.store`safe, svc.store.log, disk
    ensures Alive(svc, c, disk, AfterRequest(l, call, w)) && AfterRequest(l, call, w).up
  {
    ghost var p := svc.store.Durably();
    var r;
    ghost var fault;
    r, fault := svc.Perform(call, true, w);
    ok := fault == None;
    AnyCallIsReadable(l.tasks, call);
    RequestStep(c, l, p, svc.store.Durably(), call, w, ok);
    ServeTasks(l.tasks, call, fault);
    NowAlive(svc, c, disk, AfterRequest(l, call, w));
  }

  lemma NowAlive(svc: TaskService, c: Codec, disk: Disk, l: Life)
    requires disk.Valid() && disk.room == None && svc.store.codec == c && svc.store.disk == disk && l.up
    requires svc.Valid() && svc.View() == l.tasks && Shows(c, l, svc.store.Durably())
    ensures Alive(svc, c, disk, l)
  {
  }

  lemma AnyCallIsReadable(m: Tasks, call: Call)
    ensures AllReadable(Exec(m, call).events)
  {
    if !call.Create? { EventsOfMark(m, call); }
  }

  lemma ServeTasks(m: Tasks, call: Call, fault: Option<StoreError>)
    requires fault.Some? ==> Exec(m, call).events != []
    ensures Serve(m, Exec(m, call), fault).tasks == if fault.Some? then m else Exec(m, call).tasks
  {
    NoEventsNoChange(m, call);
  }

  /** A request whose context has ended does nothing. */
  method AskLate(svc: TaskService, call: Call, w: Weather, c: Codec, disk: Disk, ghost l: Life)
    requires l.up && Alive(svc, c, disk, l)
    modifies svc`tasks, svc.store`tasks, svc.store`logged, svc.store`safe, svc.store.log, disk
    ensures Alive(svc, c, disk, l)
  {
    var r;
    ghost var fault;
    r, fault := svc.Perform(call, false, w);
  }

  method Snap(svc: TaskService, at: Time, faults: set<Step>, c: Codec, disk: Disk, ghost l: Life)
    requires l.up && Alive(svc, c, disk, l)
    modifies svc.store`log, svc.store`logged, svc.store`safe, svc.store.log, disk
    ensures Alive(svc, c, disk, AfterSnapshot(l, SnapshotOutcomeOf(l, faults))) && AfterSnapshot(l, SnapshotOutcomeOf(l, faults)).up
    ensures svc.store.log == old(svc.store.log) || svc.store.log == null || fresh(svc.store.log)
  {
    ghost var p := svc.store.Durably();
    var o;
    ghost var ss;
    o, ss := svc.FlushSnapshot(at, faults);
    SnapshotStep(c, l, p, svc.store.Durably(), ss, o, faults);
  }

  /** The end of a process: the store is closed. */
  method Leave(svc: TaskService, c: Codec, disk: Disk, ghost l: Life)
    requires l.up && Alive(svc, c, disk, l)
    modifies svc.store`log, svc.store.log, disk
    ensures disk.Valid() && disk.room == None && DiskShows(c, l, disk.State())
  {
    ghost var p := svc.store.Durably();
    assert LogText(p.disk) + "" == LogText(p.disk);
    var ok := svc.store.Close(true);
  }

  /** Opens and loads the store and makes a service over it. */
  method Load(c: Codec, disk: Disk, ghost l: Life) returns (svc: TaskService?)
    requires Lossless(c) && disk.Valid() && disk.room == None && DiskShows(c, l, disk.State())
    modifies disk`wal, disk`history
    ensures disk.Valid() && disk.room == None && DiskShows(c, l, disk.State()) && (svc != null <==> Short(c, l.logged))
    ensures svc != null ==>
              && fresh(svc) && fresh(svc.store) && (svc.store.log == null || fresh(svc.store.log))
              && svc.store.codec == c && svc.store.disk == disk && svc.Valid() && svc.View() == OnDisk(l)
              && svc.store.Durably() == Saved(Open, true, disk.State(), "", l.logged, |l.logged|)
  {
    ReopenedIsRead(c, l, disk.State());
    var store := new FileTaskStore(c, disk);
    ReopenedIsRead(c, l, disk.State());
    var r := NewTaskService(store, true, None);
    svc := if r.Success? then r.value else null;
  }

  /** A new process over what the disk holds; it fails to start if the log cannot be read. */
  method Reopen(c: Codec, disk: Disk, ghost l: Life) returns (svc: TaskService?)
    requires Lossless(c) && disk.Valid() && disk.room == None && DiskShows(c, l, disk.State())
    modifies disk`wal, disk`history
    ensures Alive(svc, c, disk, Advance(c, l, Restart)) && (svc != null <==> Advance(c, l, Restart).up)
    ensures svc != null ==> fresh(svc) && fresh(svc.store) && (svc.store.log == null || fresh(svc.store.log))
  {
    svc := Load(c, disk, l);
    if svc != null {
      ReopenedShows(c, l, svc.store.Durably());
      NowAlive(svc, c, disk, Advance(c, l, Restart));
    }
  }

  /** A first process over an empty directory. */
  method Begin(c: Codec, disk: Disk) returns (svc: TaskService)
    requires Lossless(c) && disk.Valid() && disk.State() == DiskState(None, None) && disk.room == None
    modifies disk`wal, disk`history
    ensures Alive(svc, c, disk, Birth) && fresh(svc) && fresh(svc.store) && (svc.store.log == null || fresh(svc.store.log))
  {
    BirthIsOpened(c);
    svc := Reopen(c, disk, Birth);
  }

  lemma ReopenedIsRead(c: Codec, l: Life, d: DiskState)
    requires Lossless(c) && DiskShows(c, l, d)
    ensures Recover(c, d) == if Short(c, l.logged) then Success(OnDisk(l)) else Failure(BadLog(LineTooLong))
    ensures Short(c, l.logged) ==> ReadEvents(c, LogText(d)) == Success(l.logged)
  {
    LogReloadsIff(c, d, l.logged);
    ReadsBackIff(c, l.logged);
  }

  lemma ReopenedShows(c: Codec, l: Life, p: Saved)
    requires DiskShows(c, l, p.disk) && Short(c, l.logged)
    requires p.log.Open? && p.roomy && p.pending == "" && p.logged == l.logged && p.safe == |l.logged|
    ensures Shows(c, Advance(c, l, Restart), p)
  {
    assert LogText(p.disk) + "" == LogText(p.disk);
    assert l.logged[..|l.logged|] == l.logged;
  }

  method Do(svc: TaskService?, act: Act, c: Codec, disk: Disk, ghost l: Life) returns (next: TaskService?)
    requires Lossless(c) && Alive(svc, c, disk, l) && CleanAct(c, l, act) && (svc != null <==> l.up)
    modifies svc, if svc != null then {svc.store, svc.store.log} else {}, disk
    ensures Alive(next, c, disk, Advance(c, l, act)) && (next != null <==> Advance(c, l, act).up)
    ensures next == svc || next == null || fresh(next)
    ensures next != null ==> (svc != null && next.store == svc.store) || fresh(next.store)
    ensures next != null ==>
              next.store.log == null || fresh(next.store.log) || (svc != null && next.store.log == old(svc.store.log))
  {
    next := svc;
    match act
    case Request(call, live, w) =>
      if svc != null {
        if live {
          ghost var ok := Ask(svc, call, w, c, disk, l);
        } else {
          AskLate(svc, call, w, c, disk, l);
        }
      }
    case TakeSnapshot(at, faults) =>
      if svc != null {
        Snap(svc, at, faults, c, disk, l);
      }
    case Restart =>
      if svc != null {
        Leave(svc, c, disk, l);
      }
      next := Reopen(c, disk, l);
  }

  lemma LifeOfNext(c: Codec, acts: seq<Act>, i: nat)
    requires i < |acts|
    ensures LifeOf(c, acts[..i + 1]) == Advance(c, LifeOf(c, acts[..i]), acts[i])
  {
    assert acts[..i + 1][..i] == acts[..i];
  }

  /** The acts from the i-th on. */
  method LiveOn(svc: TaskService?, c: Codec, disk: Disk, acts: seq<Act>, i: nat) returns (last: TaskService?)
    requires Lossless(c) && CleanLife(c, acts) && i <= |acts|
    requires Alive(svc, c, disk, LifeOf(c, acts[..i])) && (svc != null <==> LifeOf(c, acts[..i]).up)
    modifies svc, if svc != null then {svc.store, svc.store.log} else {}, disk
    ensures Alive(last, c, disk, LifeOf(c, acts)) && (last != null <==> LifeOf(c, acts).up)
    decreases |acts| - i
  {
    if i == |acts| {
      assert acts[..i] == acts;
      return svc;
    }
    LifeOfNext(c, acts, i);
    assert CleanAt(c, acts, i);
    var next := Do(svc, acts[i], c, disk, LifeOf(c, acts[..i]));
    last := LiveOn(next, c, disk, acts, i + 1);
  }

  /** What a restart finds on the disk of a life: unless lines are still buffered, exactly what the life
      says; otherwise it may miss some that were not acknowledged. */
  ghost predicate Finds(c: Codec, d: DiskState, l: Life) {
    && (!Buffering(l) ==>
          Recover(c, d) == if Short(c, l.logged) then Success(OnDisk(l)) else Failure(BadLog(LineTooLong)))
    && (Short(c, l.logged) ==>
          exists k :: l.safe <= k <= |l.logged| && Recover(c, d) == Success(Apply(l.base, l.logged[..k])))
  }

  lemma ShownIsFound(c: Codec, d: DiskState, l: Life)
    requires Lossless(c) && DiskShows(c, l, d) && l.safe <= |l.logged|
    ensures Finds(c, d, l)
  {
    LogReloadsIff(c, d, l.logged);
    assert l.logged[..|l.logged|] == l.logged;
  }

  lemma PartShownIsFound(c: Codec, p: Saved, l: Life)
    requires Lossless(c) && Shows(c, l, p)
    ensures Finds(c, p.disk, l)
  {
    assert LogText(p.disk) + "" == LogText(p.disk);
    if !Buffering(l) {
      assert l.log.Open? ==> l.logged[..l.safe] == l.logged;
      ShownIsFound(c, p.disk, l);
    } else if Short(c, l.logged) {
      var k := TornTail(c, l.logged, |LogText(p.disk)|);
      assert LogText(p.disk) == EncodeAll(c, l.logged)[..|LogText(p.disk)|];
      if k < l.safe {
        LinesBefore(c, l.logged, k, l.safe);
        assert false;
      }
    }
  }

  /** Whatever requests, snapshots and restarts a database sees, with contexts that end, appends that are
      cut short, flushes and snapshots that fail at any step: the program does what the life says. Cache
      and store are equal, and so is what a restart would find. */
  method Live(c: Codec, disk: Disk, acts: seq<Act>) returns (svc: TaskService?)
    requires Lossless(c) && disk.Valid() && disk.State() == DiskState(None, None) && disk.room == None
    requires CleanLife(c, acts)
    modifies disk
    ensures var l := LifeOf(c, acts); svc != null <==> l.up
    ensures svc != null ==> svc.Valid() && svc.View() == LifeOf(c, acts).tasks
    ensures Finds(c, disk.State(), LifeOf(c, acts))
  {
    BirthIsOpened(c);
    svc := Begin(c, disk);
    svc := LiveFrom(svc, c, disk, acts);
    SafeIsLogged(c, acts);
    AliveIsFound(svc, c, disk, LifeOf(c, acts));
  }

  method LiveFrom(first: TaskService, c: Codec, disk: Disk, acts: seq<Act>) returns (svc: TaskService?)
    requires Lossless(c) && CleanLife(c, acts) && Alive(first, c, disk, Birth)
    modifies first, first.store, first.store.log, disk
    ensures Alive(svc, c, disk, LifeOf(c, acts)) && (svc != null <==> LifeOf(c, acts).up)
  {
    assert acts[..0] == [] && Birth.up;
    svc := LiveOn(first, c, disk, acts, 0);
  }

  lemma BirthIsOpened(c: Codec)
    ensures DiskShows(c, Birth, DiskState(None, None)) && Advance(c, Birth, Restart) == Birth && LifeOf(c, []) == Birth
  {
  }

  lemma AliveIsFound(svc: TaskService?, c: Codec, disk: Disk, l: Life)
    requires Lossless(c) && Alive(svc, c, disk, l) && (svc != null <==> l.up) && l.safe <= |l.logged|
    ensures svc != null ==> svc.Valid() && svc.View() == l.tasks
    ensures Finds(c, disk.State(), l)
  {
    if svc != null {
      PartShownIsFound(c, svc.store.Durably(), l);
    } else {
      ShownIsFound(c, disk.State(), l);
    }
  }

  lemma {:induction false} SafeIsLogged(c: Codec, acts: seq<Act>)
    ensures LifeOf(c, acts).safe <= |LifeOf(c, acts).logged|
    decreases |acts|
  {
    if acts != [] {
      SafeIsLogged(c, acts[..|acts| - 1]);
    }
  }

  // ---------------------------------------------------------------- when memory and disk agree

  /** A snapshot attempt that puts newer tasks in place beside the older log it could not move away. */
  predicate LeavesStaleLog(l: Life, act: Act) {
    && l.up && l.log.Shut? && act.TakeSnapshot?
    && SnapshotOutcomeOf(l, act.faults) in {FailedAt(MakeOldDir), FailedAt(RenameLog)}
  }

  /** A request that is rejected after some of its lines went into the log. */
  predicate LeavesTrace(l: Life, act: Act) {
    && l.up && l.log.Open? && act.Request? && act.live
    && var n := |Exec(l.tasks, act.call).events|;
       !Fine(act.w, n) && KeptBy(act.w, n) > 0
  }

  /** Nothing is later than now; replaying the log once or again gives the same tasks, and unless the
      log is closed those are the tasks in memory. */
  ghost predicate Agrees(l: Life, now: Time) {
    && Good(OnDisk(l)) && AllNotAfter(OnDisk(l), now) && AllNotAfter(l.base, now) && ReplaySafe(l.base, l.logged)
    && (forall k :: 0 <= k < |l.logged| ==> l.logged[k].createdAt <= now)
    && (l.up ==> Good(l.tasks) && AllNotAfter(l.tasks, now) && !l.log.Broken?)
    && (l.up && !l.log.Shut? ==> l.tasks == OnDisk(l))
  }

  predicate NotBefore(act: Act, now: Time) {
    act.Request? ==> now <= act.call.now
  }

  function TimeAfter(act: Act, now: Time): Time {
    if act.Request? && now <= act.call.now then act.call.now else now
  }

  lemma LaterStillAgrees(l: Life, now: Time, later: Time)
    requires Agrees(l, now) && now <= later
    ensures Agrees(l, later)
  {
  }

  lemma RequestAgrees(l: Life, call: Call, w: Weather)
    requires Agrees(l, call.now) && l.up && !LeavesTrace(l, Request(call, true, w))
    ensures Agrees(AfterRequest(l, call, w), call.now)
  {
    var evs := Exec(l.tasks, call).events;
    ExecKeepsGood(l.tasks, call);
    NoEventsNoChange(l.tasks, call);
    if l.log.Open? && Fine(w, |evs|) {
      assert TraceOf(Exec(l.tasks, call), w) == evs;
      LoggedAgrees(l, call, AfterRequest(l, call, w).safe);
    } else if l.log.Open? {
      assert l.logged + TraceOf(Exec(l.tasks, call), w) == l.logged;
    }
  }

  lemma LoggedAgrees(l: Life, call: Call, safe: nat)
    requires Agrees(l, call.now) && l.up && l.log.Open?
    ensures
      var o := Exec(l.tasks, call);
      Agrees(l.(tasks := o.tasks, logged := l.logged + o.events, safe := safe), call.now)
  {
    var evs := Exec(l.tasks, call).events;
    ExecKeepsGood(l.tasks, call);
    EventsRecoverCall(l.tasks, call);
    ApplyConcat(l.base, l.logged, evs);
    ReplaySafeGrows(l.base, l.logged, evs, call.now);
  }

  /** What a restart makes of a call that was rejected half-way: the tasks before it, or after it, or
      those before it but for one file. */
  lemma TraceIsPartOfCall(l: Life, call: Call, w: Weather)
    requires Agrees(l, call.now) && LeavesTrace(l, Request(call, true, w))
    ensures AfterRequest(l, call, w).tasks == l.tasks && Between(l.tasks, call, OnDisk(AfterRequest(l, call, w)))
  {
    var k := KeptBy(w, |Exec(l.tasks, call).events|);
    HalfOfCall(l.tasks, call, k);
    ApplyConcat(l.base, l.logged, TraceOf(Exec(l.tasks, call), w));
  }

  lemma SnapshotAgrees(c: Codec, l: Life, act: Act, now: Time)
    requires Agrees(l, now) && act.TakeSnapshot? && !LeavesStaleLog(l, act)
    ensures Agrees(Advance(c, l, act), now)
  {
    var o := SnapshotOutcomeOf(l, act.faults);
    if l.up && Placed(o) {
      if o.Done? || o.step.OpenLog? {
        NothingToReplay(l.tasks);
      } else if !l.log.Shut? {
        DoubleReplay(l.base, l.logged);
      }
    }
  }

  /** As long as the clock does not step back, no rejected call leaves a trace and no snapshot a stale
      log: whenever the log is open or missing, what a restart would find is what is in memory. */
  lemma ActAgrees(c: Codec, l: Life, act: Act, now: Time)
    requires Agrees(l, now) && NotBefore(act, now) && !LeavesStaleLog(l, act) && !LeavesTrace(l, act)
    ensures Agrees(Advance(c, l, act), TimeAfter(act, now))
  {
    match act
    case Request(call, live, w) =>
      LaterStillAgrees(l, now, call.now);
      if l.up && live { RequestAgrees(l, call, w); }
    case TakeSnapshot(_, _) => SnapshotAgrees(c, l, act, now);
    case Restart =>
  }

  function TimeOf(start: Time, acts: seq<Act>): Time
    decreases |acts|
  {
    if acts == [] then start else TimeAfter(acts[|acts| - 1], TimeOf(start, acts[..|acts| - 1]))
  }

  ghost predicate OrderlyAt(c: Codec, start: Time, acts: seq<Act>, i: nat)
    requires i < |acts|
  {
    var l := LifeOf(c, acts[..i]);
    NotBefore(acts[i], TimeOf(start, acts[..i])) && !LeavesStaleLog(l, acts[i]) && !LeavesTrace(l, acts[i])
  }

  /** The clock does not step back, no rejected call leaves a trace, and no snapshot a stale log. */
  ghost predicate Orderly(c: Codec, start: Time, acts: seq<Act>) {
    forall i: nat :: i < |acts| ==> OrderlyAt(c, start, acts, i)
  }

  /** In an orderly life, whatever snapshots and calls fail and whenever it is restarted: unless the log is
      closed, what a restart would find is exactly what is in memory. */
  lemma {:induction false} OrderlyLifeAgrees(c: Codec, start: Time, acts: seq<Act>)
    requires Orderly(c, start, acts)
    ensures Agrees(LifeOf(c, acts), TimeOf(start, acts))
    decreases |acts|
  {
    if acts == [] {
      NothingToReplay(map[]);
    } else {
      var n := |acts| - 1;
      forall i: nat | i < n ensures OrderlyAt(c, start, acts[..n], i) {
        assert OrderlyAt(c, start, acts, i) && acts[..n][..i] == acts[..i];
      }
      OrderlyLifeAgrees(c, start, acts[..n]);
      assert OrderlyAt(c, start, acts, n);
      ActAgrees(c, LifeOf(c, acts[..n]), acts[n], TimeOf(start, acts[..n]));
    }
  }
}
