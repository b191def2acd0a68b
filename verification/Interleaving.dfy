/** The cached service under concurrent calls: every interleaving of their steps is a sequential run,
    and as long as no fault has left a trace the log rebuilds the store at every moment.

    A Mark call holds the service's lock from its private copy to its publication; CreateTask stores
    its task first and takes the lock only to publish it. The store serialises its own operations,
    snapshots included. */
module Interleavings {
  import opened Core
  import opened Records
  import opened Replay
  import opened Calls
  import opened Runs
  import opened Wal
  import opened Disks
  import opened Recovery
  import opened SnapshotSteps
  import opened TaskStores
  import opened TaskServices
  import Urls

  /** Where a call stands: a Mark call gets the lock and its copy, reads the clock and changes the copy,
      stores it and publishes it; a creation reads the clock, stores and publishes. born is how many calls
      had been answered when it began. */
  datatype Phase =
    | Calling(call: Call, born: nat)
    | Holding(call: Call, born: nat, copy: Task)
    | Working(call: Call, born: nat, copy: Task)
    | InStore(call: Call, born: nat, updated: Task)
    | Made(call: Call, born: nat)
    | Created(call: Call, born: nat, made: Task)

  datatype Entry = Entry(call: Call, born: nat, fault: Option<StoreError>, reply: Result<Task, ServiceError>)

  /** done lists the calls in the order in which they were answered. base holds the tasks of the last
      snapshot and logged the events since; log says how the store finds its log. tidy says that no
      failed call has left events or part of a line in the log, and that no call was acknowledged
      through a closed log, since a snapshot last ended well. */
  datatype State = State(
    cache: Tasks,
    store: Tasks,
    base: Tasks,
    logged: seq<Event>,
    log: LogState,
    tidy: bool,
    holder: Option<nat>,
    threads: map<nat, Phase>,
    clock: Time,
    done: seq<Entry>)

  // ---------------------------------------------------------------- steps

  /** How the store fares with a batch. When it fails, the log keeps the first events of the batch, and
      may be stuck from then on. */
  datatype Logging = Goes | Fails(error: StoreError, kept: nat, sticks: bool)

  datatype Step =
    | Begin(i: nat, call: Call)
    | Tick(now: Time)
    | Acquire(i: nat)
    | Work(i: nat)
    | Save(i: nat, how: Logging)
    | Publish(i: nat)
    | Make(i: nat)
    | StoreNew(i: nat, how: Logging)
    | PublishNew(i: nat)
    | TakeSnapshot(o: SnapshotOutcome)

  function At(c: Call, now: Time): Call {
    c.(now := now)
  }

  /** The call of thread i is answered. */
  function Answer(s: State, i: nat, call: Call, fault: Option<StoreError>, reply: Result<Task, ServiceError>): State
    requires i in s.threads
  {
    s.(threads := s.threads - {i}, done := s.done + [Entry(call, s.threads[i].born, fault, reply)])
  }

  /** A Mark call is turned away before it gets the lock, or as it gets it. */
  predicate TurnedAway(cache: Tasks, c: Call)
    requires !c.Create?
  {
    || (c.MarkCompleted? && c.size < 0)
    || c.id !in cache
    || !(0 <= c.index < |cache[c.id].files|)
  }

  /** A missing log takes nothing, a closed one acknowledges without storing, a stuck one fails and keeps
      nothing more. */
  predicate CanLog(log: LogState, batch: seq<Event>, how: Logging) {
    match log
    case Missing => how.Fails?
    case Shut => how.Goes?
    case Broken => how.Fails? && how.kept == 0
    case Open => how.Fails? ==> how.kept <= |batch|
  }

  /** The log after a batch that is not empty. */
  function Log(s: State, batch: seq<Event>, how: Logging): State
    requires CanLog(s.log, batch, how)
  {
    match s.log
    case Missing => s
    case Broken => s
    case Shut => s.(tidy := false)
    case Open =>
      if how.Goes? then s.(logged := s.logged + batch)
      else s.(logged := s.logged + batch[..how.kept], log := if how.sticks then Broken else Open,
              tidy := s.tidy && how.kept == 0 && !how.sticks)
  }

  /** What a Mark call that has read the clock makes of its copy. */
  function Marked(s: State, i: nat): Outcome
    requires i in s.threads && s.threads[i].Working? && !s.threads[i].call.Create?
  {
    ExecMark(map[s.threads[i].call.id := s.threads[i].copy], s.threads[i].call)
  }

  function NewOf(c: Call): Task
    requires c.Create? && Urls.Normalize(c.rawUrls).Success?
  {
    NewTask(c.id, c.now, Urls.Normalize(c.rawUrls).value)
  }

  function Creating(c: Call): Event
    requires c.Create? && Urls.Normalize(c.rawUrls).Success?
  {
    Event(LogVersion, c.id, c.now, TaskCreated(Some(NewOf(c))))
  }

  predicate CanSnapshot(log: LogState, o: SnapshotOutcome) {
    match log
    case Missing => o.LogMissing?
    case Broken => o == FailedAt(FlushLog)
    case Shut => !o.LogMissing?
    case Open => !o.LogMissing?
  }

  predicate Enabled(s: State, step: Step) {
    match step
    case Begin(i, _) => i !in s.threads
    case Tick(now) => s.clock <= now
    case Acquire(i) =>
      && i in s.threads && s.threads[i].Calling? && !s.threads[i].call.Create?
      && (s.holder == None || (s.threads[i].call.MarkCompleted? && s.threads[i].call.size < 0))
    case Work(i) => i in s.threads && s.threads[i].Holding? && !s.threads[i].call.Create?
    case Save(i, how) =>
      && i in s.threads && s.threads[i].Working? && !s.threads[i].call.Create?
      && (Marked(s, i).events != [] ==> CanLog(s.log, Marked(s, i).events, how))
    case Publish(i) => i in s.threads && s.threads[i].InStore?
    case Make(i) => i in s.threads && s.threads[i].Calling? && s.threads[i].call.Create?
    case StoreNew(i, how) =>
      && i in s.threads && s.threads[i].Made? && s.threads[i].call.Create?
      && Urls.Normalize(s.threads[i].call.rawUrls).Success? && CanLog(s.log, [Creating(s.threads[i].call)], how)
    case PublishNew(i) => i in s.threads && s.threads[i].Created? && s.holder == None
    case TakeSnapshot(o) => CanSnapshot(s.log, o)
  }

  function AfterAcquire(s: State, i: nat): State
    requires Enabled(s, Acquire(i))
  {
    var c := s.threads[i].call;
    if TurnedAway(s.cache, c) then Answer(s, i, c, None, Failure(Rejected(ExecMark(s.cache, c).result.error)))
    else s.(holder := Some(i), threads := s.threads[i := Holding(c, s.threads[i].born, s.cache[c.id])])
  }

  /** With the lock held and the clock read some time ago, the call turns to the store. */
  function AfterSave(s: State, i: nat, how: Logging): State
    requires Enabled(s, Save(i, how))
  {
    var (c, o) := (s.threads[i].call, Marked(s, i));
    match o.result
    case Failure(why) => Answer(s.(holder := None), i, c, None, Failure(Rejected(why)))
    case Success(t) =>
      if o.events == [] then
        Answer(s.(holder := None, cache := s.cache[c.id := t]), i, c, None, Success(t))
      else if how.Fails? then
        Answer(Log(s, o.events, how).(holder := None), i, c, Some(how.error), Failure(StoreFailed(how.error)))
      else
        Log(s, o.events, how).(store := s.store[c.id := t], threads := s.threads[i := InStore(c, s.threads[i].born, t)])
  }

  /** CreateTask cleans its URLs and reads the clock. */
  function AfterMake(s: State, i: nat): State
    requires Enabled(s, Make(i))
  {
    var c := At(s.threads[i].call, s.clock);
    match Urls.Normalize(c.rawUrls)
    case Failure(why) => Answer(s, i, c, None, Failure(Rejected(BadUrls(why))))
    case Success(_) => s.(threads := s.threads[i := Made(c, s.threads[i].born)])
  }

  function AfterStoreNew(s: State, i: nat, how: Logging): State
    requires Enabled(s, StoreNew(i, how))
  {
    var c := s.threads[i].call;
    if c.id in s.store then
      Answer(s, i, c, Some(StoreError.AlreadyExists), Failure(StoreFailed(StoreError.AlreadyExists)))
    else if how.Fails? then
      Answer(Log(s, [Creating(c)], how), i, c, Some(how.error), Failure(StoreFailed(how.error)))
    else
      Log(s, [Creating(c)], how).(store := s.store[c.id := NewOf(c)], threads := s.threads[i := Created(c, s.threads[i].born, NewOf(c))])
  }

  function AfterSnapshot(s: State, o: SnapshotOutcome): State {
    if !Placed(o) then s
    else if o.Done? then s.(base := s.store, logged := [], log := Open, tidy := true)
    else if o.step.CloseLog? then s.(base := s.store, log := Shut)
    else if o.step.OpenLog? then s.(base := s.store, logged := [], log := Missing, tidy := true)
    else s.(base := s.store, log := Missing)
  }

  function After(s: State, step: Step): State
    requires Enabled(s, step)
  {
    match step
    case Begin(i, call) => s.(threads := s.threads[i := Calling(call, |s.done|)])
    case Tick(now) => s.(clock := now)
    case Acquire(i) => AfterAcquire(s, i)
    case Work(i) =>
      var p := s.threads[i];
      s.(threads := s.threads[i := Working(At(p.call, s.clock), p.born, p.copy)])
    case Save(i, how) => AfterSave(s, i, how)
    case Publish(i) =>
      var p := s.threads[i];
      Answer(s.(holder := None, cache := s.cache[p.call.id := p.updated]), i, p.call, None, Success(p.updated))
    case Make(i) => AfterMake(s, i)
    case StoreNew(i, how) => AfterStoreNew(s, i, how)
    case PublishNew(i) =>
      var p := s.threads[i];
      Answer(s.(cache := s.cache[p.call.id := p.made]), i, p.call, None, Success(p.made))
    case TakeSnapshot(o) => AfterSnapshot(s, o)
  }

  ghost predicate Init(s: State) {
    && s.store == s.cache == s.base && s.logged == [] && s.log.Open? && s.tidy
    && s.holder == None && s.threads == map[] && s.done == []
    && Good(s.cache) && AllNotAfter(s.cache, s.clock)
  }

  // ---------------------------------------------------------------- invariants

  predicate HasLock(p: Phase) {
    p.Holding? || p.Working? || p.InStore?
  }

  ghost predicate LockInv(s: State) {
    && (forall i :: i in s.threads && HasLock(s.threads[i]) ==> s.holder == Some(i))
    && (s.holder.Some? ==> s.holder.value in s.threads && HasLock(s.threads[s.holder.value]))
  }

  /** What a call under way knows about cache and store. */
  ghost predicate PhaseInv(p: Phase, cache: Tasks, store: Tasks, clock: Time) {
    match p
    case Calling(_, _) => true
    case Holding(c, _, copy) => !c.Create? && !TurnedAway(cache, c) && cache[c.id] == copy
    case Working(c, _, copy) => !c.Create? && !TurnedAway(cache, c) && cache[c.id] == copy && c.now <= clock
    case InStore(c, _, t) =>
      && !c.Create? && c.id in cache && c.id in store && store[c.id] == t && t.id == c.id
      && Exec(cache, c).result == Success(t) && Exec(cache, c).tasks == cache[c.id := t]
    case Made(c, _) => c.Create? && Urls.Normalize(c.rawUrls).Success? && c.now <= clock
    case Created(c, _, t) =>
      && c.Create? && c.id in store && c.id !in cache && store[c.id] == t
      && Urls.Normalize(c.rawUrls).Success? && t == NewOf(c)
  }

  ghost predicate PhasesInv(s: State) {
    && (forall i :: i in s.threads ==> PhaseInv(s.threads[i], s.cache, s.store, s.clock))
    && (forall i, j :: i in s.threads && j in s.threads && i != j && s.threads[i].Created? && s.threads[j].Created? ==>
          s.threads[i].call.id != s.threads[j].call.id)
  }

  predicate BeingSaved(s: State, id: string) {
    s.holder.Some? && s.holder.value in s.threads && s.threads[s.holder.value].InStore? && s.threads[s.holder.value].call.id == id
  }

  ghost predicate BeingCreated(s: State, id: string) {
    exists i :: i in s.threads && s.threads[i].Created? && s.threads[i].call.id == id
  }

  /** The cache is the store but for the task being saved and the tasks being created. */
  ghost predicate MapsInv(s: State) {
    && (forall id :: id in s.cache ==> id in s.store && (s.store[id] == s.cache[id] || BeingSaved(s, id)))
    && (forall id :: id in s.store && id !in s.cache ==> BeingCreated(s, id))
  }

  ghost function Talk(s: State): Verdict {
    if LockInv(s) && PhasesInv(s) && MapsInv(s) then Sound else Unsound
  }

  ghost predicate TalkInv(s: State) {
    Talk(s) == Sound
  }

  /** The disk rebuilds the store, now and after more has been logged. */
  ghost predicate DiskInv(store: Tasks, base: Tasks, log: seq<Event>, clock: Time) {
    && AllNotAfter(base, clock) && base.Keys <= store.Keys && AllReadable(log)
    && (forall k :: 0 <= k < |log| ==> log[k].createdAt <= clock)
    && (forall k, id :: 0 <= k < |log| && Concerns(log[k], id) ==> id in store)
    && Apply(base, log) == store && ReplaySafe(base, log)
  }

  ghost predicate StoreInv(store: Tasks, clock: Time) {
    Good(store) && AllNotAfter(store, clock)
  }

  ghost function Durable(s: State): Verdict {
    if StoreInv(s.store, s.clock) && (s.tidy ==> DiskInv(s.store, s.base, s.logged, s.clock)) then Sound else Unsound
  }

  ghost predicate SavedInv(s: State) {
    Durable(s) == Sound
  }

  /** A call that has read the clock finds nothing about its task that is later. */
  ghost predicate OnTime(s: State, c: Call) {
    && c.id in s.store && NotAfter(s.store[c.id].updatedAt, c.now)
    && (s.tidy ==>
          && (c.id in s.base ==> NotAfter(s.base[c.id].updatedAt, c.now))
          && forall k :: 0 <= k < |s.logged| && Concerns(s.logged[k], c.id) ==> s.logged[k].createdAt <= c.now)
  }

  ghost function Timely(s: State): Verdict {
    if forall i :: i in s.threads && s.threads[i].Working? ==> OnTime(s, s.threads[i].call) then Sound else Unsound
  }

  ghost predicate TimeInv(s: State) {
    Timely(s) == Sound
  }

  function RunEntries(m: Tasks, done: seq<Entry>): Tasks
    decreases |done|
  {
    if done == [] then m
    else
      var r := RunEntries(m, done[..|done| - 1]);
      var e := done[|done| - 1];
      Serve(r, Exec(r, e.call), e.fault).tasks
  }

  /** The answer is the one a sequential run in this order gives, and the call is not listed before one
      that had been answered when it began. */
  ghost predicate EntryAt(m: Tasks, done: seq<Entry>, k: nat)
    requires k < |done|
  {
    && done[k].born <= k
    && var r := RunEntries(m, done[..k]);
       done[k].reply == Serve(r, Exec(r, done[k].call), done[k].fault).result
  }

  ghost predicate InSequence(m: Tasks, done: seq<Entry>) {
    forall k: nat :: k < |done| ==> EntryAt(m, done, k)
  }

  ghost function Answered(m: Tasks, s: State): Verdict {
    if RunEntries(m, s.done) == s.cache && InSequence(m, s.done) && forall i :: i in s.threads ==> s.threads[i].born <= |s.done|
    then Sound else Unsound
  }

  ghost predicate DoneInv(m: Tasks, s: State) {
    Answered(m, s) == Sound
  }

  ghost predicate Inv(m: Tasks, s: State) {
    TalkInv(s) && SavedInv(s) && TimeInv(s) && DoneInv(m, s)
  }

  // ---------------------------------------------------------------- cache, store and lock

  /** Steps that leave clock, cache and store to what they were keep the talk but for threads and holder. */
  predicate SameMaps(s: State, s': State) {
    s'.cache == s.cache && s'.store == s.store && s'.clock == s.clock
  }

  /** A step of another call leaves a creation under way. */
  lemma StillCreated(s: State, s': State, i: nat, id: string)
    requires BeingCreated(s, id)
    requires forall j :: j in s.threads && j != i ==> j in s'.threads && s'.threads[j] == s.threads[j]
    requires i in s.threads ==> !s.threads[i].Created? || s.threads[i].call.id != id
    ensures BeingCreated(s', id)
  {
    var j :| j in s.threads && s.threads[j].Created? && s.threads[j].call.id == id;
    assert s'.threads[j] == s.threads[j];
  }

  lemma OthersStillCreated(s: State, s': State, i: nat)
    requires MapsInv(s) && (i in s.threads ==> !s.threads[i].Created?)
    requires forall j :: j in s.threads && j != i ==> j in s'.threads && s'.threads[j] == s.threads[j]
    ensures forall id :: id in s.store && id !in s.cache ==> BeingCreated(s', id)
  {
    forall id | id in s.store && id !in s.cache ensures BeingCreated(s', id) {
      StillCreated(s, s', i, id);
    }
  }

  /** The phases of the others stay what they are; that of call i is sound and no creation. */
  lemma PhasesStay(s: State, s': State, i: nat)
    requires PhasesInv(s) && SameMaps(s, s')
    requires forall j :: j in s'.threads && j != i ==> j in s.threads && s'.threads[j] == s.threads[j]
    requires i in s'.threads ==> PhaseInv(s'.threads[i], s.cache, s.store, s.clock) && !s'.threads[i].Created?
    ensures PhasesInv(s')
  {
    forall j | j in s'.threads ensures PhaseInv(s'.threads[j], s'.cache, s'.store, s'.clock) {
      if j != i {
        assert PhaseInv(s.threads[j], s.cache, s.store, s.clock);
      }
    }
  }

  /** With cache and store as they are, the talk stays sound if lock and phases do. */
  lemma TalkGoesOn(s: State, s': State, i: nat)
    requires MapsInv(s) && SameMaps(s, s') && LockInv(s') && PhasesInv(s')
    requires forall j :: j in s.threads && j != i ==> j in s'.threads && s'.threads[j] == s.threads[j]
    requires i in s.threads ==> !s.threads[i].Created? && !s.threads[i].InStore?
    requires s.holder.Some? && s.holder.value != i ==> s'.holder == s.holder
    ensures TalkInv(s')
  {
    OthersStillCreated(s, s', i);
    forall id | id in s.cache ensures id in s.store && (s.store[id] == s.cache[id] || BeingSaved(s', id)) {
    }
  }

  lemma BeginTalk(s: State, i: nat, call: Call)
    requires TalkInv(s) && Enabled(s, Begin(i, call))
    ensures TalkInv(After(s, Begin(i, call)))
  {
    PhasesStay(s, After(s, Begin(i, call)), i);
    TalkGoesOn(s, After(s, Begin(i, call)), i);
  }

  lemma TickTalk(s: State, now: Time)
    requires TalkInv(s) && s.clock <= now
    ensures TalkInv(s.(clock := now))
  {
    forall id | id in s.store && id !in s.cache ensures BeingCreated(s.(clock := now), id) {
      assert BeingCreated(s, id);
    }
  }

  /** A call without the lock, not about to publish, is answered. */
  lemma LeaveTalk(s: State, s': State, i: nat)
    requires TalkInv(s) && i in s.threads && !HasLock(s.threads[i]) && !s.threads[i].Created?
    requires SameMaps(s, s') && s'.holder == s.holder && s'.threads == s.threads - {i}
    ensures TalkInv(s')
  {
    PhasesStay(s, s', i);
    TalkGoesOn(s, s', i);
  }

  /** The holder of the lock is answered without having stored anything. */
  lemma ReleaseTalk(s: State, s': State, i: nat)
    requires TalkInv(s) && i in s.threads && s.threads[i].Working?
    requires SameMaps(s, s') && s'.holder == None && s'.threads == s.threads - {i}
    ensures TalkInv(s')
  {
    PhasesStay(s, s', i);
    TalkGoesOn(s, s', i);
  }

  lemma HoldTalk(s: State, s': State, i: nat, c: Call)
    requires TalkInv(s) && i in s.threads && s.threads[i].Calling? && s.holder == None
    requires !c.Create? && !TurnedAway(s.cache, c) && SameMaps(s, s') && s'.holder == Some(i)
    requires s'.threads == s.threads[i := Holding(c, s.threads[i].born, s.cache[c.id])]
    ensures TalkInv(s')
  {
    PhasesStay(s, s', i);
    TalkGoesOn(s, s', i);
  }

  lemma WorkTalk(s: State, i: nat)
    requires TalkInv(s) && Enabled(s, Work(i))
    ensures TalkInv(After(s, Work(i)))
  {
    assert PhaseInv(s.threads[i], s.cache, s.store, s.clock);
    PhasesStay(s, After(s, Work(i)), i);
    TalkGoesOn(s, After(s, Work(i)), i);
  }

  lemma PublishPhases(s: State, i: nat)
    requires LockInv(s) && PhasesInv(s) && MapsInv(s) && Enabled(s, Publish(i))
    ensures PhasesInv(After(s, Publish(i)))
  {
    var s' := After(s, Publish(i));
    assert PhaseInv(s.threads[i], s.cache, s.store, s.clock);
    forall j | j in s'.threads ensures PhaseInv(s'.threads[j], s'.cache, s'.store, s'.clock) {
      assert PhaseInv(s.threads[j], s.cache, s.store, s.clock);
    }
  }

  lemma PublishTalk(s: State, i: nat)
    requires TalkInv(s) && Enabled(s, Publish(i))
    ensures TalkInv(After(s, Publish(i)))
  {
    PublishPhases(s, i);
    OthersStillCreated(s, After(s, Publish(i)), i);
  }

  lemma PublishNewPhases(s: State, i: nat)
    requires LockInv(s) && PhasesInv(s) && Enabled(s, PublishNew(i))
    ensures PhasesInv(After(s, PublishNew(i)))
  {
    var s' := After(s, PublishNew(i));
    assert PhaseInv(s.threads[i], s.cache, s.store, s.clock);
    forall j | j in s'.threads ensures PhaseInv(s'.threads[j], s'.cache, s'.store, s'.clock) {
      assert PhaseInv(s.threads[j], s.cache, s.store, s.clock);
    }
  }

  lemma PublishNewTalk(s: State, i: nat)
    requires TalkInv(s) && Enabled(s, PublishNew(i))
    ensures TalkInv(After(s, PublishNew(i)))
  {
    var s' := After(s, PublishNew(i));
    assert PhaseInv(s.threads[i], s.cache, s.store, s.clock);
    PublishNewPhases(s, i);
    forall id | id in s.store && id !in s'.cache ensures BeingCreated(s', id) {
      StillCreated(s, s', i, id);
    }
    assert MapsInv(s') && LockInv(s');
  }

  /** The holder of the lock stores its updated task: its own phase, and those of the others. */
  lemma StorePhases(s: State, s': State, i: nat, c: Call, t: Task)
    requires LockInv(s) && PhasesInv(s) && MapsInv(s) && i in s.threads && s.threads[i].Working? && c.id == s.threads[i].call.id
    requires !c.Create? && c.id in s.cache && t.id == c.id
    requires Exec(s.cache, c).result == Success(t) && Exec(s.cache, c).tasks == s.cache[c.id := t]
    requires s'.cache == s.cache && s'.store == s.store[c.id := t] && s'.clock == s.clock
    requires s'.threads == s.threads[i := InStore(c, s.threads[i].born, t)]
    ensures PhasesInv(s')
  {
    forall j | j in s'.threads ensures PhaseInv(s'.threads[j], s'.cache, s'.store, s'.clock) {
      if j != i {
        assert PhaseInv(s.threads[j], s.cache, s.store, s.clock);
      }
    }
  }

  lemma StoreMaps(s: State, s': State, i: nat, c: Call, t: Task)
    requires LockInv(s) && MapsInv(s) && i in s.threads && s.threads[i].Working? && c.id in s.cache
    requires s'.cache == s.cache && s'.store == s.store[c.id := t]
    requires s'.holder == s.holder && s'.threads == s.threads[i := InStore(c, s.threads[i].born, t)]
    ensures LockInv(s') && MapsInv(s')
  {
    OthersStillCreated(s, s', i);
    assert BeingSaved(s', c.id);
    assert forall id :: !BeingSaved(s, id);
  }

  lemma StoreTalk(s: State, s': State, i: nat, c: Call, t: Task)
    requires TalkInv(s) && i in s.threads && s.threads[i].Working? && c.id == s.threads[i].call.id && !c.Create?
    requires c.id in s.cache && t.id == c.id
    requires Exec(s.cache, c).result == Success(t) && Exec(s.cache, c).tasks == s.cache[c.id := t]
    requires s'.cache == s.cache && s'.store == s.store[c.id := t] && s'.clock == s.clock
    requires s'.holder == s.holder && s'.threads == s.threads[i := InStore(c, s.threads[i].born, t)]
    ensures TalkInv(s')
  {
    StorePhases(s, s', i, c, t);
    StoreMaps(s, s', i, c, t);
  }

  lemma MadeTalk(s: State, s': State, i: nat, c: Call)
    requires TalkInv(s) && i in s.threads && s.threads[i].Calling?
    requires c.Create? && c.now == s.clock && Urls.Normalize(c.rawUrls).Success?
    requires SameMaps(s, s') && s'.holder == s.holder && s'.threads == s.threads[i := Made(c, s.threads[i].born)]
    ensures TalkInv(s')
  {
    PhasesStay(s, s', i);
    TalkGoesOn(s, s', i);
  }

  lemma CreatedTalk(s: State, s': State, i: nat, c: Call)
    requires TalkInv(s) && i in s.threads && s.threads[i].Made? && s.threads[i].call == c && c.id !in s.store
    requires c.Create? && Urls.Normalize(c.rawUrls).Success?
    requires s'.cache == s.cache && s'.store == s.store[c.id := NewOf(c)] && s'.clock == s.clock
    requires s'.holder == s.holder && s'.threads == s.threads[i := Created(c, s.threads[i].born, NewOf(c))]
    ensures TalkInv(s')
  {
    OthersStillCreated(s, s', i);
    assert BeingCreated(s', c.id) by {
      assert s'.threads[i].Created?;
    }
    CreatedPhases(s, s', i, c);
  }

  lemma CreatedPhases(s: State, s': State, i: nat, c: Call)
    requires PhasesInv(s) && MapsInv(s) && i in s.threads && s.threads[i].Made? && c.id !in s.store
    requires c.Create? && Urls.Normalize(c.rawUrls).Success?
    requires s'.cache == s.cache && s'.store == s.store[c.id := NewOf(c)] && s'.clock == s.clock
    requires s'.threads == s.threads[i := Created(c, s.threads[i].born, NewOf(c))]
    ensures PhasesInv(s')
  {
    forall j | j in s'.threads ensures PhaseInv(s'.threads[j], s'.cache, s'.store, s'.clock) {
      if j != i {
        assert PhaseInv(s.threads[j], s.cache, s.store, s.clock);
      }
    }
  }

  // ---------------------------------------------------------------- answers

  lemma SameEntries(m: Tasks, done: seq<Entry>, e: Entry, k: nat)
    requires k < |done| && EntryAt(m, done, k)
    ensures EntryAt(m, done + [e], k)
  {
    assert (done + [e])[..k] == done[..k];
  }

  lemma AnswerInSequence(m: Tasks, s: State, i: nat, call: Call, fault: Option<StoreError>,
                         reply: Result<Task, ServiceError>, cache: Tasks)
    requires DoneInv(m, s) && i in s.threads
    requires Reply(cache, reply) == Serve(s.cache, Exec(s.cache, call), fault)
    ensures DoneInv(m, Answer(s, i, call, fault, reply).(cache := cache))
  {
    var e := Entry(call, s.threads[i].born, fault, reply);
    var done := s.done + [e];
    assert done[..|done| - 1] == s.done;
    forall k: nat | k < |done| ensures EntryAt(m, done, k) {
      if k < |s.done| {
        assert EntryAt(m, s.done, k);
        SameEntries(m, s.done, e, k);
      } else {
        assert done[..k] == s.done;
      }
    }
  }

  // ---------------------------------------------------------------- the disk

  /** A Mark call looks only at its own task. */
  lemma MarkIsLocal(m: Tasks, r: Tasks, c: Call)
    requires !c.Create? && c.id in m && c.id in r && m[c.id] == r[c.id]
    ensures ExecMark(m, c).result == ExecMark(r, c).result && ExecMark(m, c).events == ExecMark(r, c).events
    ensures
      var o := ExecMark(m, c);
      o.tasks == if o.result.Success? then m[c.id := o.result.value] else m
  {
  }

  /** What the call computes from its copy is what it would compute from cache or store. */
  lemma CopyIsCurrent(s: State, i: nat, c: Call)
    requires TalkInv(s) && i in s.threads && s.threads[i].Working? && c == s.threads[i].call
    ensures !c.Create? && c.id in s.cache && c.id in s.store && s.cache[c.id] == s.store[c.id] == s.threads[i].copy
    ensures
      var o, p, q := ExecMark(map[c.id := s.threads[i].copy], c), ExecMark(s.cache, c), ExecMark(s.store, c);
      && o.result == p.result == q.result && o.events == p.events == q.events
      && (o.result.Success? ==> p.tasks == s.cache[c.id := o.result.value] && q.tasks == s.store[c.id := o.result.value])
      && (o.result.Failure? ==> p.tasks == s.cache)
  {
    assert PhaseInv(s.threads[i], s.cache, s.store, s.clock);
    assert !BeingSaved(s, c.id);
    MarkIsLocal(s.cache, map[c.id := s.threads[i].copy], c);
    MarkIsLocal(s.store, map[c.id := s.threads[i].copy], c);
  }

  lemma MarkConcerns(store: Tasks, log: seq<Event>, c: Call)
    requires !c.Create? && c.id in store
    requires forall k, id :: 0 <= k < |log| && Concerns(log[k], id) ==> id in store
    ensures
      var all := log + ExecMark(store, c).events;
      forall k, id :: 0 <= k < |all| && Concerns(all[k], id) ==> id in ExecMark(store, c).tasks
  {
    var evs := ExecMark(store, c).events;
    EventsOfMark(store, c);
    forall k, id | 0 <= k < |log + evs| && Concerns((log + evs)[k], id) ensures id in store {
      if k >= |log| {
        assert (log + evs)[k] == evs[k - |log|];
      }
    }
  }

  lemma MarkIsGood(store: Tasks, c: Call, clock: Time)
    requires StoreInv(store, clock) && !c.Create? && c.now <= clock
    ensures StoreInv(Exec(store, c).tasks, clock)
  {
    ExecKeepsGood(store, c);
    if Exec(store, c).events != [] {
      ChangesAreExpressible(store, c);
    }
  }

  /** A mark's events recover it if its own task is not newer. */
  lemma MarkRecovers(store: Tasks, c: Call)
    requires Good(store) && !c.Create? && c.id in store && NotAfter(store[c.id].updatedAt, c.now)
    ensures Apply(store, Exec(store, c).events) == Exec(store, c).tasks
  {
    if Exec(store, c).events != [] {
      ChangesAreExpressible(store, c);
      var was := store[c.id].files[c.index];
      var f := if c.MarkQueued? then QueuedFile(was) else MarkedFile(was, c);
      PrefixesOfChange(store, c.id, c.index, f, c.now, !c.MarkQueued?);
    }
  }

  /** A mark may be logged with an older time than events before it: those are about other tasks. */
  lemma LateMarkOnDisk(store: Tasks, base: Tasks, log: seq<Event>, c: Call, clock: Time)
    requires StoreInv(store, clock) && DiskInv(store, base, log, clock) && !c.Create? && c.id in store && c.now <= clock
    requires NotAfter(store[c.id].updatedAt, c.now) && (c.id in base ==> NotAfter(base[c.id].updatedAt, c.now))
    requires forall k :: 0 <= k < |log| && Concerns(log[k], c.id) ==> log[k].createdAt <= c.now
    ensures DiskInv(Exec(store, c).tasks, base, log + Exec(store, c).events, clock)
  {
    var o := Exec(store, c);
    MarkRecovers(store, c);
    EventsOfMark(store, c);
    ApplyConcat(base, log, o.events);
    ReplaySafeGrowsLate(base, log, o.events, c.id, c.now);
    ReadableConcat(log, o.events);
    MarkConcerns(store, log, c);
    MarkKeepsTasks(store, c);
  }

  lemma MarkKeepsTasks(store: Tasks, c: Call)
    requires !c.Create?
    ensures Exec(store, c).tasks.Keys == store.Keys
  {
  }

  lemma ReadableConcat(a: seq<Event>, b: seq<Event>)
    requires AllReadable(a) && AllReadable(b)
    ensures AllReadable(a + b)
  {
  }

  /** A creation may be logged with an older time than events before it: none of those is about the
      same task. */
  lemma NewOnDisk(store: Tasks, base: Tasks, log: seq<Event>, clock: Time, t: Task, now: Time)
    requires DiskInv(store, base, log, clock) && t.id !in store && now <= clock
    requires NotAfter(t.updatedAt, clock)
    ensures
      var ev := Event(LogVersion, t.id, now, TaskCreated(Some(t)));
      DiskInv(store[t.id := t], base, log + [ev], clock)
  {
    var ev := Event(LogVersion, t.id, now, TaskCreated(Some(t)));
    var all := log + [ev];
    assert all[..|all| - 1] == log;
    ApplyConcat(base, log, [ev]);
    ApplyOne(store, ev);
    NewKeepsOrder(base, log, ev, t);
  }

  lemma NewKeepsOrder(base: Tasks, log: seq<Event>, ev: Event, t: Task)
    requires ReplaySafe(base, log) && t.id !in base && ev.payload == TaskCreated(Some(t))
    requires forall k :: 0 <= k < |log| ==> !Concerns(log[k], t.id)
    ensures ReplaySafe(base, log + [ev])
  {
    var all := log + [ev];
    forall id ensures InOrder(id, all) {
      assert InOrder(id, log);
    }
    forall id | id in base ensures Settled(base[id], id, all) {
      assert Settled(base[id], id, log);
      assert all[..|all| - 1] == log;
      if Creates(id, log) {
        var k :| 0 <= k < |log| && IsCreation(log[k], id);
        assert IsCreation(all[k], id);
      }
    }
  }

  /** A snapshot of the store may stand over the whole log or over none. */
  lemma SnapshotOnDisk(store: Tasks, base: Tasks, log: seq<Event>, clock: Time)
    requires DiskInv(store, base, log, clock) && AllNotAfter(store, clock)
    ensures DiskInv(store, store, log, clock)
  {
    DoubleReplay(base, log);
  }

  lemma EmptyLogOnDisk(store: Tasks, clock: Time)
    requires AllNotAfter(store, clock)
    ensures DiskInv(store, store, [], clock)
  {
    NothingToReplay(store);
  }

  /** While no fault has left a trace, a restart from a disk that holds base and logged finds the store,
      if every line can be read back. */
  lemma TidyRecovers(c: Codec, s: State, d: DiskState)
    requires Lossless(c) && SavedInv(s) && s.tidy
    requires SnapshotTasks(d.snapshot) == s.base && LogText(d) == EncodeAll(c, s.logged) && Clean(c, s.logged)
    ensures Recover(c, d) == if Short(c, s.logged) then Success(s.store) else Failure(BadLog(LineTooLong))
    ensures Holds(c, d, s.logged, s.store) <==> Short(c, s.logged)
  {
    LogReloadsIff(c, d, s.logged);
  }

  // ---------------------------------------------------------------- calls that have read the clock

  predicate SameDisk(s: State, s': State) {
    s'.store == s.store && s'.base == s.base && s'.logged == s.logged && s'.tidy == s.tidy
  }

  lemma TimeStays(s: State, s': State, i: nat)
    requires TimeInv(s) && SameDisk(s, s')
    requires forall j :: j in s'.threads && j != i ==> j in s.threads && s'.threads[j] == s.threads[j]
    requires i in s'.threads ==> !s'.threads[i].Working?
    ensures TimeInv(s')
  {
    forall j | j in s'.threads && s'.threads[j].Working? ensures OnTime(s', s'.threads[j].call) {
      assert OnTime(s, s.threads[j].call);
    }
  }

  lemma TimeGoesOn(s: State, s': State)
    requires TimeInv(s) && SameDisk(s, s') && s'.threads == s.threads
    ensures TimeInv(s')
  {
    forall j | j in s'.threads && s'.threads[j].Working? ensures OnTime(s', s'.threads[j].call) {
      assert OnTime(s, s.threads[j].call);
    }
  }

  lemma WorkIsOnTime(s: State, i: nat)
    requires TalkInv(s) && SavedInv(s) && TimeInv(s) && Enabled(s, Work(i))
    ensures TimeInv(After(s, Work(i)))
  {
    var s' := After(s, Work(i));
    assert PhaseInv(s.threads[i], s.cache, s.store, s.clock);
    assert forall j :: j in s'.threads && s'.threads[j].Working? ==> j == i;
    assert OnTime(s', s'.threads[i].call);
  }

  /** Only the holder of the lock works; once it has turned to the store nobody does. */
  lemma NobodyWorks(s: State, s': State, i: nat)
    requires LockInv(s) && i in s.threads && s.threads[i].Working?
    requires forall j :: j in s'.threads && j != i ==> j in s.threads && s'.threads[j] == s.threads[j]
    requires i in s'.threads ==> !s'.threads[i].Working?
    ensures TimeInv(s')
  {
  }

  /** A creation, logged or not, is about no task that is being worked on. */
  lemma NewIsOnTime(s: State, s': State, i: nat, c: Call, t: Task)
    requires TimeInv(s) && i in s.threads && c.id !in s.store && s'.base == s.base
    requires s'.store == s.store || s'.store == s.store[c.id := t]
    requires s'.tidy ==> s.tidy && (s'.logged == s.logged || (s'.logged == s.logged + [Event(LogVersion, c.id, c.now, TaskCreated(Some(t)))] && t.id == c.id))
    requires forall j :: j in s'.threads && j != i ==> j in s.threads && s'.threads[j] == s.threads[j]
    requires i in s'.threads ==> !s'.threads[i].Working?
    ensures TimeInv(s')
  {
    forall j | j in s'.threads && s'.threads[j].Working? ensures OnTime(s', s'.threads[j].call) {
      assert OnTime(s, s.threads[j].call);
    }
  }

  lemma SnapshotIsOnTime(s: State, o: SnapshotOutcome)
    requires TimeInv(s) && Enabled(s, TakeSnapshot(o))
    ensures TimeInv(After(s, TakeSnapshot(o)))
  {
    var s' := After(s, TakeSnapshot(o));
    forall j | j in s'.threads && s'.threads[j].Working? ensures OnTime(s', s'.threads[j].call) {
      assert OnTime(s, s.threads[j].call);
    }
  }

  // ---------------------------------------------------------------- each step keeps the invariant

  lemma BeginKeeps(m: Tasks, s: State, i: nat, call: Call)
    requires Inv(m, s) && Enabled(s, Begin(i, call))
    ensures Inv(m, After(s, Begin(i, call)))
  {
    BeginTalk(s, i, call);
    TimeStays(s, After(s, Begin(i, call)), i);
  }

  lemma TickKeeps(m: Tasks, s: State, now: Time)
    requires Inv(m, s) && Enabled(s, Tick(now))
    ensures Inv(m, After(s, Tick(now)))
  {
    TickTalk(s, now);
    TimeGoesOn(s, After(s, Tick(now)));
    AnswersStay(m, s, After(s, Tick(now)));
  }

  lemma TurnAwayKeeps(m: Tasks, s: State, i: nat)
    requires Inv(m, s) && Enabled(s, Acquire(i)) && TurnedAway(s.cache, s.threads[i].call)
    ensures Inv(m, After(s, Acquire(i)))
  {
    var c := s.threads[i].call;
    var why := ExecMark(s.cache, c).result.error;
    ServeMark(s.cache, c, Reject(s.cache, why));
    AnswerInSequence(m, s, i, c, None, Failure(Rejected(why)), s.cache);
    LeaveTalk(s, After(s, Acquire(i)), i);
    TimeStays(s, After(s, Acquire(i)), i);
  }

  lemma AcquireKeeps(m: Tasks, s: State, i: nat)
    requires Inv(m, s) && Enabled(s, Acquire(i))
    ensures Inv(m, After(s, Acquire(i)))
  {
    if TurnedAway(s.cache, s.threads[i].call) {
      TurnAwayKeeps(m, s, i);
    } else {
      HoldTalk(s, After(s, Acquire(i)), i, s.threads[i].call);
      DoneStays(m, s, After(s, Acquire(i)), i);
      TimeStays(s, After(s, Acquire(i)), i);
    }
  }

  lemma WorkKeeps(m: Tasks, s: State, i: nat)
    requires Inv(m, s) && Enabled(s, Work(i))
    ensures Inv(m, After(s, Work(i)))
  {
    WorkTalk(s, i);
    WorkIsOnTime(s, i);
    DoneStays(m, s, After(s, Work(i)), i);
  }

  lemma PublishKeeps(m: Tasks, s: State, i: nat)
    requires Inv(m, s) && Enabled(s, Publish(i))
    ensures Inv(m, After(s, Publish(i)))
  {
    var p := s.threads[i];
    assert PhaseInv(p, s.cache, s.store, s.clock);
    AnswerInSequence(m, s, i, p.call, None, Success(p.updated), s.cache[p.call.id := p.updated]);
    PublishTalk(s, i);
    TimeStays(s, After(s, Publish(i)), i);
  }

  lemma PublishNewKeeps(m: Tasks, s: State, i: nat)
    requires Inv(m, s) && Enabled(s, PublishNew(i))
    ensures Inv(m, After(s, PublishNew(i)))
  {
    var p := s.threads[i];
    assert PhaseInv(p, s.cache, s.store, s.clock);
    ExecCreate(s.cache, p.call, Urls.Normalize(p.call.rawUrls));
    AnswerInSequence(m, s, i, p.call, None, Success(p.made), s.cache[p.call.id := p.made]);
    PublishNewTalk(s, i);
    TimeStays(s, After(s, PublishNew(i)), i);
  }

  lemma MakeKeeps(m: Tasks, s: State, i: nat)
    requires Inv(m, s) && Enabled(s, Make(i))
    ensures Inv(m, After(s, Make(i)))
  {
    var c := At(s.threads[i].call, s.clock);
    match Urls.Normalize(c.rawUrls)
    case Success(_) =>
      MadeTalk(s, After(s, Make(i)), i, c);
      TimeStays(s, After(s, Make(i)), i);
    case Failure(why) =>
      ExecCreate(s.cache, c, Failure(why));
      AnswerInSequence(m, s, i, c, None, Failure(Rejected(BadUrls(why))), s.cache);
      LeaveTalk(s, After(s, Make(i)), i);
      TimeStays(s, After(s, Make(i)), i);
  }

  /** A batch that fails leaves the store and, without a trace, the log as they were. */
  lemma FailedLog(s: State, batch: seq<Event>, how: Logging)
    requires SavedInv(s) && CanLog(s.log, batch, how) && how.Fails?
    ensures SavedInv(Log(s, batch, how))
  {
    if s.log.Open? && how.kept == 0 {
      assert s.logged + batch[..0] == s.logged;
    }
  }

  lemma FailedLogIsOnTime(s: State, batch: seq<Event>, how: Logging)
    requires CanLog(s.log, batch, how) && how.Fails?
    ensures var l := Log(s, batch, how); l.base == s.base && l.store == s.store && (l.tidy ==> s.tidy && l.logged == s.logged)
  {
    if s.log.Open? && how.kept == 0 {
      assert s.logged + batch[..0] == s.logged;
    }
  }

  /** The holder of the lock is answered and the cache stays as it is. */
  lemma ReleaseKeeps(m: Tasks, s: State, l: State, i: nat, c: Call, fault: Option<StoreError>, reply: Result<Task, ServiceError>)
    requires Inv(m, s) && i in s.threads && s.threads[i].Working?
    requires l == s.(logged := l.logged, log := l.log, tidy := l.tidy) && SavedInv(l)
    requires Reply(s.cache, reply) == Serve(s.cache, Exec(s.cache, c), fault)
    ensures Inv(m, Answer(l.(holder := None), i, c, fault, reply))
  {
    AnswerInSequence(m, s, i, c, fault, reply, s.cache);
    ReleaseTalk(s, Answer(l.(holder := None), i, c, fault, reply), i);
    NobodyWorks(s, Answer(l.(holder := None), i, c, fault, reply), i);
  }

  lemma SaveRejected(m: Tasks, s: State, i: nat, how: Logging)
    requires Inv(m, s) && Enabled(s, Save(i, how)) && Marked(s, i).result.Failure?
    ensures Inv(m, After(s, Save(i, how)))
  {
    var c := s.threads[i].call;
    CopyIsCurrent(s, i, c);
    ServeMark(s.cache, c, ExecMark(s.cache, c));
    ReleaseKeeps(m, s, s, i, c, None, Failure(Rejected(Marked(s, i).result.error)));
  }

  /** A mark that logs nothing leaves its task as it is. */
  lemma IgnoredMark(m: Tasks, c: Call)
    requires !c.Create? && ExecMark(m, c).result.Success? && ExecMark(m, c).events == []
    ensures c.id in m && m[c.id := ExecMark(m, c).result.value] == m == ExecMark(m, c).tasks
  {
  }

  lemma ShapeOfIgnored(s: State, i: nat, how: Logging)
    requires Enabled(s, Save(i, how)) && Marked(s, i).result.Success? && Marked(s, i).events == []
    ensures
      var c, t := s.threads[i].call, Marked(s, i).result.value;
      s.cache[c.id := t] == s.cache ==> After(s, Save(i, how)) == Answer(s.(holder := None), i, c, None, Success(t))
  {
  }

  lemma SaveIgnored(m: Tasks, s: State, i: nat, how: Logging)
    requires Inv(m, s) && Enabled(s, Save(i, how)) && Marked(s, i).result.Success? && Marked(s, i).events == []
    ensures Inv(m, After(s, Save(i, how)))
  {
    var c := s.threads[i].call;
    ShapeOfIgnored(s, i, how);
    CopyIsCurrent(s, i, c);
    IgnoredMark(s.cache, c);
    ServeMark(s.cache, c, ExecMark(s.cache, c));
    ReleaseKeeps(m, s, s, i, c, None, Success(Marked(s, i).result.value));
  }

  lemma SaveFails(m: Tasks, s: State, i: nat, how: Logging)
    requires Inv(m, s) && Enabled(s, Save(i, how)) && Marked(s, i).result.Success? && Marked(s, i).events != [] && how.Fails?
    ensures Inv(m, After(s, Save(i, how)))
  {
    var c := s.threads[i].call;
    CopyIsCurrent(s, i, c);
    ServeMark(s.cache, c, ExecMark(s.cache, c));
    FailedLog(s, Marked(s, i).events, how);
    ReleaseKeeps(m, s, Log(s, Marked(s, i).events, how), i, c, Some(how.error), Failure(StoreFailed(how.error)));
  }

  /** The state after a batch that went through, field by field. */
  lemma ShapeOfSave(s: State, i: nat, how: Logging)
    requires Enabled(s, Save(i, how)) && Marked(s, i).result.Success? && Marked(s, i).events != [] && how.Goes?
    ensures
      var s', c, t := After(s, Save(i, how)), s.threads[i].call, Marked(s, i).result.value;
      && s'.cache == s.cache && s'.store == s.store[c.id := t] && s'.clock == s.clock && s'.base == s.base
      && s'.holder == s.holder && s'.threads == s.threads[i := InStore(c, s.threads[i].born, t)] && s'.done == s.done
      && (s'.tidy ==> s.tidy && s'.logged == s.logged + Marked(s, i).events)
  {
  }

  lemma SaveOnDisk(s: State, s': State, c: Call, t: Task)
    requires SavedInv(s) && OnTime(s, c) && !c.Create? && c.now <= s.clock
    requires Exec(s.store, c).result == Success(t) && Exec(s.store, c).tasks == s.store[c.id := t]
    requires s'.store == s.store[c.id := t] && s'.clock == s.clock && s'.base == s.base
    requires s'.tidy ==> s.tidy && s'.logged == s.logged + Exec(s.store, c).events
    ensures SavedInv(s')
  {
    MarkIsGood(s.store, c, s.clock);
    if s'.tidy {
      LateMarkOnDisk(s.store, s.base, s.logged, c, s.clock);
    }
  }

  /** What the holder of the lock works out, seen from cache and from store. */
  lemma MarkedIsExec(s: State, i: nat)
    requires TalkInv(s) && StoreInv(s.store, s.clock) && i in s.threads && s.threads[i].Working? && !s.threads[i].call.Create?
    ensures
      var c, o := s.threads[i].call, Marked(s, i);
      && c.id in s.cache && c.id in s.store
      && (o.result.Success? ==>
            && o.result.value.id == c.id && Exec(s.store, c).events == o.events
            && Exec(s.cache, c).result == o.result == Exec(s.store, c).result
            && Exec(s.cache, c).tasks == s.cache[c.id := o.result.value]
            && Exec(s.store, c).tasks == s.store[c.id := o.result.value])
  {
    var c := s.threads[i].call;
    CopyIsCurrent(s, i, c);
    ServeMark(s.cache, c, ExecMark(s.cache, c));
    ServeMark(s.store, c, ExecMark(s.store, c));
    ExecKeepsGood(s.store, c);
    if Marked(s, i).result.Success? {
      assert Exec(s.store, c).tasks[c.id] == Marked(s, i).result.value;
    }
  }

  /** A call that goes on is not answered yet. */
  lemma DoneStays(m: Tasks, s: State, s': State, i: nat)
    requires DoneInv(m, s) && i in s.threads && s'.cache == s.cache && s'.done == s.done
    requires i in s'.threads && s'.threads[i].born == s.threads[i].born && s'.threads == s.threads[i := s'.threads[i]]
    ensures DoneInv(m, s')
  {
  }

  lemma WorksInTime(s: State, i: nat)
    requires TalkInv(s) && TimeInv(s) && i in s.threads && s.threads[i].Working?
    ensures OnTime(s, s.threads[i].call) && s.threads[i].call.now <= s.clock
  {
    assert PhaseInv(s.threads[i], s.cache, s.store, s.clock);
  }

  lemma SaveStores(m: Tasks, s: State, i: nat, how: Logging)
    requires Inv(m, s) && Enabled(s, Save(i, how)) && Marked(s, i).result.Success? && Marked(s, i).events != [] && how.Goes?
    ensures Inv(m, After(s, Save(i, how)))
  {
    var s', c, t := After(s, Save(i, how)), s.threads[i].call, Marked(s, i).result.value;
    ShapeOfSave(s, i, how);
    MarkedIsExec(s, i);
    WorksInTime(s, i);
    SaveOnDisk(s, s', c, t);
    StoreTalk(s, s', i, c, t);
    NobodyWorks(s, s', i);
    DoneStays(m, s, s', i);
  }

  lemma SaveKeeps(m: Tasks, s: State, i: nat, how: Logging)
    requires Inv(m, s) && Enabled(s, Save(i, how))
    ensures Inv(m, After(s, Save(i, how)))
  {
    if Marked(s, i).result.Failure? {
      SaveRejected(m, s, i, how);
    } else if Marked(s, i).events == [] {
      SaveIgnored(m, s, i, how);
    } else if how.Fails? {
      SaveFails(m, s, i, how);
    } else {
      SaveStores(m, s, i, how);
    }
  }

  lemma NewRejected(m: Tasks, s: State, i: nat, how: Logging)
    requires Inv(m, s) && Enabled(s, StoreNew(i, how)) && s.threads[i].call.id in s.store
    ensures Inv(m, After(s, StoreNew(i, how)))
  {
    var c := s.threads[i].call;
    ExecCreate(s.cache, c, Urls.Normalize(c.rawUrls));
    AnswerInSequence(m, s, i, c, Some(StoreError.AlreadyExists), Failure(StoreFailed(StoreError.AlreadyExists)), s.cache);
    LeaveTalk(s, After(s, StoreNew(i, how)), i);
    TimeStays(s, After(s, StoreNew(i, how)), i);
  }

  lemma NewFails(m: Tasks, s: State, i: nat, how: Logging)
    requires Inv(m, s) && Enabled(s, StoreNew(i, how)) && s.threads[i].call.id !in s.store && how.Fails?
    ensures Inv(m, After(s, StoreNew(i, how)))
  {
    var c := s.threads[i].call;
    ExecCreate(s.cache, c, Urls.Normalize(c.rawUrls));
    AnswerInSequence(m, s, i, c, Some(how.error), Failure(StoreFailed(how.error)), s.cache);
    LeaveTalk(s, After(s, StoreNew(i, how)), i);
    FailedLog(s, [Creating(c)], how);
    FailedLogIsOnTime(s, [Creating(c)], how);
    NewIsOnTime(s, After(s, StoreNew(i, how)), i, c, NewOf(c));
  }

  lemma ShapeOfNew(s: State, i: nat, how: Logging)
    requires Enabled(s, StoreNew(i, how)) && s.threads[i].call.id !in s.store && how.Goes?
    ensures
      var s', c := After(s, StoreNew(i, how)), s.threads[i].call;
      && s'.cache == s.cache && s'.store == s.store[c.id := NewOf(c)] && s'.clock == s.clock && s'.base == s.base
      && s'.holder == s.holder && s'.threads == s.threads[i := Created(c, s.threads[i].born, NewOf(c))] && s'.done == s.done
      && (s'.tidy ==> s.tidy && s'.logged == s.logged + [Creating(c)])
  {
  }

  lemma NewIsGood(c: Call)
    requires c.Create? && Urls.Normalize(c.rawUrls).Success?
    ensures GoodTask(NewOf(c)) && NewOf(c).id == c.id && NewOf(c).updatedAt == Some(c.now)
  {
    Urls.NormalizeIsIdempotent(c.rawUrls);
    NewTaskIsGood(c.id, c.now, Urls.Normalize(c.rawUrls).value);
  }

  lemma NewSaved(s: State, s': State, c: Call)
    requires SavedInv(s) && c.Create? && Urls.Normalize(c.rawUrls).Success? && c.id !in s.store && c.now <= s.clock
    requires s'.store == s.store[c.id := NewOf(c)] && s'.clock == s.clock && s'.base == s.base
    requires s'.tidy ==> s.tidy && s'.logged == s.logged + [Creating(c)]
    ensures SavedInv(s')
  {
    NewIsGood(c);
    if s'.tidy {
      NewOnDisk(s.store, s.base, s.logged, s.clock, NewOf(c), c.now);
    }
  }

  lemma MadeInTime(s: State, i: nat)
    requires TalkInv(s) && i in s.threads && s.threads[i].Made?
    ensures s.threads[i].call.now <= s.clock
  {
    assert PhaseInv(s.threads[i], s.cache, s.store, s.clock);
  }

  lemma NewStores(m: Tasks, s: State, i: nat, how: Logging)
    requires Inv(m, s) && Enabled(s, StoreNew(i, how)) && s.threads[i].call.id !in s.store && how.Goes?
    ensures Inv(m, After(s, StoreNew(i, how)))
  {
    var s', c := After(s, StoreNew(i, how)), s.threads[i].call;
    ShapeOfNew(s, i, how);
    MadeInTime(s, i);
    NewSaved(s, s', c);
    NewIsOnTime(s, s', i, c, NewOf(c));
    CreatedTalk(s, s', i, c);
    DoneStays(m, s, s', i);
  }

  lemma StoreNewKeeps(m: Tasks, s: State, i: nat, how: Logging)
    requires Inv(m, s) && Enabled(s, StoreNew(i, how))
    ensures Inv(m, After(s, StoreNew(i, how)))
  {
    if s.threads[i].call.id in s.store {
      NewRejected(m, s, i, how);
    } else if how.Fails? {
      NewFails(m, s, i, how);
    } else {
      NewStores(m, s, i, how);
    }
  }

  lemma SnapshotSaved(s: State, o: SnapshotOutcome)
    requires SavedInv(s) && Enabled(s, TakeSnapshot(o))
    ensures SavedInv(After(s, TakeSnapshot(o)))
  {
    EmptyLogOnDisk(s.store, s.clock);
    if s.tidy {
      SnapshotOnDisk(s.store, s.base, s.logged, s.clock);
    }
  }

  lemma AnswersStay(m: Tasks, s: State, s': State)
    requires DoneInv(m, s) && s'.cache == s.cache && s'.done == s.done && s'.threads == s.threads
    ensures DoneInv(m, s')
  {
  }

  /** Nothing but the log is touched. */
  lemma TalkStays(s: State, s': State)
    requires TalkInv(s) && SameMaps(s, s') && s'.holder == s.holder && s'.threads == s.threads
    ensures TalkInv(s')
  {
    forall id | id in s.store && id !in s.cache ensures BeingCreated(s', id) {
      assert BeingCreated(s, id);
    }
  }

  lemma ShapeOfSnapshot(s: State, o: SnapshotOutcome)
    requires Enabled(s, TakeSnapshot(o))
    ensures
      var s' := After(s, TakeSnapshot(o));
      SameMaps(s, s') && s'.holder == s.holder && s'.threads == s.threads && s'.done == s.done
  {
  }

  lemma SnapshotKeeps(m: Tasks, s: State, o: SnapshotOutcome)
    requires Inv(m, s) && Enabled(s, TakeSnapshot(o))
    ensures Inv(m, After(s, TakeSnapshot(o)))
  {
    ShapeOfSnapshot(s, o);
    SnapshotSaved(s, o);
    SnapshotIsOnTime(s, o);
    TalkStays(s, After(s, TakeSnapshot(o)));
    AnswersStay(m, s, After(s, TakeSnapshot(o)));
  }

  lemma InitHolds(s: State)
    requires Init(s)
    ensures Inv(s.cache, s)
  {
    EmptyLogOnDisk(s.store, s.clock);
  }

  lemma StepKeeps(m: Tasks, s: State, step: Step)
    requires Inv(m, s) && Enabled(s, step)
    ensures Inv(m, After(s, step))
  {
    match step
    case Begin(i, call) => BeginKeeps(m, s, i, call);
    case Tick(now) => TickKeeps(m, s, now);
    case Acquire(i) => AcquireKeeps(m, s, i);
    case Work(i) => WorkKeeps(m, s, i);
    case Save(i, how) => SaveKeeps(m, s, i, how);
    case Publish(i) => PublishKeeps(m, s, i);
    case Make(i) => MakeKeeps(m, s, i);
    case StoreNew(i, how) => StoreNewKeeps(m, s, i, how);
    case PublishNew(i) => PublishNewKeeps(m, s, i);
    case TakeSnapshot(o) => SnapshotKeeps(m, s, o);
  }

  // ---------------------------------------------------------------- whole runs

  ghost predicate StepAt(states: seq<State>, steps: seq<Step>, k: nat)
    requires k < |steps| && |states| == |steps| + 1
  {
    Enabled(states[k], steps[k]) && states[k + 1] == After(states[k], steps[k])
  }

  ghost predicate IsRun(states: seq<State>, steps: seq<Step>) {
    && |states| == |steps| + 1 && Init(states[0])
    && forall k: nat :: k < |steps| ==> StepAt(states, steps, k)
  }

  lemma LastStep(states: seq<State>, steps: seq<Step>)
    requires IsRun(states, steps) && steps != []
    ensures
      var n := |steps| - 1;
      IsRun(states[..n + 1], steps[..n]) && Enabled(states[n], steps[n]) && states[n + 1] == After(states[n], steps[n])
  {
    var n := |steps| - 1;
    var (before, earlier) := (states[..n + 1], steps[..n]);
    assert StepAt(states, steps, n);
    forall k: nat | k < n ensures StepAt(before, earlier, k) {
      assert StepAt(states, steps, k);
    }
  }

  /** In every interleaving, with snapshots that fail anywhere and faults that leave traces, the calls
      answered so far are a sequential run in the order of their answers, which respects the order of
      calls that did not overlap; the cache is where that run ends; and while no fault has left a trace a
      restart would rebuild the store. */
  lemma {:induction false} EveryInterleavingIsSequential(states: seq<State>, steps: seq<Step>)
    requires IsRun(states, steps)
    ensures Inv(states[0].cache, states[|steps|])
    decreases |steps|
  {
    var n := |steps|;
    if n == 0 {
      InitHolds(states[0]);
    } else {
      LastStep(states, steps);
      EveryInterleavingIsSequential(states[..n], steps[..n - 1]);
      StepKeeps(states[0].cache, states[n - 1], steps[n - 1]);
    }
  }

  /** When no call is between its store and its cache, cache, store and the sequential run agree, and so
      does a restart if no fault has left a trace. */
  lemma QuietMeansEqual(m: Tasks, s: State)
    requires Inv(m, s)
    requires forall i :: i in s.threads ==> !s.threads[i].InStore? && !s.threads[i].Created?
    ensures s.cache == s.store == RunEntries(m, s.done)
    ensures s.tidy ==> Apply(s.base, s.logged) == s.store
  {
    assert forall id :: !BeingSaved(s, id) && !BeingCreated(s, id);
    EqualTasks(s.cache, s.store);
  }

  /** A snapshot that ends well mends the log, whatever went before. */
  lemma DoneMendsTheLog(m: Tasks, s: State)
    requires Inv(m, s) && Enabled(s, TakeSnapshot(Done))
    ensures var r := After(s, TakeSnapshot(Done)); r.tidy && r.store == s.store && DiskInv(r.store, r.base, r.logged, r.clock)
  {
    SnapshotKeeps(m, s, Done);
  }
}
