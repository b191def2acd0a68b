/** A snapshot put in place beside the older log it could not move away: what a restart then makes of
    each file. */
module StaleLogs {
  import opened Core
  import opened Records
  import opened Replay
  import opened Calls
  import opened FileStates
  import opened Runs
  import opened Wal
  import opened Recovery
  import opened SnapshotSteps
  import opened Lifetimes
  import Urls
  import Dispatching
  import Orphans

  // ---------------------------------------------------------------- which tasks a log knows

  /** Some event of the log is about the task. */
  predicate Mentioned(evs: seq<Event>, id: string) {
    exists k :: 0 <= k < |evs| && Concerns(evs[k], id)
  }

  lemma {:induction false} UnmentionedStays(t: Option<Task>, id: string, evs: seq<Event>)
    requires !Mentioned(evs, id)
    ensures TrackAll(t, id, evs) == t
    decreases |evs|
  {
    if evs != [] {
      var n := |evs| - 1;
      assert forall k :: 0 <= k < n ==> evs[..n][k] == evs[k];
      UnmentionedStays(t, id, evs[..n]);
    }
  }

  /** Replay removes no task, and adds those it creates. */
  lemma {:induction false} ReplayedKeys(m: Tasks, evs: seq<Event>, id: string)
    ensures id in Apply(m, evs) <==> id in m || Creates(id, evs)
    decreases |evs|
  {
    if evs != [] {
      var n := |evs| - 1;
      ReplayedKeys(m, evs[..n], id);
      CreatesNext(id, evs);
    }
  }

  lemma CreatesNext(id: string, evs: seq<Event>)
    requires evs != []
    ensures Creates(id, evs) <==> Creates(id, evs[..|evs| - 1]) || IsCreation(evs[|evs| - 1], id)
  {
    var n := |evs| - 1;
    if Creates(id, evs) {
      var k :| 0 <= k < |evs| && IsCreation(evs[k], id);
      assert k < n ==> evs[..n][k] == evs[k];
    }
    if Creates(id, evs[..n]) {
      var k :| 0 <= k < n && IsCreation(evs[..n][k], id);
      assert evs[k] == evs[..n][k];
    }
  }

  lemma CreatesMore(id: string, evs: seq<Event>, more: seq<Event>)
    ensures Creates(id, evs + more) <==> Creates(id, evs) || Creates(id, more)
    ensures Mentioned(evs + more, id) <==> Mentioned(evs, id) || Mentioned(more, id)
  {
    var all := evs + more;
    assert forall k :: 0 <= k < |evs| ==> all[k] == evs[k];
    assert forall k :: 0 <= k < |more| ==> all[|evs| + k] == more[k];
  }

  // ---------------------------------------------------------------- what every life keeps

  /** The log's events are about tasks of the snapshot or tasks it creates itself; memory has every task
      of the snapshot, with the same URLs, and while the log is open no others than a restart would find. */
  ghost predicate Shaped(l: Life) {
    && !l.log.Broken?
    && (forall id :: Mentioned(l.logged, id) ==> id in l.base || Creates(id, l.logged))
    && (l.up ==> forall id :: id in l.base ==> id in l.tasks && FilesMatch(l, id))
    && (l.up && l.log.Open? ==> forall id :: id in l.tasks ==> id in l.base || Creates(id, l.logged))
  }

  predicate FilesMatch(l: Life, id: string)
    requires id in l.base && id in l.tasks
  {
    Creates(id, l.logged) || SameUrls(l.base[id], l.tasks[id])
  }

  predicate SameUrls(t: Task, u: Task) {
    |t.files| == |u.files| && forall i :: 0 <= i < |t.files| ==> t.files[i].url == u.files[i].url
  }

  /** A call keeps every task and its files' URLs, and its events are about its own task. */
  lemma CallKeepsShape(m: Tasks, call: Call)
    ensures
      var o := Exec(m, call);
      && (forall id :: id in m ==> id in o.tasks && SameUrls(m[id], o.tasks[id]))
      && (forall id :: id in o.tasks ==> id in m || Creates(id, o.events))
  {
    var o := Exec(m, call);
    if call.Create? && o.events != [] {
      assert IsCreation(o.events[0], call.id);
    }
  }

  lemma PartOfCallIsKnown(m: Tasks, call: Call, n: nat, id: string)
    requires n <= |Exec(m, call).events| && Mentioned(Exec(m, call).events[..n], id)
    ensures id in m || Creates(id, Exec(m, call).events[..n])
  {
    var part := Exec(m, call).events[..n];
    var k :| 0 <= k < |part| && Concerns(part[k], id);
    assert part[k] == Exec(m, call).events[k];
    if call.Create? {
      assert IsCreation(part[k], id);
    } else {
      EventsOfMark(m, call);
    }
  }

  lemma RequestKeepsShape(l: Life, call: Call, w: Weather)
    requires l.up && Shaped(l)
    ensures Shaped(AfterRequest(l, call, w))
  {
    var o, r := Exec(l.tasks, call), AfterRequest(l, call, w);
    CallKeepsShape(l.tasks, call);
    if l.log.Open? {
      var trace := TraceOf(o, w);
      forall id ensures Creates(id, r.logged) <==> Creates(id, l.logged) || Creates(id, trace) {
        CreatesMore(id, l.logged, trace);
      }
      forall id | Mentioned(r.logged, id) ensures id in r.base || Creates(id, r.logged) {
        CreatesMore(id, l.logged, trace);
        if Mentioned(trace, id) {
          PartOfCallIsKnown(l.tasks, call, |trace|, id);
        }
      }
      assert Fine(w, |o.events|) ==> trace == o.events;
    }
  }

  lemma SnapshotKeepsShape(l: Life, o: SnapshotOutcome)
    requires l.up && Shaped(l)
    ensures Shaped(AfterSnapshot(l, o))
  {
  }

  lemma RestartKeepsShape(c: Codec, l: Life)
    requires Shaped(l)
    ensures Shaped(Advance(c, l, Restart))
  {
    forall id ensures id in OnDisk(l) <==> id in l.base || Creates(id, l.logged) {
      ReplayedKeys(l.base, l.logged, id);
    }
    forall id | id in l.base && !Creates(id, l.logged) ensures SameUrls(l.base[id], OnDisk(l)[id]) {
      TaskOfReplay(l.base, l.logged, id);
      ReplayKeepsUrls(l.base[id], id, l.logged);
    }
  }

  lemma ReplayKeepsUrls(t: Task, id: string, evs: seq<Event>)
    requires !Creates(id, evs)
    ensures TrackAll(Some(t), id, evs).Some? && SameUrls(t, TrackAll(Some(t), id, evs).value)
  {
    StoredStays(t, id, evs);
    forall i: nat | i < |t.files| ensures t.files[i].url == TrackAll(Some(t), id, evs).value.files[i].url {
      PartAgrees(t, t, id, evs, i, StatusPart);
    }
  }

  /** Every life is in shape, whatever requests, snapshots and restarts it sees and whatever fails. */
  lemma {:induction false} EveryLifeIsShaped(c: Codec, acts: seq<Act>)
    ensures Shaped(LifeOf(c, acts))
    decreases |acts|
  {
    if acts != [] {
      var n := |acts| - 1;
      var l := LifeOf(c, acts[..n]);
      EveryLifeIsShaped(c, acts[..n]);
      match acts[n]
      case Restart => RestartKeepsShape(c, l);
      case Request(call, live, w) => if l.up && live { RequestKeepsShape(l, call, w); }
      case TakeSnapshot(_, faults) => if l.up { SnapshotKeepsShape(l, SnapshotOutcomeOf(l, faults)); }
    }
  }

  // ---------------------------------------------------------------- what a restart decides

  /** A restart takes this part of the file from the log: the log creates the task or writes the part. */
  predicate FromLog(l: Life, id: string, i: nat, part: Part) {
    Creates(id, l.logged) || Written(l.logged, id, i, part)
  }

  /** Where a restart takes it from after a stale log: what it would have found before, or memory. */
  function Source(l: Life, id: string, i: nat, part: Part): Tasks {
    if FromLog(l, id, i, part) then OnDisk(l) else l.tasks
  }

  lemma StaleTask(l: Life, id: string)
    requires Shaped(l) && l.up
    ensures
      var r := Apply(l.tasks, l.logged);
      && (id in r <==> Creates(id, l.logged) || id in l.tasks)
      && (Creates(id, l.logged) ==> id in OnDisk(l) && r[id] == OnDisk(l)[id])
      && (id !in l.base && !Creates(id, l.logged) ==> Get(r, id) == Get(l.tasks, id) && !Mentioned(l.logged, id))
      && (id in l.base && !Creates(id, l.logged) ==>
            && id in l.tasks && id in OnDisk(l) && SameUrls(l.base[id], l.tasks[id])
            && Get(r, id) == TrackAll(Some(l.tasks[id]), id, l.logged)
            && Get(OnDisk(l), id) == TrackAll(Some(l.base[id]), id, l.logged))
  {
    ReplayedKeys(l.tasks, l.logged, id);
    ReplayedKeys(l.base, l.logged, id);
    TaskOfReplay(l.tasks, l.logged, id);
    TaskOfReplay(l.base, l.logged, id);
    if Creates(id, l.logged) {
      CreationForgets(Get(l.base, id), Get(l.tasks, id), id, l.logged);
    } else if id !in l.base {
      UnmentionedStays(Get(l.tasks, id), id, l.logged);
    }
  }

  lemma WrittenIsMentioned(evs: seq<Event>, id: string, i: nat, part: Part)
    requires Written(evs, id, i, part)
    ensures Mentioned(evs, id)
  {
    var k :| 0 <= k < |evs| && Writes(evs[k], id, i, part);
    assert Concerns(evs[k], id);
  }

  /** What a restart makes of every part of every file after a stale log: if the log creates the task or
      writes the part, what a restart before the snapshot would have found, and otherwise what is in
      memory. It finds the tasks in memory and those the log creates. */
  lemma StaleLogDecides(c: Codec, l: Life, act: Act, id: string, i: nat, part: Part)
    requires Shaped(l) && LeavesStaleLog(l, act)
    ensures
      var r := OnDisk(Advance(c, l, act));
      && (id in r <==> Creates(id, l.logged) || id in l.tasks)
      && (id in r && i < |r[id].files| ==>
            var s := Source(l, id, i, part);
            && id in s && i < |s[id].files|
            && r[id].files[i].url == s[id].files[i].url && SamePart(r[id].files[i], s[id].files[i], part))
      && (id in l.tasks && !Creates(id, l.logged) ==> |r[id].files| == |l.tasks[id].files|)
  {
    assert OnDisk(Advance(c, l, act)) == Apply(l.tasks, l.logged);
    var r := Apply(l.tasks, l.logged);
    StaleTask(l, id);
    if id in l.base && !Creates(id, l.logged) {
      StoredStays(l.tasks[id], id, l.logged);
      if i < |r[id].files| {
        PartAgrees(l.base[id], l.tasks[id], id, l.logged, i, part);
      }
    } else if Written(l.logged, id, i, part) {
      WrittenIsMentioned(l.logged, id, i, part);
    }
  }

  predicate SameThere(m: Tasks, n: Tasks, id: string, i: nat, part: Part)
    requires id in n && i < |n[id].files|
  {
    id in m && i < |m[id].files| && m[id].files[i].url == n[id].files[i].url && SamePart(m[id].files[i], n[id].files[i], part)
  }

  predicate SameFileThere(m: Tasks, n: Tasks, id: string, i: nat)
    requires id in n && i < |n[id].files|
  {
    id in m && i < |m[id].files| && m[id].files[i] == n[id].files[i]
  }

  /** After a stale log a restart gives a file in memory back exactly if each part of it that the log
      decides is the same in memory as on the disk before. */
  lemma GivesFileBackIff(c: Codec, l: Life, act: Act, id: string, i: nat)
    requires Shaped(l) && LeavesStaleLog(l, act) && id in l.tasks && i < |l.tasks[id].files|
    ensures
      SameFileThere(OnDisk(Advance(c, l, act)), l.tasks, id, i)
      <==> forall part :: FromLog(l, id, i, part) ==> SameThere(OnDisk(l), l.tasks, id, i, part)
  {
    var r := OnDisk(Advance(c, l, act));
    StaleTask(l, id);
    forall part ensures SameThere(r, l.tasks, id, i, part) <==> (FromLog(l, id, i, part) ==> SameThere(OnDisk(l), l.tasks, id, i, part)) {
      StaleLogDecides(c, l, act, id, i, part);
    }
    if forall part :: FromLog(l, id, i, part) ==> SameThere(OnDisk(l), l.tasks, id, i, part) {
      assert SameThere(r, l.tasks, id, i, StatusPart);
      forall part ensures SamePart(r[id].files[i], l.tasks[id].files[i], part) {
        assert SameThere(r, l.tasks, id, i, part);
      }
      SameFile(r[id].files[i], l.tasks[id].files[i]);
    }
  }

  // ---------------------------------------------------------------- before and after it

  /** While the log is closed and no snapshot is put in place, only memory changes. */
  lemma {:induction false} ClosedLogKeepsDisk(c: Codec, l: Life, acts: seq<Act>)
    requires l.up && l.log.Shut?
    requires forall i :: 0 <= i < |acts| ==>
               acts[i].Request? || (acts[i].TakeSnapshot? && !Placed(SnapshotOutcomeOf(l, acts[i].faults)))
    ensures var r := From(c, l, acts); r == l.(tasks := r.tasks)
    decreases |acts|
  {
    if acts != [] {
      ClosedLogKeepsDisk(c, l, acts[..|acts| - 1]);
    }
  }

  /** So before the next snapshot is put in place a restart finds what was in memory when the log failed to
      close, however many calls have been acknowledged since. */
  lemma SinceFailedClose(c: Codec, l: Life, close: Act, acts: seq<Act>, now: Time)
    requires Agrees(l, now) && l.up && l.log.Open? && close.TakeSnapshot? && SnapshotOutcomeOf(l, close.faults) == FailedAt(CloseLog)
    requires forall i :: 0 <= i < |acts| ==>
               acts[i].Request? || (acts[i].TakeSnapshot? && WriteFault(acts[i].faults).Some?)
    ensures
      var r := From(c, Advance(c, l, close), acts);
      r.up && r.log.Shut? && OnDisk(r) == l.tasks && r.logged == l.logged
  {
    DoubleReplay(l.base, l.logged);
    ClosedLogKeepsDisk(c, Advance(c, l, close), acts);
  }

  /** A snapshot put in place through a closed log makes a restart find memory, unless it leaves a stale
      log. */
  lemma PlacedMendsUnlessStale(c: Codec, l: Life, act: Act)
    requires l.up && l.log.Shut? && act.TakeSnapshot? && Placed(SnapshotOutcomeOf(l, act.faults))
    ensures !LeavesStaleLog(l, act) ==> OnDisk(Advance(c, l, act)) == l.tasks
    ensures Advance(c, l, act).tasks == l.tasks
  {
  }

  /** Once the log is missing nothing more happens until a restart: changing calls are rejected and
      snapshots fail. */
  lemma {:induction false} NothingHappensWithoutLog(c: Codec, l: Life, acts: seq<Act>)
    requires l.log.Missing? && forall i :: 0 <= i < |acts| ==> !acts[i].Restart?
    ensures From(c, l, acts) == l
    decreases |acts|
  {
    if acts != [] {
      NothingHappensWithoutLog(c, l, acts[..|acts| - 1]);
    }
  }

  /** So nothing can mend a stale log: whatever is called before the restart, it decides as above. */
  lemma StaleLogStands(c: Codec, l: Life, act: Act, acts: seq<Act>, id: string, i: nat, part: Part)
    requires Shaped(l) && LeavesStaleLog(l, act) && forall k :: 0 <= k < |acts| ==> !acts[k].Restart?
    ensures
      var r := Advance(c, From(c, Advance(c, l, act), acts), Restart);
      r.up ==>
        && (id in r.tasks <==> Creates(id, l.logged) || id in l.tasks)
        && (id in r.tasks && i < |r.tasks[id].files| ==> SameThere(Source(l, id, i, part), r.tasks, id, i, part))
  {
    NothingHappensWithoutLog(c, Advance(c, l, act), acts);
    StaleLogDecides(c, l, act, id, i, part);
  }

  // ---------------------------------------------------------------- a completion undone

  function SizeAt(m: Tasks, f: FileId): Option<int> {
    if f.id in m && 0 <= f.index < |m[f.id].files| then Some(m[f.id].files[f.index].size) else None
  }

  /** A snapshot whose log fails to close, a completed mark, and a snapshot whose log cannot be moved away. */
  function CloseMarkMove(c: Codec, l: Life, close: Act, call: Call, w: Weather, move: Act): Life {
    Advance(c, Advance(c, Advance(c, l, close), Request(call, true, w)), move)
  }

  ghost predicate FailsTwice(l: Life, close: Act, move: Act) {
    && close.TakeSnapshot? && FirstFault(false, close.faults) == Some(CloseLog)
    && move.TakeSnapshot? && FirstFault(true, move.faults) in {Some(MakeOldDir), Some(RenameLog)}
    && l.up && l.log.Open? && Shaped(l)
  }

  /** The life just before the log cannot be moved away. */
  lemma MarkedWhileClosed(c: Codec, l: Life, close: Act, call: Call, w: Weather, move: Act, now: Time)
    requires FailsTwice(l, close, move) && Agrees(l, now) && call.MarkCompleted?
    ensures
      var l2 := Advance(c, Advance(c, l, close), Request(call, true, w));
      && l2 == l.(base := l.tasks, tasks := Exec(l.tasks, call).tasks, log := Shut)
      && Shaped(l2) && LeavesStaleLog(l2, move) && OnDisk(l2) == l.tasks
  {
    DoubleReplay(l.base, l.logged);
    SnapshotKeepsShape(l, FailedAt(CloseLog));
    RequestKeepsShape(Advance(c, l, close), call, w);
  }

  lemma CompletedFileHasSize(m: Tasks, call: Call)
    requires call.MarkCompleted? && call.size >= 0
    requires StatusAt(m, FileId(call.id, call.index)).Some? && StatusAt(m, FileId(call.id, call.index)) != Some(FileCompleted)
    ensures
      var (r, f) := (Exec(m, call).tasks, FileId(call.id, call.index));
      && StatusAt(r, f) == Some(FileCompleted) && SizeAt(r, f) == Some(call.size)
      && |r[f.id].files| == |m[f.id].files|
  {
  }

  /** The completion is acknowledged and in the snapshot. A restart undoes it exactly if the log creates the
      task or sets the file's status, and forgets its size exactly if the log creates the task or sets the
      file's size. */
  lemma CompletionIsUndoneIff(c: Codec, l: Life, close: Act, call: Call, w: Weather, move: Act, now: Time)
    requires FailsTwice(l, close, move) && Agrees(l, now) && call.MarkCompleted? && call.size >= 0
    requires
      var st := StatusAt(l.tasks, FileId(call.id, call.index));
      st.Some? && st != Some(FileCompleted)
    ensures
      var f := FileId(call.id, call.index);
      var after := CloseMarkMove(c, l, close, call, w, move);
      && StatusAt(after.tasks, f) == StatusAt(after.base, f) == Some(FileCompleted)
      && StatusAt(OnDisk(after), f) == (if FromLog(l, f.id, f.index, StatusPart) then StatusAt(l.tasks, f) else Some(FileCompleted))
      && SizeAt(OnDisk(after), f) == (if FromLog(l, f.id, f.index, SizePart) then SizeAt(l.tasks, f) else Some(call.size))
  {
    var l2 := Advance(c, Advance(c, l, close), Request(call, true, w));
    MarkedWhileClosed(c, l, close, call, w, move, now);
    CompletedFileHasSize(l.tasks, call);
    FromLogOrMemory(c, l, l2, Exec(l.tasks, call).tasks, move, FileId(call.id, call.index));
  }

  lemma FromLogOrMemory(c: Codec, l: Life, l2: Life, m: Tasks, move: Act, f: FileId)
    requires l2 == l.(base := l.tasks, tasks := m, log := Shut) && Shaped(l2) && LeavesStaleLog(l2, move)
    requires OnDisk(l2) == l.tasks && f.index >= 0 && StatusAt(m, f).Some?
    ensures
      var after := Advance(c, l2, move);
      && after.tasks == after.base == m
      && StatusAt(OnDisk(after), f) == StatusAt(if FromLog(l, f.id, f.index, StatusPart) then l.tasks else m, f)
      && SizeAt(OnDisk(after), f) == SizeAt(if FromLog(l, f.id, f.index, SizePart) then l.tasks else m, f)
  {
    StaleAtFile(c, l2, move, f);
  }

  lemma StaleAtFile(c: Codec, l: Life, act: Act, f: FileId)
    requires Shaped(l) && LeavesStaleLog(l, act) && f.index >= 0 && StatusAt(l.tasks, f).Some?
    ensures
      var r := OnDisk(Advance(c, l, act));
      && StatusAt(r, f) == StatusAt(Source(l, f.id, f.index, StatusPart), f)
      && SizeAt(r, f) == SizeAt(Source(l, f.id, f.index, SizePart), f)
  {
    StaleLogDecides(c, l, act, f.id, f.index, StatusPart);
    StaleLogDecides(c, l, act, f.id, f.index, SizePart);
    StaleTask(l, f.id);
  }

  /** Then a file that the log has started and not created is back in the state of its start with the size
      of the finished download: the tasks are out of order, and once a process has started with them, no
      dispatcher and no worker ever changes the file's status again. */
  lemma CompletionIsLostForGood(c: Codec, l: Life, close: Act, call: Call, w: Weather, move: Act, now: Time)
    requires FailsTwice(l, close, move) && Agrees(l, now) && call.MarkCompleted? && call.size > 0
    requires StatusAt(l.tasks, FileId(call.id, call.index)) == Some(FileDownloading)
    requires Written(l.logged, call.id, call.index, StatusPart)
    requires !Creates(call.id, l.logged) && !Written(l.logged, call.id, call.index, SizePart)
    ensures
      var f := FileId(call.id, call.index);
      var r := OnDisk(CloseMarkMove(c, l, close, call, w, move));
      && StatusAt(r, f) == Some(FileDownloading) && SizeAt(r, f) == Some(call.size) && !Good(r)
      && forall states: seq<Dispatching.State>, steps :: Dispatching.IsRun(states, steps) && states[0].tasks == r ==>
           StatusAt(Dispatching.Last(states).tasks, f) == Some(FileDownloading)
  {
    var f := FileId(call.id, call.index);
    var r := OnDisk(CloseMarkMove(c, l, close, call, w, move));
    CompletionIsUndoneIff(c, l, close, call, w, move, now);
    assert !GoodFile(r[f.id].files[f.index]);
    forall states: seq<Dispatching.State>, steps | Dispatching.IsRun(states, steps) && states[0].tasks == r
      ensures StatusAt(Dispatching.Last(states).tasks, f) == Some(FileDownloading)
    {
      Orphans.BusyAtRestForGood(states, steps, f);
    }
  }

  // ---------------------------------------------------------------- two lives

  const Calm := Weather(3, true, true)

  function Creating1(): Call { Create("t", ["u"], 1) }

  function Starting1(): Call { MarkStarted("t", 0, 2) }

  function Completing1(): Call { MarkCompleted("t", 0, "f", 5, 3) }

  const File1 := FileId("t", 0)

  function OneWaiting(): Tasks { map["t" := NewTask("t", 1, ["u"])] }

  function Creation1(): Event {
    Event(LogVersion, "t", 1, TaskCreated(Some(NewTask("t", 1, ["u"]))))
  }

  lemma OneUrl()
    ensures Urls.Normalize(["u"]) == Success(["u"])
  {
    var u := "u";
    assert u[0] == 'u' && !Urls.IsSpace('u');
    assert Urls.TrimLeft(u) == u && Urls.TrimRight(u) == u;
    assert Urls.TrimAll([u]) == [u];
    var us: seq<string> := [u];
    assert us[..0] == [];
    assert Urls.Distinct(us) == us;
  }

  lemma CreateOneUrl()
    ensures Exec(map[], Creating1()) == Outcome(OneWaiting(), [Creation1()], Success(NewTask("t", 1, ["u"])))
  {
    OneUrl();
    var t := NewTask("t", 1, ["u"]);
    assert map[]["t" := t] == OneWaiting();
  }

  lemma FromNext(c: Codec, l: Life, acts: seq<Act>, act: Act)
    ensures From(c, l, acts + [act]) == Advance(c, From(c, l, acts), act)
  {
    assert (acts + [act])[..|acts|] == acts;
  }

  /** Three more acts. */
  lemma FromThree(c: Codec, acts: seq<Act>, a: Act, b: Act, d: Act)
    ensures LifeOf(c, acts + [a, b, d]) == Advance(c, Advance(c, Advance(c, LifeOf(c, acts), a), b), d)
  {
    FromNext(c, Birth, acts, a);
    FromNext(c, Birth, acts + [a], b);
    FromNext(c, Birth, acts + [a] + [b], d);
    assert acts + [a] + [b] + [d] == acts + [a, b, d];
  }

  /** One task in memory and in the log. */
  function Created1(): Life { Life(true, OneWaiting(), map[], [Creation1()], 1, Open) }

  lemma LifeOfCreation(c: Codec)
    ensures LifeOf(c, [Request(Creating1(), true, Calm)]) == Created1() && Agrees(Created1(), 1)
  {
    var a := Request(Creating1(), true, Calm);
    CreateOneUrl();
    assert [][..0] + [a] == [a];
    FromNext(c, Birth, [], a);
    var evs: seq<Event> := [Creation1()];
    assert evs[..1] == evs && [] + evs == evs;
    OrderlyLifeAgrees(c, 0, []);
    ActAgrees(c, Birth, a, 0);
  }

  const Close1 := TakeSnapshot(1, {CloseLog})

  const Move1 := TakeSnapshot(2, {RenameLog})

  const Complete1 := Request(Completing1(), true, Calm)

  lemma TheyFailTwice(l: Life)
    requires l.up && l.log.Open? && Shaped(l)
    ensures FailsTwice(l, Close1, Move1)
  {
  }

  function Then(first: seq<Act>): seq<Act> { first + [Close1, Complete1, Move1] }

  /** The life l, the three acts, and a restart. */
  lemma ThenRestart(c: Codec, first: seq<Act>, l: Life, now: Time)
    requires LifeOf(c, first) == l && l.up && l.log.Open? && Agrees(l, now) && Short(c, l.logged)
    requires StatusAt(l.tasks, File1).Some? && StatusAt(l.tasks, File1) != Some(FileCompleted)
    ensures FailsTwice(l, Close1, Move1)
    ensures
      var before, after := LifeOf(c, Then(first)), LifeOf(c, Then(first) + [Restart]);
      && before == CloseMarkMove(c, l, Close1, Completing1(), Calm, Move1)
      && before.up && after.up && after.tasks == OnDisk(before) && before.tasks == before.base
  {
    EveryLifeIsShaped(c, first);
    FromThree(c, first, Close1, Complete1, Move1);
    FromNext(c, Birth, Then(first), Restart);
    TheyFailTwice(l);
    RestartAfterMove(c, l, Close1, Completing1(), Calm, Move1, now);
  }

  lemma RestartAfterMove(c: Codec, l: Life, close: Act, call: Call, w: Weather, move: Act, now: Time)
    requires FailsTwice(l, close, move) && Agrees(l, now) && call.MarkCompleted? && Short(c, l.logged)
    ensures
      var before := CloseMarkMove(c, l, close, call, w, move);
      var after := Advance(c, before, Restart);
      before.up && after.up && after.tasks == OnDisk(before) && before.tasks == before.base
  {
    MarkedWhileClosed(c, l, close, call, w, move, now);
  }

  /** A download recorded as completed, in memory and in the snapshot file, is waiting again after a
      restart. */
  lemma StaleLogUndoesACompletion(c: Codec) returns (acts: seq<Act>)
    requires Short(c, [Creation1()])
    ensures
      var before, after := LifeOf(c, acts), LifeOf(c, acts + [Restart]);
      && before.up && after.up && before.tasks == before.base
      && StatusAt(before.tasks, File1) == Some(FileCompleted)
      && StatusAt(after.tasks, File1) == Some(FileWaiting)
  {
    var first := [Request(Creating1(), true, Calm)];
    acts := Then(first);
    LifeOfCreation(c);
    ThenRestart(c, first, Created1(), 1);
    CompletionIsUndoneIff(c, Created1(), Close1, Completing1(), Calm, Move1, 1);
    assert IsCreation(Created1().logged[0], "t");
  }

  /** The events of the start mark. */
  function Start1(): seq<Event> { Exec(OneWaiting(), Starting1()).events }

  lemma StartOneUrl()
    ensures
      var r := Exec(OneWaiting(), Starting1()).tasks;
      && r.Keys == {"t"} && StatusAt(r, File1) == Some(FileDownloading) && Start1() != []
      && Written(Start1(), "t", 0, StatusPart) && !Written(Start1(), "t", 0, SizePart) && !Creates("t", Start1())
  {
    var m, call := OneWaiting(), Starting1();
    MarkChangesOneStatus(m, call, File1);
    EventsOfMark(m, call);
    assert Writes(Start1()[0], "t", 0, StatusPart);
  }

  function Started1(): Life {
    Life(true, Exec(OneWaiting(), Starting1()).tasks, OneWaiting(), Start1(), |Start1()|, Open)
  }

  lemma LifeOfStart(c: Codec)
    ensures
      LifeOf(c, [Request(Creating1(), true, Calm), TakeSnapshot(1, {}), Request(Starting1(), true, Calm)]) == Started1()
    ensures Agrees(Started1(), 2)
  {
    var a, b, d := Request(Creating1(), true, Calm), TakeSnapshot(1, {}), Request(Starting1(), true, Calm);
    var l2 := Life(true, OneWaiting(), OneWaiting(), [], 0, Open);
    LifeOfCreation(c);
    assert Advance(c, Created1(), b) == l2;
    StartOneUrl();
    assert [] + Start1()[..|Start1()|] == Start1();
    NoEventsNoChange(OneWaiting(), Starting1());
    assert Advance(c, l2, d) == Started1();
    FromNext(c, Birth, [a], b);
    FromNext(c, Birth, [a, b], d);
    assert [a] + [b] == [a, b] && [a, b] + [d] == [a, b, d];
    ActAgrees(c, Created1(), b, 1);
    ActAgrees(c, l2, d, 1);
  }

  /** A task created, snapshotted and started, then the same three acts: its finished download is found
      downloading, with the size of the finished file, and stays so. */
  lemma StaleLogLosesACompletion(c: Codec) returns (acts: seq<Act>)
    requires Short(c, Start1())
    ensures
      var before, after := LifeOf(c, acts), LifeOf(c, acts + [Restart]);
      && before.up && after.up && before.tasks == before.base
      && StatusAt(before.tasks, File1) == Some(FileCompleted)
      && StatusAt(after.tasks, File1) == Some(FileDownloading) && SizeAt(after.tasks, File1) == Some(5) && !Good(after.tasks)
      && forall states: seq<Dispatching.State>, steps :: Dispatching.IsRun(states, steps) && states[0].tasks == after.tasks ==>
           StatusAt(Dispatching.Last(states).tasks, File1) == Some(FileDownloading)
  {
    var first := [Request(Creating1(), true, Calm), TakeSnapshot(1, {}), Request(Starting1(), true, Calm)];
    acts := Then(first);
    LifeOfStart(c);
    StartOneUrl();
    ThenRestart(c, first, Started1(), 2);
    CompletionIsUndoneIff(c, Started1(), Close1, Completing1(), Calm, Move1, 2);
    CompletionIsLostForGood(c, Started1(), Close1, Completing1(), Calm, Move1, 2);
  }
}
