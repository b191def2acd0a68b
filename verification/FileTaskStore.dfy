/** The file-backed task store: a map of tasks in memory, a log that is written before every
    change, and snapshots that let the log start afresh. */
module FileTaskStores {
  import opened Core
  import opened Records
  import opened Replay
  import opened Wal
  import opened Disks
  import opened FileLogs
  import opened Recovery
  import opened SnapshotSteps
  import opened Objects
  import opened TaskStores

  const CurrentVersion := 1

  /** Why n events could not be logged: for want of a log, while they were appended, or in the flush. */
  predicate Blames(p: Saved, w: Weather, n: nat, err: Option<StoreError>) {
    if n == 0 then err == None
    else
      match p.log
      case Missing => err == Some(NoLog)
      case Shut => err == None
      case Broken => err == Some(LogAppend)
      case Open =>
        && err in {None, Some(LogAppend), Some(LogFlush)}
        && (w.cancelBefore < n ==> err == Some(LogAppend))
        && (!w.live || !w.syncOk ==> err != None)
        && (p.roomy && n <= w.cancelBefore ==> err == if w.live && w.syncOk then None else Some(LogFlush))
  }

  /** An attempt to log a batch took p to q and ended with err. */
  ghost predicate Attempted(c: Codec, w: Weather, p: Saved, q: Saved, batch: seq<Event>, err: Option<StoreError>) {
    AttemptVerdict(c, w, p, q, batch, err) == Sound
  }

  ghost function AttemptVerdict(c: Codec, w: Weather, p: Saved, q: Saved, batch: seq<Event>, err: Option<StoreError>): Verdict {
    if Tried(c, w, p, q, batch, err == None) && Blames(p, w, |batch|, err) then Sound else Unsound
  }

  lemma AttemptedNothing(c: Codec, w: Weather, p: Saved)
    ensures Attempted(c, w, p, p, [], None)
  {
    TriedNothing(c, w, p);
  }

  /** How loading ends: it is interrupted if the context ends, or the file can no longer be read, at a line that
      reading gets to, and otherwise fails only as the disk explains. */
  ghost function LoadError(c: Codec, d: DiskState, stopAt: Option<nat>): Option<StoreError> {
    if stopAt.Some? && stopAt.value < Turns(c, LogText(d)) then Some(Unrecoverable(BadLog(Interrupted)))
    else if Recover(c, d).Failure? then Some(Unrecoverable(Recover(c, d).error))
    else None
  }

  /** What reading both files gave: the tasks and events on the disk, or the error. */
  ghost predicate WasRead(c: Codec, d: DiskState, stopAt: Option<nat>, err: Option<StoreError>, m: Tasks, evs: seq<Event>) {
    ReadVerdict(c, d, stopAt, err, m, evs) == Sound
  }

  ghost function ReadVerdict(c: Codec, d: DiskState, stopAt: Option<nat>, err: Option<StoreError>, m: Tasks, evs: seq<Event>): Verdict {
    if && err == LoadError(c, d, stopAt)
       && (err == None ==> Recover(c, d) == Success(m) && ReadEvents(c, LogText(d)) == Success(evs))
    then Sound else Unsound
  }

  /** An error says nothing of tasks and events. */
  lemma ErrorIsRead(c: Codec, d: DiskState, stopAt: Option<nat>, err: Option<StoreError>, m: Tasks, evs: seq<Event>, m': Tasks, evs': seq<Event>)
    requires err.Some? && WasRead(c, d, stopAt, err, m, evs)
    ensures WasRead(c, d, stopAt, err, m', evs')
  {
  }

  class FileTaskStore {
    const codec: Codec
    const disk: Disk
    var tasks: TaskObjects
    var log: FileLog?
    /** The events whose lines are whole in the log file and its buffer, and how many of them were
        acknowledged. */
    ghost var logged: seq<Event>
    ghost var safe: nat

    ghost function LogVerdict(): Verdict
      reads this`log, disk, log
    {
      if disk.Valid() && (log != null ==> log.disk == disk && log.codec == codec && log.Valid() && disk.wal.Some?)
      then Sound else Unsound
    }

    ghost predicate LogSound()
      reads this`log, disk, log
    {
      LogVerdict() == Sound
    }

    ghost predicate Valid()
      reads this, disk, log
    {
      LogSound() && Separate(tasks)
    }

    ghost function View(): Tasks
      reads this`tasks, ObjectsOf(tasks)
    {
      ViewAll(tasks)
    }

    ghost predicate LogOpen()
      reads this`log, log
    {
      log != null && !log.closed
    }

    ghost function LogIs(): LogState
      reads this`log, log
    {
      if log == null then Missing
      else if log.closed then Shut
      else if log.failed then Broken
      else Open
    }

    ghost function Durably(): Saved
      reads this`log, this`logged, this`safe, log, disk
    {
      Saved(LogIs(), disk.room.None?, disk.State(), if LogOpen() then log.buf else "", logged, safe)
    }

    constructor (codec: Codec, disk: Disk)
      requires disk.Valid()
      modifies disk`wal, disk`history
      ensures Valid() && fresh(log) && tasks == map[]
      ensures this.codec == codec && this.disk == disk
      ensures
        Durably() == Saved(Open, disk.room.None?, DiskState(old(disk.snapshot), Some(LogText(old(disk.State())))), "", [], 0)
      ensures disk.history == old(disk.history) + [disk.State()]
    {
      this.codec, this.disk := codec, disk;
      tasks, log, logged, safe := map[], null, [], 0;
      new;
      log := new FileLog(codec, disk);
    }

    // -------------------------------------------------------------- logging

    /** The first half: the events go into the stream, line by line. */
    method AppendLines(evs: seq<Event>, w: Weather) returns (ok: bool, ghost n: nat)
      requires LogSound() && LogOpen() && evs != []
      modifies this`logged, log, disk`wal, disk`room, disk`history
      ensures LogSound() && LogOpen() && disk.GrewSince(old(disk.history), disk.snapshot, old(disk.wal.value))
      ensures Lined(codec, old(Durably()), Durably(), evs, ok, n)
      ensures old(Durably()).log.Open? && old(Durably()).roomy ==> ok == (|evs| <= w.cancelBefore) && n == KeptBy(w, |evs|)
      ensures ok ==> |evs| <= w.cancelBefore && log.batches != [] && Whole(log.batches[|log.batches| - 1])
    {
      ghost var stream := log.Stream();
      ok, n := log.Append(evs, w.cancelBefore);
      PartOfBatch(codec, stream, evs, log.batches[|log.batches| - 1].kept, n);
      logged := logged + evs[..n];
      if old(log.failed) {
        assert stream + "" == stream;
      }
    }

    /** The second half: what is pending goes to the file, and the last batch is acknowledged. */
    method FlushLines(w: Weather) returns (ok: bool)
      requires LogSound() && LogOpen() && log.batches != [] && Whole(log.batches[|log.batches| - 1])
      modifies this`safe, log, disk`wal, disk`room, disk`history
      ensures LogSound() && LogOpen() && disk.GrewSince(old(disk.history), disk.snapshot, old(disk.wal.value))
      ensures
        var p, q := old(Durably()), Durably();
        && q == p.(log := q.log, disk := q.disk, pending := q.pending, safe := if ok then |logged| else p.safe)
        && HalfFlushed(p, q) && (ok ==> Quiet(q) && w.live && w.syncOk)
        && (p.log.Open? && p.roomy ==> ok == (w.live && w.syncOk))
    {
      ok := log.Flush(w.live, w.syncOk);
      if ok {
        log.Acknowledge();
        safe := |logged|;
      }
    }

    /** Append, then Flush, on an open log. */
    method AppendAndFlush(evs: seq<Event>, w: Weather) returns (err: Option<StoreError>, ghost n: nat)
      requires LogSound() && LogOpen() && evs != []
      modifies this`logged, this`safe, log, disk`wal, disk`room, disk`history
      ensures LogSound() && LogOpen()
      ensures Blames(old(Durably()), w, |evs|, err)
      ensures TriedN(codec, w, old(Durably()), Durably(), evs, err == None, n)
      ensures disk.GrewSince(old(disk.history), disk.snapshot, old(disk.wal.value))
    {
      ghost var p := Durably();
      var ok;
      ok, n := AppendLines(evs, w);
      ghost var r, h, text := Durably(), disk.history, disk.wal;
      if !ok {
        LinedWithoutFlush(codec, p, r, evs, n);
        return Some(LogAppend), n;
      }
      ok := FlushLines(w);
      disk.GrewTwice(old(disk.history), disk.snapshot, old(disk.wal.value), h, text.value);
      LinedAndFlushed(codec, p, r, Durably(), evs, n, ok);
      err := if ok then None else Some(LogFlush);
    }

    /** Appends a batch and flushes it; the batch counts as acknowledged when both succeed. */
    method FlushAppend(evs: seq<Event>, w: Weather) returns (err: Option<StoreError>)
      requires LogSound() && evs != []
      modifies this`logged, this`safe, log, disk`wal, disk`room, disk`history
      ensures LogSound()
      ensures Attempted(codec, w, old(Durably()), Durably(), evs, err)
      ensures LogOpen() ==> disk.GrewSince(old(disk.history), disk.snapshot, old(disk.wal.value))
      ensures !LogOpen() ==> disk.history == old(disk.history)
    {
      if log == null {
        assert TriedN(codec, w, Durably(), Durably(), evs, false, 0);
        return Some(NoLog);
      }
      if log.closed {
        assert TriedN(codec, w, Durably(), Durably(), evs, true, 0);
        ghost var none;
        var ok;
        ok, none := log.Append(evs, w.cancelBefore);
        ok := log.Flush(w.live, w.syncOk);
        return None;
      }
      ghost var n;
      err, n := AppendAndFlush(evs, w);
    }

    /** The states the disk has been in since h each recover part of the batch. */
    ghost predicate CrashesRecover(h: seq<DiskState>, before: Tasks, evs: seq<Event>)
      reads disk
    {
      forall k :: |h| <= k < |disk.history| ==> RecoversPart(codec, disk.history[k], before, evs)
    }

    lemma CrashesDuringAppend(h: seq<DiskState>, d: DiskState, evs0: seq<Event>, before: Tasks, evs: seq<Event>)
      requires Lossless(codec) && Holds(codec, d, evs0, before) && d.wal.Some?
      requires Fits(codec, evs) && AllReadable(evs)
      requires disk.GrewSince(h, d.snapshot, d.wal.value)
      requires disk.wal.value <= d.wal.value + EncodeAll(codec, evs)
      ensures CrashesRecover(h, before, evs)
    {
      forall k | |h| <= k < |disk.history| ensures RecoversPart(codec, disk.history[k], before, evs) {
        assert LogBetween(disk.history[k], d.snapshot, d.wal.value, disk.wal.value);
        CrashInBatch(codec, d, evs0, before, evs, disk.history[k]);
      }
    }

    /** FlushAppend, with what a crash on the way would recover. */
    method LogBatch(evs: seq<Event>, w: Weather) returns (err: Option<StoreError>)
      requires LogSound() && evs != []
      modifies this`logged, this`safe, log, disk`wal, disk`room, disk`history
      ensures LogSound()
      ensures Attempted(codec, w, old(Durably()), Durably(), evs, err)
      ensures
        var m := Rebuilds(codec, old(Durably()));
        m.Some? && Lossless(codec) && Fits(codec, evs) && AllReadable(evs) ==>
          CrashesRecover(old(disk.history), m.value, evs)
    {
      ghost var p := Durably();
      err := FlushAppend(evs, w);
      if Rebuilds(codec, p).Some? && Lossless(codec) && Fits(codec, evs) && AllReadable(evs) {
        TriedIsWrote(codec, w, p, Durably(), evs, err == None);
        StreamBound(codec, p, Durably(), evs, err == None);
        CrashesDuringAppend(old(disk.history), p.disk, p.logged, Rebuilds(codec, p).value, evs);
      }
    }

    /** Logging touches no task object. */
    method Log(task: TaskObject, evs: seq<Event>, w: Weather) returns (err: Option<StoreError>)
      requires LogSound() && evs != []
      modifies this`logged, this`safe, log, disk`wal, disk`room, disk`history
      ensures LogSound() && View() == old(View()) && task.View() == old(task.View())
      ensures Attempted(codec, w, old(Durably()), Durably(), evs, err)
    {
      err := FlushAppend(evs, w);
      SameViews(tasks);
    }

    method Keep(c: TaskObject)
      requires Separate(tasks) && c.Valid() && c.Footprint() !! ObjectsOf(tasks)
      modifies this`tasks
      ensures Separate(tasks) && ObjectsOf(tasks) <= old(ObjectsOf(tasks)) + c.Footprint()
      ensures View() == old(View())[c.id := c.View()]
    {
      ghost var m := tasks;
      PutKeepsSeparate(tasks, c);
      tasks := tasks[c.id := c];
      assert View() == old(View())[c.id := c.View()] by {
        assert forall id :: id in m ==> m[id].View() == old(m[id].View());
        EqualTasks(View(), old(View())[c.id := c.View()]);
      }
    }

    /** The copy that goes into the map shares nothing with the caller's task. */
    method Put(task: TaskObject)
      requires Separate(tasks) && task.Valid()
      modifies this`tasks
      ensures Durably() == old(Durably())
      ensures Separate(tasks) && fresh(ObjectsOf(tasks) - old(ObjectsOf(tasks)))
      ensures View() == old(View())[task.id := old(task.View())]
    {
      var c := task.CloneTask();
      SameViews(tasks);
      Keep(c);
    }

    /** Log first, then memory: the tail of CreateTask and UpdateTask. */
    method LogThenPut(task: TaskObject, evs: seq<Event>, w: Weather) returns (err: Option<StoreError>)
      requires Valid() && task.Valid()
      modifies this`tasks, this`logged, this`safe, log, disk
      ensures Valid() && fresh(ObjectsOf(tasks) - old(ObjectsOf(tasks)))
      ensures View() == if err == None then old(View())[task.id := old(task.View())] else old(View())
      ensures err.Some? ==> tasks == old(tasks)
      ensures !Unlogged(err)
      ensures Attempted(codec, w, old(Durably()), Durably(), evs, err)
    {
      err := LogIfAny(task, evs, w);
      if err == None {
        Put(task);
      }
    }

    method LogIfAny(task: TaskObject, evs: seq<Event>, w: Weather) returns (err: Option<StoreError>)
      requires LogSound()
      modifies this`logged, this`safe, log, disk`wal, disk`room, disk`history
      ensures LogSound() && View() == old(View()) && task.View() == old(task.View())
      ensures !Unlogged(err)
      ensures Attempted(codec, w, old(Durably()), Durably(), evs, err)
    {
      if |evs| == 0 {
        AttemptedNothing(codec, w, Durably());
        return None;
      }
      err := Log(task, evs, w);
    }

    method CreateTask(task: TaskObject, ev: Event, w: Weather) returns (err: Option<StoreError>)
      requires Valid() && task.Valid()
      modifies this`tasks, this`logged, this`safe, log, disk
      ensures Valid() && fresh(ObjectsOf(tasks) - old(ObjectsOf(tasks)))
      ensures View() == if err == None then old(View())[task.id := old(task.View())] else old(View())
      ensures err.Some? ==> tasks == old(tasks)
      ensures task.id in old(tasks) <==> Unlogged(err)
      ensures Unlogged(err) ==> err == Some(AlreadyExists)
      ensures Attempted(codec, w, old(Durably()), Durably(), if Unlogged(err) then [] else [ev], if Unlogged(err) then None else err)
    {
      if task.id in tasks {
        AttemptedNothing(codec, w, Durably());
        return Some(AlreadyExists);
      }
      err := LogThenPut(task, [ev], w);
    }

    /** Through a log that a failed snapshot left closed an update is acknowledged although nothing of
        it reaches the disk: see SurvivesIffLogOpen. */
    method UpdateTask(task: TaskObject, evs: seq<Event>, w: Weather) returns (err: Option<StoreError>)
      requires Valid() && task.Valid()
      modifies this`tasks, this`logged, this`safe, log, disk
      ensures Valid() && fresh(ObjectsOf(tasks) - old(ObjectsOf(tasks)))
      ensures View() == if err == None then old(View())[task.id := old(task.View())] else old(View())
      ensures err.Some? ==> tasks == old(tasks)
      ensures task.id !in old(tasks) <==> Unlogged(err)
      ensures Unlogged(err) ==> err == Some(NotFound)
      ensures Attempted(codec, w, old(Durably()), Durably(), if Unlogged(err) then [] else evs, if Unlogged(err) then None else err)
    {
      if task.id !in tasks {
        AttemptedNothing(codec, w, Durably());
        return Some(NotFound);
      }
      err := LogThenPut(task, evs, w);
    }

    // -------------------------------------------------------------- loading

    method Adopt(r: TaskObjects, res: TaskObjects, ghost evs: seq<Event>)
      modifies this`tasks, this`logged, this`safe
      ensures tasks == r && logged == evs && safe == |evs|
      ensures View() == old(ViewAll(r)) && ViewAll(res) == old(ViewAll(res))
      ensures Durably() == old(Durably()).(logged := evs, safe := |evs|)
    {
      tasks := r;
      logged, safe := evs, |evs|;
      SameViews(r);
      SameViews(res);
    }

    /** Reads both files and rebuilds the tasks as new objects. */
    method ReadBack(stopAt: Option<nat>) returns (err: Option<StoreError>, r: TaskObjects, ghost evs: seq<Event>)
      ensures Separate(r) && fresh(ObjectsOf(r))
      ensures WasRead(codec, disk.State(), stopAt, err, ViewAll(r), evs)
    {
      ghost var d := disk.State();
      var read := ReadAll(codec, if disk.wal.Some? then disk.wal.value else "", stopAt);
      assert LogText(d) == if disk.wal.Some? then disk.wal.value else "";
      if read.Failure? {
        return Some(Unrecoverable(BadLog(read.error))), map[], [];
      }
      evs := read.value;
      var ok;
      r, ok := Rebuild(if disk.snapshot.Some? then disk.snapshot.value.tasks else [], read.value);
      err := if ok then None else Some(Unrecoverable(BadEvent));
    }

    /** ReadBack, and a second copy of everything. */
    method ReadTwice(stopAt: Option<nat>) returns (err: Option<StoreError>, r: TaskObjects, res: TaskObjects, ghost evs: seq<Event>)
      ensures Separate(r) && fresh(ObjectsOf(r)) && Separate(res) && fresh(ObjectsOf(res)) && ObjectsOf(res) !! ObjectsOf(r)
      ensures WasRead(codec, disk.State(), stopAt, err, ViewAll(r), evs) && ViewAll(res) == ViewAll(r)
    {
      err, r, evs := ReadBack(stopAt);
      ghost var mine := ObjectsOf(r);
      res := CopyTasks(r);
      assert mine !! ObjectsOf(res);
    }

    /** Rebuilds memory from the disk; stopAt is as for ReadAll. What the disk holds is then what memory
        is: see Recovery.HeldIsReloaded. */
    method LoadAll(live: bool, stopAt: Option<nat>) returns (err: Option<StoreError>, res: TaskObjects)
      requires Valid()
      modifies this`tasks, this`logged, this`safe
      ensures Valid()
      ensures !live ==> err == Some(Cancelled)
      ensures err.Some? ==> tasks == old(tasks) && Durably() == old(Durably())
      ensures live ==> WasRead(codec, disk.State(), stopAt, err, View(), logged)
      ensures err == None ==>
                fresh(ObjectsOf(tasks)) && Durably() == old(Durably()).(logged := logged, safe := |logged|)
      ensures err == None ==>
                Separate(res) && fresh(ObjectsOf(res)) && ObjectsOf(res) !! ObjectsOf(tasks) && ViewAll(res) == View()
    {
      res := map[];
      if !live {
        return Some(Cancelled), res;
      }
      ghost var p := Durably();
      var r;
      ghost var read;
      err, r, res, read := ReadTwice(stopAt);
      assert Durably() == p;
      if err == None {
        Adopt(r, res, read);
      } else {
        ErrorIsRead(codec, disk.State(), stopAt, err, ViewAll(r), read, View(), logged);
      }
    }

    // -------------------------------------------------------------- snapshots

    /** The tasks of the map as they go into a snapshot; their order is left open. */
    method TaskValues() returns (ts: seq<Task>)
      requires Separate(tasks)
      ensures TasksOf(ts) == View() == old(View())
    {
      ghost var v := View();
      ts := [];
      var left := tasks.Keys;
      while left != {}
        invariant left <= tasks.Keys && TasksOf(ts) == v - left
      {
        var id :| id in left;
        var t := tasks[id].View();
        OneLess(v, left, id);
        assert (ts + [t])[..|ts|] == ts;
        ts := ts + [t];
        left := left - {id};
      }
      SameViews(tasks);
    }

    /** Writes the temporary file and moves it over the snapshot. */
    method WriteSnapshot(ss: Snapshot, faults: set<Step>) returns (err: Option<Step>)
      requires disk.Valid()
      modifies disk`tmp, disk`snapshot, disk`history
      ensures disk.Valid() && err == WriteFault(faults)
      ensures err.Some? ==> disk.snapshot == old(disk.snapshot) && disk.history == old(disk.history)
      ensures err == None ==> disk.snapshot == Some(ss) && disk.history == old(disk.history) + [disk.State()]
    {
      if CheckContext in faults {
        return Some(CheckContext);
      }
      if MakeDir in faults {
        return Some(MakeDir);
      }
      if OpenTmp in faults {
        return Some(OpenTmp);
      }
      disk.WriteTmp(ss, EncodeTmp !in faults && SyncTmp !in faults && CloseTmp !in faults);
      if EncodeTmp in faults {
        return Some(EncodeTmp);
      }
      if SyncTmp in faults {
        return Some(SyncTmp);
      }
      if CloseTmp in faults {
        return Some(CloseTmp);
      }
      if RenameTmp in faults {
        return Some(RenameTmp);
      }
      disk.RenameTmp();
      return None;
    }

    /** Closes the log, moves its file away and opens a new one. A log that an earlier attempt left
        closed is not closed again. */
    method BackupAndResetLog(faults: set<Step>) returns (err: Option<Step>)
      requires LogSound() && log != null && (!log.closed ==> log.buf == "" && !log.failed)
      modifies this`log, this`logged, this`safe, log, disk`wal, disk`room, disk`history
      ensures LogSound() && err == ResetFault(old(log.closed), faults)
      ensures disk.snapshot == old(disk.snapshot) && (log == old(log) || log == null || fresh(log))
      ensures WasReset(old(Durably()), Durably(), err, old(disk.history), disk.history)
    {
      var ok := log.Close(true, CloseLog !in faults);
      if !ok {
        return Some(CloseLog);
      }
      log := null;
      if MakeOldDir in faults {
        return Some(MakeOldDir);
      }
      if RenameLog in faults {
        return Some(RenameLog);
      }
      disk.RenameWalAway();
      logged, safe := [], 0;
      if OpenLog in faults {
        return Some(OpenLog);
      }
      log := new FileLog(codec, disk);
      return None;
    }

    /** The first half of a snapshot: the log is flushed and the snapshot put in place. */
    method FlushAndWrite(ss: Snapshot, faults: set<Step>) returns (err: Option<Step>)
      requires LogSound() && log != null
      modifies log, disk`wal, disk`room, disk`tmp, disk`snapshot, disk`history
      ensures LogSound() && log.closed == old(log.closed) && disk.room.None? == old(disk.room.None?)
      ensures WasPut(old(Durably()), Durably(), ss, err, faults, old(disk.history), disk.history)
    {
      ghost var p, h := Durably(), disk.history;
      err := FlushFirst(faults);
      ghost var r, h1 := Durably(), disk.history;
      if err.Some? {
        FlushFails(p, r, ss, err, faults, h, h1);
        return;
      }
      err := WriteSnapshot(ss, faults);
      FlushedThenPut(p, r, Durably(), ss, faults, h, h1, disk.history);
    }

    /** What is pending goes to the log file. */
    method FlushFirst(faults: set<Step>) returns (err: Option<Step>)
      requires LogSound() && log != null
      modifies log, disk`wal, disk`room, disk`history
      ensures LogSound() && log.closed == old(log.closed) && disk.room.None? == old(disk.room.None?)
      ensures WasFlushed(old(Durably()), Durably(), err, faults, old(disk.history), disk.history)
    {
      var ok := log.Flush(FlushLog !in faults, SyncLog !in faults);
      if !log.closed {
        assert disk.wal.value + "" == disk.wal.value;
      }
      err := if ok then None else Some(if FlushLog in faults || log.failed then FlushLog else SyncLog);
    }

    /** The disk side of FlushSnapshot. */
    method SnapshotToDisk(ss: Snapshot, faults: set<Step>) returns (o: SnapshotOutcome)
      requires LogSound()
      modifies this`log, this`logged, this`safe, log, disk
      ensures LogSound() && (log == old(log) || log == null || fresh(log))
      ensures Snapped(old(Durably()), Durably(), ss, o, faults)
      ensures
        var p := old(Durably());
        p.log.Shut? || p.log.Missing? || Quiet(p) ==>
          disk.history == old(disk.history) + SnapshotTail(o, ss, Flushed(p))
      ensures Passed(old(Durably()), old(disk.history), disk.history, SnapshotTail(o, ss, Flushed(old(Durably()))))
    {
      if log == null {
        return LogMissing;
      }
      ghost var p, h := Durably(), disk.history;
      var err := FlushAndWrite(ss, faults);
      if err.Some? {
        EarlyAttempt(p, Durably(), ss, err.value, faults, h, disk.history);
        return FailedAt(err.value);
      }
      ghost var r, h1 := Durably(), disk.history;
      err := BackupAndResetLog(faults);
      o := OutcomeOf(err);
      LateAttempt(p, r, Durably(), ss, err, faults, h, h1, disk.history);
    }

    /** A snapshot attempt touches no task object. */
    method PutSnapshot(ss: Snapshot, faults: set<Step>) returns (o: SnapshotOutcome)
      requires Valid() && TasksOf(ss.tasks) == View()
      modifies this`log, this`logged, this`safe, log, disk
      ensures Valid() && View() == old(View()) && tasks == old(tasks)
      ensures log == old(log) || log == null || fresh(log)
      ensures Snapped(old(Durably()), Durably(), ss, o, faults)
      ensures
        var p := old(Durably());
        p.log.Shut? || p.log.Missing? || Quiet(p) ==>
          disk.history == old(disk.history) + SnapshotTail(o, ss, Flushed(p))
      ensures Passed(old(Durably()), old(disk.history), disk.history, SnapshotTail(o, ss, Flushed(old(Durably()))))
    {
      o := SnapshotToDisk(ss, faults);
      SameViews(tasks);
    }

    /** Puts the whole map into a new snapshot and starts a new log. */
    method FlushSnapshot(createdAt: Time, faults: set<Step>) returns (o: SnapshotOutcome, ghost ss: Snapshot)
      requires Valid()
      modifies this`log, this`logged, this`safe, log, disk
      ensures TasksOf(ss.tasks) == View() && ss.version == 1 && ss.createdAt == createdAt
      ensures Valid() && View() == old(View()) && tasks == old(tasks)
      ensures log == old(log) || log == null || fresh(log)
      ensures Snapped(old(Durably()), Durably(), ss, o, faults)
      ensures
        var p := old(Durably());
        p.log.Shut? || p.log.Missing? || Quiet(p) ==>
          disk.history == old(disk.history) + SnapshotTail(o, ss, Flushed(p))
      ensures Passed(old(Durably()), old(disk.history), disk.history, SnapshotTail(o, ss, Flushed(old(Durably()))))
    {
      var ts := TaskValues();
      var copy := Snapshot(CurrentVersion, ts, createdAt);
      o := PutSnapshot(copy, faults);
      ss := copy;
    }

    method Close(closeOk: bool) returns (ok: bool)
      requires Valid()
      modifies this`log, log, disk`wal, disk`room, disk`history
      ensures Valid() && log == null && tasks == old(tasks)
      ensures disk.room.None? == old(disk.room.None?)
      ensures
        var p := old(Durably());
        && (p.log.Open? && (p.roomy || p.pending == "") ==>
              ok == closeOk && disk.State() == DiskState(p.disk.snapshot, Some(Stream(p))))
        && (p.log.Missing? || p.log.Shut? ==> ok && disk.State() == p.disk)
    {
      ghost var p := Durably();
      if LogOpen() {
        assert disk.wal.value + "" == disk.wal.value;
      }
      if log == null {
        return true;
      }
      ok := log.Close(true, closeOk);
      log := null;
    }
  }

  /** What a restart makes of an acknowledged update that changes a task, on a store that kept its map:
      it survives exactly if the log was open. */
  method SurvivesIffLogOpen(st: FileTaskStore, task: TaskObject, evs: seq<Event>, w: Weather,
                            ghost m: Tasks, ghost v: Task, ghost now: Time) returns (err: Option<StoreError>)
    requires st.Valid() && st.View() == m && task.Valid() && task.View() == v && task.id in m && v != m[task.id]
    requires Lossless(st.codec) && Holds(st.codec, st.disk.State(), st.logged, m) && Early(st.Durably(), now)
    requires Quiet(st.Durably()) || st.Durably().log.Shut? || st.Durably().log.Missing?
    requires evs != [] && Storable(st.codec, evs, now) && Apply(m, evs) == m[task.id := v]
    modifies st`tasks, st`logged, st`safe, st.log, st.disk
    ensures err == None ==> (Recover(st.codec, st.disk.State()) == Success(st.View()) <==> old(st.Durably()).log.Open?)
    ensures err.Some? ==> st.View() == m
    ensures old(st.Durably()).log.Shut? ==> err == None
    ensures old(st.Durably()).log.Missing? ==> err.Some?
  {
    ghost var p := st.Durably();
    HeldIsReloaded(st.codec, st.disk.State(), st.logged, m);
    err := st.UpdateTask(task, evs, w);
    AcknowledgedSurvives(st.codec, w, p, st.Durably(), m, m[task.id := v], evs, err == None, now);
    assert m[task.id := v][task.id] != m[task.id];
  }

  lemma AcknowledgedSurvives(c: Codec, w: Weather, p: Saved, q: Saved, m: Tasks, r: Tasks, evs: seq<Event>, ok: bool, now: Time)
    requires Lossless(c) && Holds(c, p.disk, p.logged, m) && Early(p, now) && evs != []
    requires Storable(c, evs, now) && Apply(m, evs) == r && Tried(c, w, p, q, evs, ok)
    requires Quiet(p) || p.log.Shut? || p.log.Missing?
    ensures p.log.Open? && ok ==> Recover(c, q.disk) == Success(r)
    ensures !p.log.Open? ==> q.disk == p.disk && ok == p.log.Shut?
  {
    TriedIsWrote(c, w, p, q, evs, ok);
    if p.log.Open? {
      WroteRebuilds(c, p, q, evs, ok, now);
      if ok {
        HeldIsReloaded(c, q.disk, q.logged, r);
      }
    }
  }

  /** The false promise of an acknowledgement: after a snapshot whose log file failed to close, any
      update that changes the task is acknowledged, and a restart forgets it. */
  method ForgottenAfterFailedClose(st: FileTaskStore, task: TaskObject, evs: seq<Event>, w: Weather,
                                   createdAt: Time, faults: set<Step>) returns (acked: bool)
    requires st.Valid() && Rebuilds(st.codec, st.Durably()) == Some(st.View()) && Lossless(st.codec) && task.Valid()
    requires FirstFault(false, faults) == Some(CloseLog)
    requires task.id in st.tasks && task.View() != st.View()[task.id]
    modifies st`tasks, st`log, st`logged, st`safe, st.log, st.disk
    ensures acked && st.View() == old(st.View())[task.id := old(task.View())]
    ensures Recover(st.codec, st.disk.State()) == Success(old(st.View()))
  {
    ghost var m, v := st.View(), task.View();
    FailToCloseLog(st, createdAt, faults, m);
    assert task.View() == v;
    acked := UpdateThroughClosedLog(st, task, evs, w, m, v);
  }

  method FailToCloseLog(st: FileTaskStore, createdAt: Time, faults: set<Step>, ghost m: Tasks)
    requires st.Valid() && Rebuilds(st.codec, st.Durably()) == Some(m) && st.View() == m && Lossless(st.codec)
    requires FirstFault(false, faults) == Some(CloseLog)
    modifies st`log, st`logged, st`safe, st.log, st.disk
    ensures st.Valid() && st.Durably().log.Shut? && st.View() == m
    ensures Recover(st.codec, st.disk.State()) == Success(m)
    ensures st.tasks == old(st.tasks) && (st.log == old(st.log) || st.log == null || fresh(st.log))
  {
    ghost var p := st.Durably();
    var o;
    ghost var ss;
    o, ss := st.FlushSnapshot(createdAt, faults);
    FailedCloseKeeps(st.codec, p, st.Durably(), m, ss, o, faults);
  }

  lemma FailedCloseKeeps(c: Codec, p: Saved, q: Saved, m: Tasks, ss: Snapshot, o: SnapshotOutcome, faults: set<Step>)
    requires Lossless(c) && Rebuilds(c, p) == Some(m) && p.disk.wal.Some? && TasksOf(ss.tasks) == m
    requires Snapped(p, q, ss, o, faults) && FirstFault(false, faults) == Some(CloseLog)
    ensures q.log.Shut? && Recover(c, q.disk) == Success(m)
  {
    SnapshotKeepsMap(c, p, q, m, ss, o, faults);
    HeldIsReloaded(c, q.disk, q.logged, m);
  }

  method UpdateThroughClosedLog(st: FileTaskStore, task: TaskObject, evs: seq<Event>, w: Weather,
                                ghost m: Tasks, ghost v: Task) returns (acked: bool)
    requires st.Valid() && st.Durably().log.Shut? && st.View() == m
    requires task.Valid() && task.id in m && task.View() == v
    modifies st`tasks, st`logged, st`safe, st.log, st.disk
    ensures acked && st.View() == m[task.id := v]
    ensures st.disk.State() == old(st.disk.State())
  {
    ghost var p := st.Durably();
    var err := st.UpdateTask(task, evs, w);
    ShutStoresNothing(st.codec, w, p, st.Durably(), evs, err == None);
    acked := err == None;
  }

  lemma ShutStoresNothing(c: Codec, w: Weather, p: Saved, q: Saved, evs: seq<Event>, ok: bool)
    requires Tried(c, w, p, q, evs, ok) && p.log.Shut?
    ensures ok && q == p
  {
    TriedIsWrote(c, w, p, q, evs, ok);
  }

  /** Where an attempt to append leaves the stream, in whole lines. */
  lemma PartOfBatch(c: Codec, stream: string, evs: seq<Event>, kept: nat, n: nat)
    requires n <= |evs| && |EncodeAll(c, evs[..n])| <= kept <= |EncodeAll(c, evs)|
    ensures
      var text := EncodeAll(c, evs);
      && stream + EncodeAll(c, evs[..n]) <= stream + text[..kept] <= stream + text
      && (kept == |EncodeAll(c, evs[..n])| ==> stream + text[..kept] == stream + EncodeAll(c, evs[..n]))
      && (n == |evs| ==> evs[..n] == evs && text[..|text|] == text)
  {
    EncodeAllConcat(c, evs[..n], evs[n..]);
    assert evs[..n] + evs[n..] == evs;
    if n == |evs| { assert evs[..n] == evs; }
  }
}
