/** Enqueue and EnqueueAll as loops, with whatever workers, clients and other dispatchers do between
    their steps. */
module DownloadManagers {
  import opened Core
  import opened Replay
  import opened Calls
  import opened FileStates
  import opened Runs
  import opened Dispatching
  import opened Submissions
  import Pools

  datatype EnqueueResult = Queued | Disabled | UnknownTask | Refused(index: nat) | NotMarked(index: nat)

  ghost predicate Calm(others: Interference) {
    forall k, m :: others(k, m) == m
  }

  /** The first n files of a task are queued, being downloaded, or finished. */
  ghost predicate DealtWith(m: Tasks, id: string, n: nat) {
    forall j :: 0 <= j < n ==> StatusAt(m, FileId(id, j)).Some? && !Sendable(m, FileId(id, j))
  }

  lemma StillDealtWith(m: Tasks, r: Tasks, id: string, n: nat)
    requires DealtWith(m, id, n) && Later(m, r)
    ensures DealtWith(r, id, n)
  {
    forall j | 0 <= j < n ensures StatusAt(r, FileId(id, j)).Some? && !Sendable(r, FileId(id, j)) {
      NeverSendableAgain(m, r, FileId(id, j));
    }
  }

  /** Without interference, r is m but for the wanted files below n, which are queued. */
  ghost predicate OnlyQueued(m: Tasks, r: Tasks, id: string, files: seq<File>, n: nat)
    requires n <= |files|
  {
    forall f :: StatusAt(r, f)
      == if f.id == id && 0 <= f.index < n && ToSubmit(files[f.index].status) then Some(FileQueued) else StatusAt(m, f)
  }

  lemma MarkMoves(m: Tasks, id: string, i: nat, now: Time)
    ensures var r := Exec(m, MarkQueued(id, i, now)).tasks; Later(m, r) && !Sendable(r, FileId(id, i))
  {
    CallMovesForward(m, MarkQueued(id, i, now));
    MarkedIsNotSendable(m, MarkQueued(id, i, now));
  }

  lemma MarkQueuesOnly(m: Tasks, r: Tasks, id: string, files: seq<File>, i: nat, now: Time)
    requires id in m && files == m[id].files && i < |files| && ToSubmit(files[i].status) && OnlyQueued(m, r, id, files, i)
    ensures OnlyQueued(m, Exec(r, MarkQueued(id, i, now)).tasks, id, files, i + 1)
  {
    forall f {
      MarkChangesOneStatus(r, MarkQueued(id, i, now), f);
    }
    assert StatusAt(r, FileId(id, i)) == Some(files[i].status);
  }

  /** How far Enqueue has come with a task whose files it has read from m: nothing has gone back, and the
      first n files are dealt with; without interference nothing else has changed. */
  ghost function ProgressVerdict(m: Tasks, r: Tasks, id: string, files: seq<File>, n: nat, calm: bool): Verdict
    requires n <= |files|
  {
    if Later(m, r) && DealtWith(r, id, n) && (calm ==> OnlyQueued(m, r, id, files, n)) then Sound else Unsound
  }

  ghost predicate Progress(m: Tasks, r: Tasks, id: string, files: seq<File>, n: nat, calm: bool)
    requires n <= |files|
  {
    ProgressVerdict(m, r, id, files, n, calm) == Sound
  }

  lemma NothingToSubmit(m: Tasks, r: Tasks, id: string, i: nat, calm: bool)
    requires id in m && i < |m[id].files| && !ToSubmit(m[id].files[i].status) && Progress(m, r, id, m[id].files, i, calm)
    ensures Progress(m, r, id, m[id].files, i + 1, calm)
  {
    NeverSendableAgain(m, r, FileId(id, i));
    assert DealtWith(r, id, i + 1);
    if calm {
      assert OnlyQueued(m, r, id, m[id].files, i + 1);
    }
  }

  /** The jobs of a task's wanted files below n. */
  function JobsFor(id: string, files: seq<File>, n: nat): seq<Pools.Job>
    requires n <= |files|
  {
    if n == 0 then []
    else JobsFor(id, files, n - 1) + if ToSubmit(files[n - 1].status) then [Pools.Job(id, files[n - 1].url, n - 1)] else []
  }

  /** There is one for each wanted file, in order, and it names the task, the file and the file's URL. */
  lemma {:induction false} JobsNameTheirFiles(id: string, files: seq<File>, n: nat)
    requires n <= |files|
    ensures
      var (jobs, wanted) := (JobsFor(id, files, n), Wanted(files, n));
      && |jobs| == |wanted|
      && forall k :: 0 <= k < |jobs| ==> 0 <= wanted[k] < n && jobs[k] == Pools.Job(id, files[wanted[k]].url, wanted[k])
  {
    if n > 0 {
      JobsNameTheirFiles(id, files, n - 1);
    }
  }

  /** What an EnqueueAll over these tasks submits, given the files it reads for each. */
  function AllJobs(ids: seq<string>, read: seq<seq<File>>): seq<Pools.Job>
    requires |read| <= |ids|
    decreases |read|
  {
    if read == [] then []
    else
      var n := |read| - 1;
      AllJobs(ids, read[..n]) + JobsFor(ids[n], read[n], |read[n]|)
  }

  lemma AllJobsOfOneMore(ids: seq<string>, read: seq<seq<File>>, files: seq<File>)
    requires |read| < |ids|
    ensures AllJobs(ids, read + [files]) == AllJobs(ids, read) + JobsFor(ids[|read|], files, |files|)
  {
    var all := read + [files];
    assert all[..|all| - 1] == read && all[|all| - 1] == files;
  }

  lemma AllJobsNext(sent: seq<Pools.Job>, ids: seq<string>, read: seq<seq<File>>, files: seq<File>)
    requires |read| < |ids|
    ensures sent + AllJobs(ids, read) + JobsFor(ids[|read|], files, |files|) == sent + AllJobs(ids, read + [files])
  {
    AllJobsOfOneMore(ids, read, files);
    Regroup(sent, AllJobs(ids, read), JobsFor(ids[|read|], files, |files|));
  }

  /** These files of a task were read when it was no earlier than m and no later than r. */
  predicate ReadBetween(m: Tasks, r: Tasks, id: string, files: seq<File>) {
    && id in m && id in r && |m[id].files| == |files| == |r[id].files|
    && forall i :: 0 <= i < |files| ==> FileLater(m[id].files[i], files[i]) && FileLater(files[i], r[id].files[i])
  }

  ghost predicate AllReadBetween(m: Tasks, r: Tasks, ids: seq<string>, read: seq<seq<File>>) {
    |read| <= |ids| && forall k :: 0 <= k < |read| ==> ReadBetween(m, r, ids[k], read[k])
  }

  lemma OneMoreRead(m: Tasks, before: Tasks, r: Tasks, ids: seq<string>, read: seq<seq<File>>, files: seq<File>)
    requires AllReadBetween(m, before, ids, read) && Later(m, before) && Later(before, r) && |read| < |ids|
    requires ids[|read|] in m && ids[|read|] in before && files == before[ids[|read|]].files
    ensures AllReadBetween(m, r, ids, read + [files])
  {
    StillReadBetween(m, before, r, ids, read);
    var id := ids[|read|];
    assert TaskLater(m[id], before[id]) && TaskLater(before[id], r[id]);
    assert ReadBetween(m, r, id, files);
  }

  lemma StillReadBetween(m: Tasks, before: Tasks, r: Tasks, ids: seq<string>, read: seq<seq<File>>)
    requires AllReadBetween(m, before, ids, read) && Later(before, r)
    ensures AllReadBetween(m, r, ids, read)
  {
    forall k | 0 <= k < |read| ensures ReadBetween(m, r, ids[k], read[k]) {
      var id := ids[k];
      assert ReadBetween(m, before, id, read[k]) && TaskLater(before[id], r[id]);
      forall i | 0 <= i < |read[k]| ensures FileLater(read[k][i], r[id].files[i]) {
        assert FileLater(before[id].files[i], r[id].files[i]);
      }
    }
  }

  lemma Regroup<T>(a: seq<T>, b: seq<T>, c: seq<T>)
    ensures a + b + c == a + (b + c)
  {
  }

  class DownloadManager {
    var disabled: bool
    /** The tasks of the service, and the jobs the pool has accepted from here. */
    var tasks: Tasks
    var sent: seq<Pools.Job>

    constructor (tasks: Tasks)
      ensures this.tasks == tasks && sent == [] && !disabled
    {
      this.tasks, sent, disabled := tasks, [], false;
    }

    method DisableEnqueue()
      modifies this
      ensures disabled && tasks == old(tasks) && sent == old(sent)
    {
      disabled := true;
    }

    method Interfere(others: Interference, k: nat, ghost id: string, ghost n: nat)
      requires Onward(others) && DealtWith(tasks, id, n)
      modifies this`tasks
      ensures Later(old(tasks), tasks) && DealtWith(tasks, id, n) && (Calm(others) ==> tasks == old(tasks))
    {
      assert OnwardAt(others, k, tasks);
      tasks := others(k, tasks);
      StillDealtWith(old(tasks), tasks, id, n);
    }

    method MarkFile(id: string, i: nat, now: Time, ghost first: Tasks)
      requires DealtWith(tasks, id, i) && Later(first, tasks) && id in first && i < |first[id].files|
      modifies this`tasks
      ensures tasks == Exec(old(tasks), MarkQueued(id, i, now)).tasks
      ensures Later(first, tasks) && DealtWith(tasks, id, i + 1)
    {
      tasks := Exec(tasks, MarkQueued(id, i, now)).tasks;
      MarkMoves(old(tasks), id, i, now);
      StillDealtWith(old(tasks), tasks, id, i);
      LaterIsTransitive(first, old(tasks), tasks);
      assert TaskLater(first[id], tasks[id]);
    }

    /** One wanted file: it is submitted and, if the pool takes it, marked. */
    method EnqueueFile(id: string, i: nat, url: string, accepted: bool, marked: bool, others: Interference, now: Time, ghost first: Tasks)
      requires Onward(others) && id in first && i < |first[id].files| && ToSubmit(first[id].files[i].status)
      requires url == first[id].files[i].url && Progress(first, tasks, id, first[id].files, i, Calm(others))
      modifies this`tasks, this`sent
      ensures Progress(first, tasks, id, first[id].files, if accepted && marked then i + 1 else i, Calm(others))
      ensures sent == old(sent) + if accepted then [Pools.Job(id, first[id].files[i].url, i)] else []
    {
      if !accepted {
        return;
      }
      sent := sent + [Pools.Job(id, url, i)];
      Interfere(others, 2 * i, id, i);
      LaterIsTransitive(first, old(tasks), tasks);
      if !marked {
        return;
      }
      ghost var before := tasks;
      MarkFile(id, i, now, first);
      if Calm(others) {
        MarkQueuesOnly(first, before, id, first[id].files, i, now);
      }
      ghost var done := tasks;
      Interfere(others, 2 * i + 1, id, i + 1);
      LaterIsTransitive(first, done, tasks);
    }

    /** accepts says whether the pool takes the file at an index, marks whether its queue mark goes
        through. */
    method Enqueue(id: string, accepts: nat -> bool, marks: nat -> bool, others: Interference, now: nat -> Time)
      returns (r: EnqueueResult, ghost files: seq<File>)
      requires Onward(others)
      modifies this`tasks, this`sent
      ensures Later(old(tasks), tasks)
      ensures r.Disabled? <==> disabled
      ensures r.UnknownTask? <==> !disabled && id !in old(tasks)
      ensures r.Disabled? || r.UnknownTask? ==> tasks == old(tasks) && sent == old(sent)
      ensures files == if id in old(tasks) then old(tasks)[id].files else []
      ensures r.Queued? ==>
                && sent == old(sent) + JobsFor(id, files, |files|)
                && Progress(old(tasks), tasks, id, files, |files|, Calm(others))
      ensures r.Refused? ==>
                && r.index < |files| && ToSubmit(files[r.index].status) && !accepts(r.index)
                && sent == old(sent) + JobsFor(id, files, r.index)
                && Progress(old(tasks), tasks, id, files, r.index, Calm(others))
      ensures r.NotMarked? ==>
                && r.index < |files| && ToSubmit(files[r.index].status) && !marks(r.index)
                && sent == old(sent) + JobsFor(id, files, r.index + 1)
                && Progress(old(tasks), tasks, id, files, r.index, Calm(others))
      ensures (forall i :: accepts(i) && marks(i)) ==> !r.Refused? && !r.NotMarked?
    {
      files := [];
      LaterIsReflexive(tasks);
      if id in tasks {
        files := tasks[id].files;
      }
      if disabled {
        return Disabled, files;
      }
      if id !in tasks {
        return UnknownTask, files;
      }
      var list := tasks[id].files;
      for i := 0 to |list|
        invariant Progress(old(tasks), tasks, id, list, i, Calm(others))
        invariant sent == old(sent) + JobsFor(id, list, i)
      {
        if !ToSubmit(list[i].status) {
          NothingToSubmit(old(tasks), tasks, id, i, Calm(others));
          continue;
        }
        EnqueueFile(id, i, list[i].url, accepts(i), marks(i), others, now(i), old(tasks));
        if !accepts(i) {
          return EnqueueResult.Refused(i), files;
        }
        if !marks(i) {
          return EnqueueResult.NotMarked(i), files;
        }
      }
      return Queued, files;
    }

    /** Enqueue for each task; ids lists all of them as SortedTasks gave them. It stops at the first error.
        From task closed on, another thread has disabled enqueueing. */
    method EnqueueAll(ids: seq<string>, accepts: nat -> (nat -> bool), marks: nat -> (nat -> bool),
                      others: nat -> Interference, now: nat -> (nat -> Time), closed: Option<nat>)
      returns (r: EnqueueResult, ghost read: seq<seq<File>>, ghost last: seq<File>)
      requires forall i :: 0 <= i < |ids| ==> ids[i] in tasks
      requires forall i :: Onward(others(i))
      modifies this
      ensures Later(old(tasks), tasks) && AllReadBetween(old(tasks), tasks, ids, read)
      ensures r.Disabled? <==> old(disabled)
      ensures r.Disabled? ==> sent == old(sent) && tasks == old(tasks)
      ensures r.Queued? ==>
                && sent == old(sent) + AllJobs(ids, read)
                && |read| == if closed.Some? && closed.value < |ids| then closed.value else |ids|
      ensures r.Refused? ==>
                && |read| < |ids| && ReadBetween(old(tasks), tasks, ids[|read|], last)
                && r.index < |last| && ToSubmit(last[r.index].status) && !accepts(|read|)(r.index)
                && sent == old(sent) + AllJobs(ids, read) + JobsFor(ids[|read|], last, r.index)
      ensures r.NotMarked? ==>
                && |read| < |ids| && ReadBetween(old(tasks), tasks, ids[|read|], last)
                && r.index < |last| && ToSubmit(last[r.index].status) && !marks(|read|)(r.index)
                && sent == old(sent) + AllJobs(ids, read) + JobsFor(ids[|read|], last, r.index + 1)
      ensures !r.UnknownTask?
    {
      read, last := [], [];
      LaterIsReflexive(tasks);
      if disabled {
        return Disabled, read, last;
      }
      for i := 0 to |ids|
        invariant Later(old(tasks), tasks) && AllReadBetween(old(tasks), tasks, ids, read)
        invariant disabled == (closed.Some? && closed.value < i)
        invariant |read| == if closed.Some? && closed.value < i then closed.value else i
        invariant sent == old(sent) + AllJobs(ids, read)
      {
        if closed == Some(i) {
          DisableEnqueue();
        }
        ghost var before := tasks;
        r, last := Enqueue(ids[i], accepts(i), marks(i), others(i), now(i));
        LaterIsTransitive(old(tasks), before, tasks);
        StillReadBetween(old(tasks), before, tasks, ids, read);
        if r.Refused? || r.NotMarked? {
          OneMoreRead(old(tasks), before, tasks, ids, read, last);
          assert (read + [last])[|read|] == last;
          return r, read, last;
        }
        if r.Queued? {
          OneMoreRead(old(tasks), before, tasks, ids, read, last);
          AllJobsNext(old(sent), ids, read, last);
          read := read + [last];
        }
      }
      return Queued, read, last;
    }
  }
}
