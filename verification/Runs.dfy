/** Whole runs of task-service calls: what their log recovers, whole, cut short, or thinned out,
    and what no run ever undoes. */
module Runs {
  import opened Core
  import opened Records
  import opened Replay
  import opened Calls

  datatype Ran = Ran(tasks: Tasks, log: seq<Event>)

  function Run(m: Tasks, calls: seq<Call>): Ran
    decreases |calls|
  {
    if calls == [] then Ran(m, [])
    else
      var r := Run(m, calls[..|calls| - 1]);
      var o := Exec(r.tasks, calls[|calls| - 1]);
      Ran(o.tasks, r.log + o.events)
  }

  /** The clock never steps back during the run, nor behind what the tasks already carry. */
  predicate Clocked(m: Tasks, calls: seq<Call>) {
    && (forall i, j :: 0 <= i < j < |calls| ==> calls[i].now <= calls[j].now)
    && (calls != [] ==> AllNotAfter(m, calls[0].now))
  }

  function Clock(calls: seq<Call>): Time
    requires calls != []
  {
    calls[|calls| - 1].now
  }

  lemma ClockedPrefix(m: Tasks, calls: seq<Call>, n: nat)
    requires Clocked(m, calls) && n <= |calls|
    ensures Clocked(m, calls[..n])
  {
  }

  lemma {:induction false} RunKeeps(m: Tasks, calls: seq<Call>)
    requires Good(m) && Clocked(m, calls)
    ensures var r := Run(m, calls); Good(r.tasks) && AllReadable(r.log)
    ensures
      var r := Run(m, calls);
      if calls == [] then r.log == [] else
        && AllNotAfter(r.tasks, Clock(calls))
        && forall k :: 0 <= k < |r.log| ==> calls[0].now <= r.log[k].createdAt <= Clock(calls)
    decreases |calls|
  {
    if calls != [] {
      var n := |calls| - 1;
      ClockedPrefix(m, calls, n);
      RunKeeps(m, calls[..n]);
      var r := Run(m, calls[..n]);
      ExecKeepsGood(r.tasks, calls[n]);
    }
  }

  lemma {:induction false} RunIsMonotone(m: Tasks, calls: seq<Call>)
    requires Good(m) && Clocked(m, calls)
    ensures Monotone(Run(m, calls).log)
    decreases |calls|
  {
    if calls != [] {
      var n := |calls| - 1;
      var r := Run(m, calls[..n]);
      ClockedPrefix(m, calls, n);
      RunIsMonotone(m, calls[..n]);
      RunKeeps(m, calls[..n]);
      ExecKeepsGood(r.tasks, calls[n]);
      MonotoneAppend(r.log, Exec(r.tasks, calls[n]).events, calls[n].now);
    }
  }

  /** A log that recovers the tasks so far, with and without its task-status events, does so with the
      events of one more call. */
  lemma OneMoreCallRecovers(m: Tasks, log: seq<Event>, r: Tasks, c: Call)
    requires Good(r) && AllNotAfter(r, c.now) && Apply(m, log) == r == Apply(m, WithoutTaskStatus(log))
    ensures Apply(m, log + Exec(r, c).events) == Exec(r, c).tasks
    ensures Apply(m, WithoutTaskStatus(log + Exec(r, c).events)) == Exec(r, c).tasks
  {
    var evs := Exec(r, c).events;
    EventsRecoverCall(r, c);
    ApplyConcat(m, log, evs);
    WithoutTaskStatusConcat(log, evs);
    ApplyConcat(m, WithoutTaskStatus(log), WithoutTaskStatus(evs));
  }

  /** Recovery refines memory over whole runs: the log of a run, replayed over where the run began,
      gives the tasks where it ended, in every field; the task-status events in it are redundant. */
  lemma {:induction false} RunRecovers(m: Tasks, calls: seq<Call>)
    requires Good(m) && Clocked(m, calls)
    ensures Apply(m, Run(m, calls).log) == Run(m, calls).tasks
    ensures Apply(m, WithoutTaskStatus(Run(m, calls).log)) == Run(m, calls).tasks
    decreases |calls|
  {
    if calls != [] {
      var n := |calls| - 1;
      var r := Run(m, calls[..n]);
      ClockedPrefix(m, calls, n);
      RunRecovers(m, calls[..n]);
      RunKeeps(m, calls[..n]);
      assert AllNotAfter(r.tasks, calls[n].now);
      OneMoreCallRecovers(m, r.log, r.tasks, calls[n]);
    }
  }

  lemma {:induction false} LaterLogSettles(t: Task, id: string, evs: seq<Event>, bound: Time)
    requires NotAfter(t.updatedAt, bound)
    requires forall k :: 0 <= k < |evs| ==> bound <= evs[k].createdAt
    ensures Settled(t, id, evs)
    decreases |evs|
  {
    if evs != [] && !Creates(id, evs) {
      NoCreation(id, evs);
      LaterLogSettles(t, id, evs[..|evs| - 1], bound);
    }
  }

  /** A snapshot of the end of a run may be paired with the whole log of the run, or with nothing:
      both recover the end of the run. */
  lemma SnapshotOverItsOwnLog(m: Tasks, calls: seq<Call>)
    requires Good(m) && Clocked(m, calls)
    ensures ReplaySafe(m, Run(m, calls).log)
    ensures Apply(Run(m, calls).tasks, Run(m, calls).log) == Run(m, calls).tasks
    ensures ReplaySafe(Run(m, calls).tasks, Run(m, calls).log)
  {
    var r := Run(m, calls);
    RunKeeps(m, calls);
    RunIsMonotone(m, calls);
    RunRecovers(m, calls);
    forall id | id in m ensures Settled(m[id], id, r.log) {
      LaterLogSettles(m[id], id, r.log, if calls == [] then (if m[id].updatedAt.Some? then m[id].updatedAt.value else 0) else calls[0].now);
    }
    DoubleReplay(m, r.log);
  }

  // ---------------------------------------------------------------- half-written batches

  predicate Consistent(m: Tasks) {
    forall id :: id in m ==> m[id].status == ObtainStatus(m[id].files)
  }

  /** r is m but for one file of one task and that task's status and UpdatedAt. */
  predicate OneFileApart(m: Tasks, r: Tasks, id: string, index: int) {
    && id in m && 0 <= index < |m[id].files|
    && r.Keys == m.Keys
    && (forall other :: other in m && other != id ==> r[other] == m[other])
    && |r[id].files| == |m[id].files|
    && r[id] == m[id].(files := m[id].files[index := r[id].files[index]],
                       status := r[id].status, updatedAt := r[id].updatedAt)
  }

  lemma HalfOfChange(m: Tasks, id: string, index: nat, f: File, now: Time, r: Tasks)
    requires Good(m) && id in m && index < |m[id].files|
    requires r == m[id := AfterStatusEvent(m[id], index, f, now)] || r == m[id := WithFile(m[id], index, f, now)]
    ensures Consistent(r) && OneFileApart(m, r, id, index)
  {
    assert r[id].files == m[id].files[index := r[id].files[index]];
  }

  lemma HalfOfMark(m: Tasks, c: Call, k: nat)
    requires Good(m) && AllNotAfter(m, c.now) && !c.Create? && 0 < k <= |Exec(m, c).events|
    ensures
      var r := Apply(m, Exec(m, c).events[..k]);
      && Consistent(r)
      && (r == m || OneFileApart(m, r, c.id, c.index))
  {
    var o := Exec(m, c);
    ChangesAreExpressible(m, c);
    var was := m[c.id].files[c.index];
    var f := if c.MarkQueued? then QueuedFile(was) else MarkedFile(was, c);
    PrefixesOfChange(m, c.id, c.index, f, c.now, !c.MarkQueued?);
    var r := Apply(m, o.events[..k]);
    if r != m {
      HalfOfChange(m, c.id, c.index, f, c.now, r);
    }
  }

  lemma WholeOfCreate(m: Tasks, c: Call)
    requires Good(m) && AllNotAfter(m, c.now) && c.Create?
    ensures Apply(m, Exec(m, c).events) == Exec(m, c).tasks && Consistent(Exec(m, c).tasks)
    ensures |Exec(m, c).events| <= 1
  {
    ExecKeepsGood(m, c);
    EventsRecoverCall(m, c);
  }

  predicate CallHalfDone(m: Tasks, c: Call, k: nat, r: Tasks) {
    || r == m
    || (k == |Exec(m, c).events| && r == Exec(m, c).tasks)
    || (!c.Create? && OneFileApart(m, r, c.id, c.index))
  }

  lemma HalfOfCall(m: Tasks, c: Call, k: nat)
    requires Good(m) && AllNotAfter(m, c.now) && k <= |Exec(m, c).events|
    ensures var r := Apply(m, Exec(m, c).events[..k]); Consistent(r) && CallHalfDone(m, c, k, r)
  {
    var evs := Exec(m, c).events;
    if k == 0 {
      assert evs[..k] == [];
    } else if c.Create? {
      WholeOfCreate(m, c);
      assert evs[..k] == evs;
    } else {
      HalfOfMark(m, c, k);
    }
  }

  predicate RecoversBetween(m: Tasks, calls: seq<Call>, j: nat, r: Tasks)
    requires j <= |calls|
  {
    || r == Run(m, calls[..j]).tasks
    || (j < |calls| && !calls[j].Create?
        && OneFileApart(Run(m, calls[..j]).tasks, r, calls[j].id, calls[j].index))
  }

  /** A log cut inside the events of its last call. */
  lemma HalfOfLastCall(m: Tasks, calls: seq<Call>, k: nat)
    requires Good(m) && Clocked(m, calls) && calls != []
    requires |Run(m, calls[..|calls| - 1]).log| <= k <= |Run(m, calls).log|
    ensures
      var r := Apply(m, Run(m, calls).log[..k]);
      Consistent(r)
      && (RecoversBetween(m, calls, |calls| - 1, r) || (k == |Run(m, calls).log| && r == Run(m, calls).tasks))
  {
    var n := |calls| - 1;
    var before := Run(m, calls[..n]);
    ClockedPrefix(m, calls, n);
    RunKeeps(m, calls[..n]);
    RunRecovers(m, calls[..n]);
    var evs := Exec(before.tasks, calls[n]).events;
    var i := k - |before.log|;
    assert Run(m, calls).log[..k] == before.log + evs[..i];
    ApplyConcat(m, before.log, evs[..i]);
    HalfOfCall(before.tasks, calls[n], i);
  }

  /** A log cut after any event recovers a state some prefix of the run left, but for at most one
      file of the call being written; every task's status still follows from its files. */
  lemma {:induction false} HalfWrittenLog(m: Tasks, calls: seq<Call>, k: nat) returns (j: nat)
    requires Good(m) && Clocked(m, calls) && k <= |Run(m, calls).log|
    ensures j <= |calls| && |Run(m, calls[..j]).log| <= k
    ensures k == |Run(m, calls).log| ==> j == |calls|
    ensures
      var r := Apply(m, Run(m, calls).log[..k]);
      Consistent(r) && RecoversBetween(m, calls, j, r)
    decreases |calls|
  {
    var log := Run(m, calls).log;
    if k == |log| {
      j := |calls|;
      assert log[..k] == log && calls[..j] == calls;
      RunRecovers(m, calls);
      RunKeeps(m, calls);
    } else {
      var n := |calls| - 1;
      ClockedPrefix(m, calls, n);
      if k < |Run(m, calls[..n]).log| {
        assert log[..k] == Run(m, calls[..n]).log[..k];
        j := HalfWrittenLog(m, calls[..n], k);
        assert calls[..n][..j] == calls[..j];
        assert j < n ==> calls[..n][j] == calls[j];
      } else {
        HalfOfLastCall(m, calls, k);
        j := n;
      }
    }
  }

  // ---------------------------------------------------------------- what no run undoes

  predicate HasStarted(s: FileStatus) {
    s.FileDownloading? || s.FileCompleted? || s.FileError?
  }

  predicate FileLater(f: File, g: File) {
    && g.url == f.url
    && (f.status.FileCompleted? ==> g == f)
    && (HasStarted(f.status) ==> HasStarted(g.status))
    && (f.status.FileQueued? ==> g.status.FileQueued? || HasStarted(g.status))
    && (g.status.FileWaiting? ==> g == f)
    && (f.startedAt.Some? ==> g.startedAt.Some?)
  }

  predicate TaskLater(t: Task, u: Task) {
    && u.id == t.id && u.urls == t.urls && u.createdAt == t.createdAt
    && |u.files| == |t.files|
    && forall i :: 0 <= i < |t.files| ==> FileLater(t.files[i], u.files[i])
  }

  predicate Later(m: Tasks, r: Tasks) {
    forall id :: id in m ==> id in r && TaskLater(m[id], r[id])
  }

  /** What others make of the tasks between two steps of a loop; no run of calls takes a file back, see
      RunMovesForward. */
  type Interference = (nat, Tasks) -> Tasks

  predicate OnwardAt(others: Interference, k: nat, m: Tasks) {
    Later(m, others(k, m))
  }

  ghost predicate Onward(others: Interference) {
    forall k, m :: OnwardAt(others, k, m)
  }

  lemma CallMovesForward(m: Tasks, c: Call)
    ensures Later(m, Exec(m, c).tasks)
  {
    if !c.Create? && Exec(m, c).events != [] {
      var t := m[c.id];
      var was := t.files[c.index];
      var f := if c.MarkQueued? then QueuedFile(was) else MarkedFile(was, c);
      assert FileLater(was, f);
      assert Exec(m, c).tasks[c.id] == WithFile(t, c.index, f, c.now);
    }
  }

  lemma NextMovesForward(a: Tasks, m: Tasks, calls: seq<Call>, i: nat)
    requires i < |calls| && Later(a, Run(m, calls[..i]).tasks)
    ensures Later(a, Run(m, calls[..i + 1]).tasks)
  {
    var r := Run(m, calls[..i]).tasks;
    RunOfNext(m, calls, i);
    CallMovesForward(r, calls[i]);
    LaterIsTransitive(a, r, Exec(r, calls[i]).tasks);
  }

  lemma LaterIsReflexive(m: Tasks)
    ensures Later(m, m)
  {
  }

  /** Over any run and in any order of calls: no task disappears, a completed file never changes
      again (name and size included), a started or finished file never goes back to queued or
      waiting, and no file becomes waiting. */
  lemma {:induction false} RunMovesForward(m: Tasks, calls: seq<Call>, i: nat, j: nat)
    requires i <= j <= |calls|
    ensures Later(Run(m, calls[..i]).tasks, Run(m, calls[..j]).tasks)
    decreases j
  {
    var start := Run(m, calls[..i]).tasks;
    if i == j {
      LaterIsReflexive(start);
    } else {
      RunMovesForward(m, calls, i, j - 1);
      NextMovesForward(start, m, calls, j - 1);
    }
  }

  lemma RunOfNext(m: Tasks, calls: seq<Call>, i: nat)
    requires i < |calls|
    ensures Run(m, calls[..i + 1]).tasks == Exec(Run(m, calls[..i]).tasks, calls[i]).tasks
  {
    assert calls[..i + 1][..i] == calls[..i];
  }

  lemma LaterIsTransitive(a: Tasks, b: Tasks, c: Tasks)
    requires Later(a, b) && Later(b, c)
    ensures Later(a, c)
  {
    forall id | id in a ensures TaskLater(a[id], c[id]) {
      forall i | 0 <= i < |a[id].files| ensures FileLater(a[id].files[i], c[id].files[i]) {
        assert FileLater(a[id].files[i], b[id].files[i]);
        assert FileLater(b[id].files[i], c[id].files[i]);
      }
    }
  }

  /** A queue mark that arrives after the worker has started or finished the file does nothing. */
  lemma LateQueueMarkIsIgnored(m: Tasks, c: Call)
    requires c.MarkQueued? && c.id in m && 0 <= c.index < |m[c.id].files|
    requires IsBusy(m[c.id].files[c.index].status) || IsFinished(m[c.id].files[c.index].status)
    ensures Exec(m, c) == Outcome(m, [], Success(m[c.id]))
  {
  }

  lemma RunNext(m: Tasks, calls: seq<Call>, c: Call)
    ensures
      var r := Run(m, calls);
      Run(m, calls + [c]) == Ran(Exec(r.tasks, c).tasks, r.log + Exec(r.tasks, c).events)
  {
    assert (calls + [c])[..|calls|] == calls;
  }

  lemma LastApart(a: seq<Call>, rest: seq<Call>)
    requires rest != []
    ensures a + rest == a + rest[..|rest| - 1] + [rest[|rest| - 1]]
  {
    assert rest == rest[..|rest| - 1] + [rest[|rest| - 1]];
  }

  /** What follows depends only on what came before. */
  lemma {:induction false} SameEndings(m: Tasks, a: seq<Call>, b: seq<Call>, rest: seq<Call>)
    requires Run(m, a) == Run(m, b)
    ensures Run(m, a + rest) == Run(m, b + rest)
    decreases |rest|
  {
    if rest == [] {
      assert a + rest == a && b + rest == b;
    } else {
      var n := |rest| - 1;
      SameEndings(m, a, b, rest[..n]);
      LastApart(a, rest);
      LastApart(b, rest);
      RunNext(m, a + rest[..n], rest[n]);
      RunNext(m, b + rest[..n], rest[n]);
    }
  }

  /** Wherever it stands in a run, a queue mark on a file that is busy or finished by then can be struck
      out: tasks and log of the whole run stay the same. */
  lemma LateQueueMarkCanBeStruckOut(m: Tasks, before: seq<Call>, c: Call, rest: seq<Call>)
    requires
      var r := Run(m, before).tasks;
      && c.MarkQueued? && c.id in r && 0 <= c.index < |r[c.id].files|
      && (IsBusy(r[c.id].files[c.index].status) || IsFinished(r[c.id].files[c.index].status))
    ensures Run(m, before + [c] + rest) == Run(m, before + rest)
  {
    var r := Run(m, before);
    LateQueueMarkIsIgnored(r.tasks, c);
    RunNext(m, before, c);
    assert r.log + [] == r.log;
    SameEndings(m, before + [c], before, rest);
  }
}
