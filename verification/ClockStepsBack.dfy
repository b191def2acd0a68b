/** What a clock that steps back between a snapshot and the log after it does to a second replay. */
module ClockStepsBack {
  import opened Core
  import opened Records
  import opened Replay
  import opened Calls
  import opened Runs

  /** The map holds one task, t, with two files. */
  predicate IsPair(m: Tasks, a: FileStatus, b: FileStatus, st: TaskStatus, updatedAt: Time) {
    && m.Keys == {"t"} && m["t"].id == "t" && Statuses(m["t"].files) == [a, b]
    && m["t"].status == st && m["t"].updatedAt == Some(updatedAt)
  }

  lemma PairStatus(a: FileStatus, b: FileStatus)
    ensures IsBusy(a) || IsBusy(b) ==> StatusOf([a, b]) == TaskInProgress
    ensures a == FileError && b == FileCompleted ==> StatusOf([a, b]) == TaskPartiallyCompleted
  {
    assert [a, b][0] == a && [a, b][1] == b;
  }

  /** The events of a start, a failure or a completion that leaves the task's status as it was. */
  function ChangeEvents(i: int, f: File, now: Time): seq<Event> {
    [StatusEvent("t", i, f, now), MetaEvent("t", i, f, now)]
  }

  lemma MarkOfPair(m: Tasks, c: Call, a: FileStatus, b: FileStatus, u: Time) returns (f: File)
    requires IsPair(m, a, b, TaskInProgress, u) && !c.Create? && !c.MarkQueued? && c.id == "t" && 0 <= c.index < 2
    requires (c.MarkCompleted? ==> c.size >= 0) && [a, b][c.index] != FileCompleted
    requires var r := [a, b][c.index := StatusAfter(c)]; IsBusy(r[0]) || IsBusy(r[1])
    ensures f.status == StatusAfter(c) && Exec(m, c).events == ChangeEvents(c.index, f, c.now)
    ensures var r := [a, b][c.index := StatusAfter(c)]; IsPair(Exec(m, c).tasks, r[0], r[1], TaskInProgress, c.now)
  {
    f := MarkedFile(m["t"].files[c.index], c);
    var files := m["t"].files[c.index := f];
    assert Statuses(files) == Statuses(m["t"].files)[c.index := f.status];
    PairStatus(Statuses(files)[0], Statuses(files)[1]);
  }

  /** Replaying such events over any state of the task, first for file 0 and then for file 1. */
  lemma ReplayFirst(m: Tasks, f: File, now: Time, a: FileStatus, b: FileStatus, st: TaskStatus, u: Time, st': TaskStatus)
    requires IsPair(m, a, b, st, u) && StatusOf([f.status, b]) == st'
    ensures IsPair(Apply(m, ChangeEvents(0, f, now)), f.status, b, st', if u < now || st' != st then now else u)
  {
    var (e, g) := (StatusEvent("t", 0, f, now), MetaEvent("t", 0, f, now));
    ApplyTwo(m, e, g);
    var t := ApplyToTask(m["t"], e);
    assert Statuses(t.files) == [f.status, b];
    assert Statuses(ApplyToTask(t, g).files) == Statuses(t.files);
  }

  lemma ReplaySecond(m: Tasks, f: File, now: Time, a: FileStatus, b: FileStatus, st: TaskStatus, u: Time, st': TaskStatus)
    requires IsPair(m, a, b, st, u) && StatusOf([a, f.status]) == st'
    ensures IsPair(Apply(m, ChangeEvents(1, f, now)), a, f.status, st', if u < now || st' != st then now else u)
  {
    var (e, g) := (StatusEvent("t", 1, f, now), MetaEvent("t", 1, f, now));
    ApplyTwo(m, e, g);
    var t := ApplyToTask(m["t"], e);
    assert Statuses(t.files) == [a, f.status];
    assert Statuses(ApplyToTask(t, g).files) == Statuses(t.files);
  }

  /** The calls after the clock stepped back: the first file fails and is started again, the second
      completes. */
  function Steps(t1: Time, t2: Time, t3: Time): seq<Call> {
    [MarkFailed("t", 0, "", t1), MarkStarted("t", 0, t2), MarkCompleted("t", 1, "", 0, t3)]
  }

  /** Their events, given the files they leave. */
  function StepEvents(f: File, g: File, h: File, t1: Time, t2: Time, t3: Time): seq<Event> {
    ChangeEvents(0, f, t1) + ChangeEvents(0, g, t2) + ChangeEvents(1, h, t3)
  }

  predicate StepFiles(f: File, g: File, h: File) {
    f.status == FileError && g.status == FileDownloading && h.status == FileCompleted
  }

  lemma RunOfOne(m: Tasks, a: Call)
    ensures Run(m, [a]) == Ran(Exec(m, a).tasks, Exec(m, a).events)
  {
    RunNext(m, [], a);
    assert [] + [a] == [a];
  }

  lemma RunOfTwo(m: Tasks, a: Call, b: Call)
    ensures Run(m, [a, b]) == Ran(Exec(Exec(m, a).tasks, b).tasks, Exec(m, a).events + Exec(Exec(m, a).tasks, b).events)
  {
    RunOfOne(m, a);
    RunNext(m, [a], b);
    assert [a] + [b] == [a, b];
  }

  lemma LogOfSteps(m: Tasks, u: Time, t1: Time, t2: Time, t3: Time) returns (f: File, g: File, h: File)
    requires IsPair(m, FileDownloading, FileDownloading, TaskInProgress, u)
    ensures StepFiles(f, g, h) && Run(m, Steps(t1, t2, t3)).log == StepEvents(f, g, h, t1, t2, t3)
  {
    var cs := Steps(t1, t2, t3);
    f := MarkOfPair(m, cs[0], FileDownloading, FileDownloading, u);
    var r := Exec(m, cs[0]).tasks;
    g := MarkOfPair(r, cs[1], FileError, FileDownloading, t1);
    h := MarkOfPair(Exec(r, cs[1]).tasks, cs[2], FileDownloading, FileDownloading, t2);
    RunOfTwo(m, cs[0], cs[1]);
    RunNext(m, [cs[0], cs[1]], cs[2]);
    assert [cs[0], cs[1]] + [cs[2]] == cs;
  }

  lemma ApplySteps(m: Tasks, f: File, g: File, h: File, t1: Time, t2: Time, t3: Time)
    ensures
      Apply(m, StepEvents(f, g, h, t1, t2, t3))
      == Apply(Apply(Apply(m, ChangeEvents(0, f, t1)), ChangeEvents(0, g, t2)), ChangeEvents(1, h, t3))
  {
    ApplyConcat(m, ChangeEvents(0, f, t1) + ChangeEvents(0, g, t2), ChangeEvents(1, h, t3));
    ApplyConcat(m, ChangeEvents(0, f, t1), ChangeEvents(0, g, t2));
  }

  /** The second file is still downloading: the task's status never changes. */
  lemma FirstPass(m: Tasks, u: Time, f: File, g: File, h: File, t1: Time, t2: Time, t3: Time)
    requires IsPair(m, FileDownloading, FileDownloading, TaskInProgress, u) && t1 <= t2 <= t3 < u && StepFiles(f, g, h)
    ensures IsPair(Apply(m, StepEvents(f, g, h, t1, t2, t3)), FileDownloading, FileCompleted, TaskInProgress, u)
  {
    ApplySteps(m, f, g, h, t1, t2, t3);
    PairStatus(FileError, FileDownloading);
    PairStatus(FileDownloading, FileDownloading);
    PairStatus(FileDownloading, FileCompleted);
    ReplayFirst(m, f, t1, FileDownloading, FileDownloading, TaskInProgress, u, TaskInProgress);
    var r := Apply(m, ChangeEvents(0, f, t1));
    ReplayFirst(r, g, t2, FileError, FileDownloading, TaskInProgress, u, TaskInProgress);
    ReplaySecond(Apply(r, ChangeEvents(0, g, t2)), h, t3, FileDownloading, FileDownloading, TaskInProgress, u, TaskInProgress);
  }

  /** The second file is completed: once the first has failed, the task is finished for a moment. */
  lemma SecondPass(m: Tasks, u: Time, f: File, g: File, h: File, t1: Time, t2: Time, t3: Time)
    requires IsPair(m, FileDownloading, FileCompleted, TaskInProgress, u) && t1 <= t2 <= t3 < u && StepFiles(f, g, h)
    ensures IsPair(Apply(m, StepEvents(f, g, h, t1, t2, t3)), FileDownloading, FileCompleted, TaskInProgress, t3)
  {
    ApplySteps(m, f, g, h, t1, t2, t3);
    PairStatus(FileError, FileCompleted);
    PairStatus(FileDownloading, FileCompleted);
    ReplayFirst(m, f, t1, FileDownloading, FileCompleted, TaskInProgress, u, TaskPartiallyCompleted);
    var r := Apply(m, ChangeEvents(0, f, t1));
    ReplayFirst(r, g, t2, FileError, FileCompleted, TaskPartiallyCompleted, t1, TaskInProgress);
    ReplaySecond(Apply(r, ChangeEvents(0, g, t2)), h, t3, FileDownloading, FileCompleted, TaskInProgress, t2, TaskInProgress);
  }

  /** The second half of ReplaySafe cannot be dropped. Two files are downloading when a snapshot is
      taken, and the clock then steps back: the first file fails and is started again, the second
      completes. The log the service writes is in order, and its first replay keeps the time of the
      snapshot; the second replay goes through a state in which both files are finished, so that the
      task's status changes twice and takes the older times with it. */
  lemma SecondReplayTurnsTimeBack(m: Tasks, u: Time, t1: Time, t2: Time, t3: Time)
    requires IsPair(m, FileDownloading, FileDownloading, TaskInProgress, u) && t1 <= t2 <= t3 < u
    ensures
      var log := Run(m, Steps(t1, t2, t3)).log;
      && Monotone(log)
      && IsPair(Apply(m, log), FileDownloading, FileCompleted, TaskInProgress, u)
      && IsPair(Apply(Apply(m, log), log), FileDownloading, FileCompleted, TaskInProgress, t3)
  {
    var f, g, h := LogOfSteps(m, u, t1, t2, t3);
    var log := StepEvents(f, g, h, t1, t2, t3);
    FirstPass(m, u, f, g, h, t1, t2, t3);
    SecondPass(Apply(m, log), u, f, g, h, t1, t2, t3);
    StepsInOrder(f, g, h, t1, t2, t3);
  }

  lemma StepsInOrder(f: File, g: File, h: File, t1: Time, t2: Time, t3: Time)
    requires t1 <= t2 <= t3
    ensures Monotone(StepEvents(f, g, h, t1, t2, t3))
  {
    forall id ensures InOrder(id, StepEvents(f, g, h, t1, t2, t3)) {
    }
  }
}
