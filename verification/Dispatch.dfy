/** Dispatchers that submit a task's files, a bounded queue, and workers that download them, all at
    once. The task service is atomic here: see Interleavings.

    A dispatcher submits a file before it marks it queued, so a worker may start or even finish the
    file in between. */
module Dispatching {
  import opened Core
  import opened Replay
  import opened Calls
  import opened FileStates
  import opened Runs

  /** A run of Enqueue over the files it has read; pending says that the file at pos is submitted but
      not yet marked, mine lists what it has submitted. */
  datatype Dispatcher = Dispatcher(id: string, files: seq<File>, pos: nat, pending: bool, mine: seq<FileId>)

  datatype Worker = Idle | Taken(job: FileId) | Running(job: FileId) | GivingUp(job: FileId)

  /** Enqueue comes to its end, a submission is refused, or a queue mark fails. */
  datatype Reason = Finished | Refused | NotMarked

  datatype Ending = Ending(at: Dispatcher, why: Reason)

  /** Besides the program's state: lost holds the unfinished files whose job was dropped or whose last
      mark failed, sent lists all submissions and ended all runs of Enqueue that are over, crowded says
      whether two dispatchers were ever at work at once, unmarked whether a queue mark ever failed. */
  datatype State = State(
    tasks: Tasks,
    queue: seq<FileId>,
    capacity: nat,
    dispatchers: map<nat, Dispatcher>,
    workers: map<nat, Worker>,
    lost: set<FileId>,
    sent: seq<FileId>,
    ended: seq<Ending>,
    crowded: bool,
    unmarked: bool)

  /** Enqueue passes over finished and busy files and submits every other. */
  predicate ToSubmit(st: FileStatus) {
    !IsFinished(st) && !IsBusy(st)
  }

  // ---------------------------------------------------------------- steps

  /** d names a dispatcher, w a worker. A worker gives up when no attempt succeeded, its context ended, or
      its completed mark failed. */
  datatype Step =
    | CreateTask(call: Call)
    | StartEnqueue(d: nat, id: string)
    | PassOver(d: nat)
    | Submit(d: nat)
    | MarkQueuedFile(d: nat, now: Time)
    | FinishEnqueue(d: nat)
    | RefuseFile(d: nat)
    | MarkQueuedFails(d: nat)
    | Take(w: nat)
    | StartFile(w: nat, now: Time)
    | CompleteFile(w: nat, filename: string, size: int, now: Time)
    | GiveUp(w: nat)
    | FailFile(w: nat, msg: string, now: Time)
    | StartFails(w: nat)
    | FailFails(w: nat)

  /** A worker's own mark fails: the job is dropped, or its file is not finished. */
  predicate FailsWorker(step: Step) {
    step.StartFails? || step.FailFails?
  }

  predicate AtFile(s: State, d: nat) {
    d in s.dispatchers && !s.dispatchers[d].pending && s.dispatchers[d].pos < |s.dispatchers[d].files|
  }

  predicate AtWanted(s: State, d: nat) {
    AtFile(s, d) && ToSubmit(s.dispatchers[d].files[s.dispatchers[d].pos].status)
  }

  predicate Enabled(s: State, step: Step) {
    match step
    case CreateTask(c) => c.Create?
    case StartEnqueue(d, id) => d !in s.dispatchers && id in s.tasks
    case PassOver(d) => AtFile(s, d) && !AtWanted(s, d)
    case Submit(d) => AtWanted(s, d) && |s.queue| < s.capacity
    case MarkQueuedFile(d, _) => d in s.dispatchers && s.dispatchers[d].pending
    case FinishEnqueue(d) => d in s.dispatchers && !s.dispatchers[d].pending && s.dispatchers[d].pos == |s.dispatchers[d].files|
    case RefuseFile(d) => AtWanted(s, d)
    case MarkQueuedFails(d) => d in s.dispatchers && s.dispatchers[d].pending
    case Take(w) => w in s.workers && s.workers[w].Idle? && s.queue != []
    case StartFile(w, _) => w in s.workers && s.workers[w].Taken?
    case CompleteFile(w, _, size, _) => w in s.workers && s.workers[w].Running? && size >= 0
    case GiveUp(w) => w in s.workers && s.workers[w].Running?
    case FailFile(w, _, _) => w in s.workers && s.workers[w].GivingUp?
    case StartFails(w) => w in s.workers && s.workers[w].Taken?
    case FailFails(w) => w in s.workers && s.workers[w].GivingUp?
  }

  function FileOf(p: Dispatcher): FileId {
    FileId(p.id, p.pos)
  }

  /** The call a step makes to the task service. */
  function CallOf(s: State, step: Step): Option<Call>
    requires Enabled(s, step)
  {
    match step
    case CreateTask(c) => Some(c)
    case MarkQueuedFile(d, now) => Some(MarkQueued(s.dispatchers[d].id, s.dispatchers[d].pos, now))
    case StartFile(w, now) => Some(MarkStarted(s.workers[w].job.id, s.workers[w].job.index, now))
    case CompleteFile(w, name, size, now) => Some(MarkCompleted(s.workers[w].job.id, s.workers[w].job.index, name, size, now))
    case FailFile(w, msg, now) => Some(MarkFailed(s.workers[w].job.id, s.workers[w].job.index, msg, now))
    case _ => None
  }

  function TasksAfter(s: State, step: Step): Tasks
    requires Enabled(s, step)
  {
    match CallOf(s, step)
    case Some(c) => Exec(s.tasks, c).tasks
    case None => s.tasks
  }

  /** The call is turned down; tasks stay as they are. */
  predicate TurnedDown(s: State, step: Step)
    requires Enabled(s, step)
  {
    CallOf(s, step).Some? && Exec(s.tasks, CallOf(s, step).value).result.Failure?
  }

  function WorkersAfter(s: State, step: Step): map<nat, Worker>
    requires Enabled(s, step)
  {
    match step
    case Take(w) => s.workers[w := Taken(s.queue[0])]
    case StartFile(w, _) => s.workers[w := if TurnedDown(s, step) then Idle else Running(s.workers[w].job)]
    case CompleteFile(w, _, _, _) => s.workers[w := if TurnedDown(s, step) then GivingUp(s.workers[w].job) else Idle]
    case GiveUp(w) => s.workers[w := GivingUp(s.workers[w].job)]
    case FailFile(w, _, _) => s.workers[w := Idle]
    case StartFails(w) => s.workers[w := Idle]
    case FailFails(w) => s.workers[w := Idle]
    case _ => s.workers
  }

  predicate FinishedAt(m: Tasks, f: FileId) {
    StatusAt(m, f).Some? && IsFinished(StatusAt(m, f).value)
  }

  function LostAfter(s: State, step: Step): set<FileId>
    requires Enabled(s, step)
  {
    match step
    case StartFile(w, _) => if TurnedDown(s, step) then s.lost else s.lost - {s.workers[w].job}
    case CompleteFile(w, _, _, _) => if TurnedDown(s, step) then s.lost else s.lost - {s.workers[w].job}
    case FailFile(w, _, _) => s.lost - {s.workers[w].job}
    case StartFails(w) => if FinishedAt(s.tasks, s.workers[w].job) then s.lost else s.lost + {s.workers[w].job}
    case FailFails(w) => if FinishedAt(s.tasks, s.workers[w].job) then s.lost else s.lost + {s.workers[w].job}
    case _ => s.lost
  }

  function DispatchersAfter(s: State, step: Step): map<nat, Dispatcher>
    requires Enabled(s, step)
  {
    match step
    case StartEnqueue(d, id) => s.dispatchers[d := Dispatcher(id, s.tasks[id].files, 0, false, [])]
    case PassOver(d) => s.dispatchers[d := s.dispatchers[d].(pos := s.dispatchers[d].pos + 1)]
    case Submit(d) => s.dispatchers[d := s.dispatchers[d].(pending := true, mine := s.dispatchers[d].mine + [FileOf(s.dispatchers[d])])]
    case MarkQueuedFile(d, _) => s.dispatchers[d := s.dispatchers[d].(pos := s.dispatchers[d].pos + 1, pending := false)]
    case FinishEnqueue(d) => s.dispatchers - {d}
    case RefuseFile(d) => s.dispatchers - {d}
    case MarkQueuedFails(d) => s.dispatchers - {d}
    case _ => s.dispatchers
  }

  function EndedAfter(s: State, step: Step): seq<Ending>
    requires Enabled(s, step)
  {
    match step
    case FinishEnqueue(d) => s.ended + [Ending(s.dispatchers[d], Finished)]
    case RefuseFile(d) => s.ended + [Ending(s.dispatchers[d], Refused)]
    case MarkQueuedFails(d) => s.ended + [Ending(s.dispatchers[d], NotMarked)]
    case _ => s.ended
  }

  function After(s: State, step: Step): State
    requires Enabled(s, step)
  {
    State(
      TasksAfter(s, step),
      if step.Submit? then s.queue + [FileOf(s.dispatchers[step.d])] else if step.Take? then s.queue[1..] else s.queue,
      s.capacity,
      DispatchersAfter(s, step),
      WorkersAfter(s, step),
      LostAfter(s, step),
      if step.Submit? then s.sent + [FileOf(s.dispatchers[step.d])] else s.sent,
      EndedAfter(s, step),
      s.crowded || (step.StartEnqueue? && s.dispatchers != map[]),
      s.unmarked || step.MarkQueuedFails?)
  }

  /** A process starts with what the store holds; files that were busy when the last one ended are
      lost to begin with. */
  ghost predicate Init(s: State) {
    && s.queue == [] && s.dispatchers == map[] && s.sent == [] && s.ended == [] && !s.crowded && !s.unmarked
    && (forall w :: w in s.workers ==> s.workers[w] == Idle)
    && forall f :: f in s.lost <==> BusyAt(s.tasks, f)
  }

  predicate BusyAt(m: Tasks, f: FileId) {
    StatusAt(m, f).Some? && IsBusy(StatusAt(m, f).value)
  }

  // ---------------------------------------------------------------- whole runs

  ghost predicate StepAt(states: seq<State>, steps: seq<Step>, k: nat)
    requires k < |steps| && |states| == |steps| + 1
  {
    Enabled(states[k], steps[k]) && states[k + 1] == After(states[k], steps[k])
  }

  /** The steps lead from one state to the next. */
  ghost predicate Leads(states: seq<State>, steps: seq<Step>) {
    |states| == |steps| + 1 && forall k: nat :: k < |steps| ==> StepAt(states, steps, k)
  }

  lemma LastStep(states: seq<State>, steps: seq<Step>)
    requires Leads(states, steps) && steps != []
    ensures
      var n := |steps| - 1;
      Leads(states[..n + 1], steps[..n]) && Enabled(states[n], steps[n]) && states[n + 1] == After(states[n], steps[n])
  {
    var n := |steps| - 1;
    var (before, earlier) := (states[..n + 1], steps[..n]);
    assert StepAt(states, steps, n);
    forall k: nat | k < n ensures StepAt(before, earlier, k) {
      assert StepAt(states, steps, k);
    }
  }

  ghost predicate IsRun(states: seq<State>, steps: seq<Step>) {
    Leads(states, steps) && Init(states[0])
  }

  function Last(states: seq<State>): State
    requires states != []
  {
    states[|states| - 1]
  }

  // ---------------------------------------------------------------- no file goes back

  /** No step takes a task back. */
  lemma StepMovesForward(s: State, step: Step)
    requires Enabled(s, step)
    ensures Later(s.tasks, After(s, step).tasks)
  {
    match CallOf(s, step)
    case Some(c) => CallMovesForward(s.tasks, c);
    case None => LaterIsReflexive(s.tasks);
  }

  /** Over any run, with any number of dispatchers, workers and duplicate jobs: a completed file
      never changes again, a started file never goes back to queued or waiting, no file becomes
      waiting again. */
  lemma {:induction false} FilesOnlyMoveForward(states: seq<State>, steps: seq<Step>, i: nat)
    requires Leads(states, steps) && i < |states|
    ensures Later(states[i].tasks, Last(states).tasks)
    decreases |steps|
  {
    var n := |steps|;
    if i == n {
      LaterIsReflexive(states[n].tasks);
    } else {
      LastStep(states, steps);
      FilesOnlyMoveForward(states[..n], steps[..n - 1], i);
      StepMovesForward(states[n - 1], steps[n - 1]);
      LaterIsTransitive(states[i].tasks, states[n - 1].tasks, states[n].tasks);
    }
  }

  // ---------------------------------------------------------------- no file is orphaned

  ghost predicate TakenBy(s: State, f: FileId) {
    exists w :: w in s.workers && s.workers[w] == Taken(f)
  }

  ghost predicate RunBy(s: State, f: FileId) {
    exists w :: w in s.workers && (s.workers[w] == Running(f) || s.workers[w] == GivingUp(f))
  }

  ghost predicate InFlight(s: State, f: FileId) {
    f in s.queue || TakenBy(s, f)
  }

  /** A queued file has a job in the queue or with a worker that has not started it; a downloading
      file has a worker between its start mark and its last mark. */
  ghost predicate Attended(s: State, f: FileId) {
    match StatusAt(s.tasks, f)
    case Some(FileQueued) => f in s.lost || InFlight(s, f)
    case Some(FileDownloading) => f in s.lost || RunBy(s, f)
    case _ => true
  }

  /** A file that is submitted but not yet marked has a job in flight, if it has not been started. */
  ghost predicate Covered(s: State, p: Dispatcher) {
    && p.id in s.tasks && |p.files| == |s.tasks[p.id].files|
    && (p.pending ==>
          && p.pos < |p.files|
          && (HasStarted(s.tasks[p.id].files[p.pos].status) || FileOf(p) in s.lost || InFlight(s, FileOf(p))))
  }

  ghost predicate NoOrphans(s: State) {
    && |s.queue| <= s.capacity
    && (forall f :: Attended(s, f))
    && (forall d :: d in s.dispatchers ==> Covered(s, s.dispatchers[d]))
  }

  lemma InitAttends(s: State)
    requires Init(s)
    ensures NoOrphans(s)
  {
  }

  /** A step of worker w leaves the jobs of the others with them. */
  lemma OthersKeepJobs(s: State, s': State, w: nat, f: FileId)
    requires w in s.workers && w in s'.workers && s'.workers == s.workers[w := s'.workers[w]]
    ensures TakenBy(s, f) ==> TakenBy(s', f) || s.workers[w] == Taken(f)
    ensures RunBy(s, f) ==> RunBy(s', f) || s.workers[w] == Running(f) || s.workers[w] == GivingUp(f)
  {
    if TakenBy(s, f) && s.workers[w] != Taken(f) {
      var v :| v in s.workers && s.workers[v] == Taken(f);
      assert s'.workers[v] == Taken(f);
    }
    if RunBy(s, f) && s.workers[w] != Running(f) && s.workers[w] != GivingUp(f) {
      var v :| v in s.workers && (s.workers[v] == Running(f) || s.workers[v] == GivingUp(f));
      assert s'.workers[v] == s.workers[v];
    }
  }

  /** Tasks that only move forward keep a dispatcher covered, if a file that was only attended by its job
      still is, or has been started. */
  lemma StillCovered(s: State, s': State, p: Dispatcher)
    requires Covered(s, p) && Later(s.tasks, s'.tasks)
    requires p.pending && (FileOf(p) in s.lost || InFlight(s, FileOf(p))) ==>
               || FileOf(p) in s'.lost || InFlight(s', FileOf(p))
               || (StatusAt(s'.tasks, FileOf(p)).Some? && HasStarted(StatusAt(s'.tasks, FileOf(p)).value))
    ensures Covered(s', p)
  {
    assert TaskLater(s.tasks[p.id], s'.tasks[p.id]);
    if p.pending {
      assert FileLater(s.tasks[p.id].files[p.pos], s'.tasks[p.id].files[p.pos]);
    }
  }

  lemma CreateAttends(s: State, c: Call)
    requires NoOrphans(s) && Enabled(s, CreateTask(c))
    ensures NoOrphans(After(s, CreateTask(c)))
  {
    var s' := After(s, CreateTask(c));
    CallMovesForward(s.tasks, c);
    forall f ensures Attended(s', f) {
      CreateAddsWaiting(s.tasks, c, f);
      assert Attended(s, f);
    }
    forall d | d in s'.dispatchers ensures Covered(s', s'.dispatchers[d]) {
      StillCovered(s, s', s.dispatchers[d]);
    }
  }

  /** A dispatcher that has only read, or has dropped out, changes nothing for the others. */
  lemma ReaderAttends(s: State, s': State, d: nat)
    requires NoOrphans(s)
    requires s'.tasks == s.tasks && s'.queue == s.queue && s'.workers == s.workers && s'.lost == s.lost && s'.capacity == s.capacity
    requires forall e :: e in s'.dispatchers && e != d ==> e in s.dispatchers && s'.dispatchers[e] == s.dispatchers[e]
    requires d in s'.dispatchers ==>
               var p := s'.dispatchers[d];
               p.id in s.tasks && |p.files| == |s.tasks[p.id].files| && !p.pending
    ensures NoOrphans(s')
  {
    forall f ensures Attended(s', f) {
      assert Attended(s, f);
    }
    forall e | e in s'.dispatchers ensures Covered(s', s'.dispatchers[e]) {
      if e != d {
        assert Covered(s, s.dispatchers[e]);
      }
    }
  }

  lemma SubmitAttends(s: State, d: nat)
    requires NoOrphans(s) && Enabled(s, Submit(d))
    ensures NoOrphans(After(s, Submit(d)))
  {
    var s' := After(s, Submit(d));
    forall f ensures Attended(s', f) {
      assert Attended(s, f);
    }
    forall e | e in s'.dispatchers ensures Covered(s', s'.dispatchers[e]) {
      assert Covered(s, s.dispatchers[e]);
    }
  }

  /** The heart of the matter: if the file has not been started when the mark arrives, its job is
      still in flight, so it is right to call it queued; otherwise the mark does nothing. */
  lemma MarkQueuedAttends(s: State, d: nat, now: Time)
    requires NoOrphans(s) && Enabled(s, MarkQueuedFile(d, now))
    ensures NoOrphans(After(s, MarkQueuedFile(d, now)))
  {
    var s' := After(s, MarkQueuedFile(d, now));
    var p := s.dispatchers[d];
    var c := MarkQueued(p.id, p.pos, now);
    CallMovesForward(s.tasks, c);
    assert Covered(s, p);
    forall f ensures Attended(s', f) {
      MarkChangesOneStatus(s.tasks, c, f);
      assert Attended(s, f);
    }
    forall e | e in s'.dispatchers ensures Covered(s', s'.dispatchers[e]) {
      StillCovered(s, s', s.dispatchers[e]);
    }
  }

  lemma TakeAttends(s: State, w: nat)
    requires NoOrphans(s) && Enabled(s, Take(w))
    ensures NoOrphans(After(s, Take(w)))
  {
    var s' := After(s, Take(w));
    forall f ensures InFlight(s, f) ==> InFlight(s', f) {
      OthersKeepJobs(s, s', w, f);
      if f == s.queue[0] {
        assert s'.workers[w] == Taken(f);
      }
    }
    forall f ensures Attended(s', f) {
      OthersKeepJobs(s, s', w, f);
      assert Attended(s, f);
    }
    forall e | e in s'.dispatchers ensures Covered(s', s'.dispatchers[e]) {
      assert Covered(s, s.dispatchers[e]);
    }
  }

  lemma FileAttendsStart(s: State, w: nat, now: Time, f: FileId)
    requires Attended(s, f) && Enabled(s, StartFile(w, now))
    ensures Attended(After(s, StartFile(w, now)), f)
  {
    var s' := After(s, StartFile(w, now));
    var job := s.workers[w].job;
    OthersKeepJobs(s, s', w, f);
    MarkChangesOneStatus(s.tasks, MarkStarted(job.id, job.index, now), f);
    if f == job && !TurnedDown(s, StartFile(w, now)) {
      assert s'.workers[w] == Running(job);
    }
  }

  lemma StartAttends(s: State, w: nat, now: Time)
    requires NoOrphans(s) && Enabled(s, StartFile(w, now))
    ensures NoOrphans(After(s, StartFile(w, now)))
  {
    var s' := After(s, StartFile(w, now));
    forall f ensures Attended(s', f) {
      assert Attended(s, f);
      FileAttendsStart(s, w, now, f);
    }
    forall e | e in s'.dispatchers ensures Covered(s', s'.dispatchers[e]) {
      StartCovers(s, w, now, s.dispatchers[e]);
    }
  }

  lemma StartCovers(s: State, w: nat, now: Time, p: Dispatcher)
    requires Covered(s, p) && Enabled(s, StartFile(w, now))
    ensures Covered(After(s, StartFile(w, now)), p)
  {
    var s' := After(s, StartFile(w, now));
    var job := s.workers[w].job;
    var c := MarkStarted(job.id, job.index, now);
    CallMovesForward(s.tasks, c);
    OthersKeepJobs(s, s', w, FileOf(p));
    if FileOf(p) == job && p.pending {
      MarkTurnedDown(s.tasks, c);
      MarkChangesOneStatus(s.tasks, c, job);
    }
    StillCovered(s, s', p);
  }

  /** A dropped job makes its file lost, unless it is finished. */
  lemma DropAttends(s: State, step: Step)
    requires NoOrphans(s) && Enabled(s, step) && (step.StartFails? || step.FailFails?)
    ensures NoOrphans(After(s, step))
  {
    var s' := After(s, step);
    var w := step.w;
    forall f ensures Attended(s', f) {
      OthersKeepJobs(s, s', w, f);
      assert Attended(s, f);
    }
    forall e | e in s'.dispatchers ensures Covered(s', s'.dispatchers[e]) {
      OthersKeepJobs(s, s', w, FileOf(s.dispatchers[e]));
      assert Covered(s, s.dispatchers[e]);
    }
  }

  lemma GiveUpAttends(s: State, w: nat)
    requires NoOrphans(s) && Enabled(s, GiveUp(w))
    ensures NoOrphans(After(s, GiveUp(w)))
  {
    var s' := After(s, GiveUp(w));
    forall f ensures Attended(s', f) {
      OthersKeepJobs(s, s', w, f);
      assert Attended(s, f);
      if s.workers[w] == Running(f) {
        assert s'.workers[w] == GivingUp(f);
      }
    }
    forall e | e in s'.dispatchers ensures Covered(s', s'.dispatchers[e]) {
      OthersKeepJobs(s, s', w, FileOf(s.dispatchers[e]));
      assert Covered(s, s.dispatchers[e]);
    }
  }

  predicate IsLastMark(step: Step) {
    step.CompleteFile? || step.FailFile?
  }

  /** A last mark that goes through finishes the file; one is turned down only when the file is
      completed or not there. */
  lemma LastMarkFinishes(s: State, step: Step)
    requires Enabled(s, step) && IsLastMark(step)
    ensures
      var job := s.workers[step.w].job;
      var (a, b) := (StatusAt(s.tasks, job), StatusAt(After(s, step).tasks, job));
      a == b == None || (b.Some? && IsFinished(b.value) && (TurnedDown(s, step) ==> b == a == Some(FileCompleted)))
    ensures forall f :: f != s.workers[step.w].job ==> StatusAt(After(s, step).tasks, f) == StatusAt(s.tasks, f)
  {
    var c := CallOf(s, step).value;
    forall f ensures f != s.workers[step.w].job ==> StatusAt(After(s, step).tasks, f) == StatusAt(s.tasks, f) {
      MarkChangesOneStatus(s.tasks, c, f);
    }
    var job := s.workers[step.w].job;
    MarkChangesOneStatus(s.tasks, c, job);
    if StatusAt(s.tasks, job).Some? {
      MarkTurnedDown(s.tasks, c);
    }
  }

  lemma FileAttendsEnd(s: State, step: Step, f: FileId)
    requires Attended(s, f) && Enabled(s, step) && IsLastMark(step)
    ensures Attended(After(s, step), f)
  {
    OthersKeepJobs(s, After(s, step), step.w, f);
    LastMarkFinishes(s, step);
  }

  lemma EndAttends(s: State, step: Step)
    requires NoOrphans(s) && Enabled(s, step) && IsLastMark(step)
    ensures NoOrphans(After(s, step))
  {
    var s' := After(s, step);
    forall f ensures Attended(s', f) {
      assert Attended(s, f);
      FileAttendsEnd(s, step, f);
    }
    forall e | e in s'.dispatchers ensures Covered(s', s'.dispatchers[e]) {
      EndCovers(s, step, s.dispatchers[e]);
    }
  }

  lemma EndCovers(s: State, step: Step, p: Dispatcher)
    requires Covered(s, p) && Enabled(s, step) && IsLastMark(step)
    ensures Covered(After(s, step), p)
  {
    CallMovesForward(s.tasks, CallOf(s, step).value);
    OthersKeepJobs(s, After(s, step), step.w, FileOf(p));
    LastMarkFinishes(s, step);
    StillCovered(s, After(s, step), p);
  }

  lemma StepAttends(s: State, step: Step)
    requires NoOrphans(s) && Enabled(s, step)
    ensures NoOrphans(After(s, step))
  {
    match step
    case CreateTask(c) => CreateAttends(s, c);
    case Submit(d) => SubmitAttends(s, d);
    case MarkQueuedFile(d, now) => MarkQueuedAttends(s, d, now);
    case Take(w) => TakeAttends(s, w);
    case StartFile(w, now) => StartAttends(s, w, now);
    case CompleteFile(_, _, _, _) => EndAttends(s, step);
    case GiveUp(w) => GiveUpAttends(s, w);
    case FailFile(_, _, _) => EndAttends(s, step);
    case StartFails(_) => DropAttends(s, step);
    case FailFails(_) => DropAttends(s, step);
    case PassOver(d) => assert Covered(s, s.dispatchers[d]); ReaderAttends(s, After(s, step), d);
    case _ => ReaderAttends(s, After(s, step), step.d);
  }

  lemma {:induction false} EveryFileIsAttended(states: seq<State>, steps: seq<Step>)
    requires IsRun(states, steps)
    ensures NoOrphans(Last(states))
    decreases |steps|
  {
    var n := |steps|;
    if n == 0 {
      InitAttends(states[0]);
    } else {
      LastStep(states, steps);
      EveryFileIsAttended(states[..n], steps[..n - 1]);
      StepAttends(states[n - 1], steps[n - 1]);
    }
  }

  ghost predicate AtRest(s: State) {
    s.queue == [] && forall w :: w in s.workers ==> s.workers[w] == Idle
  }

  predicate WorkersMark(steps: seq<Step>) {
    forall k :: 0 <= k < |steps| ==> !FailsWorker(steps[k])
  }

  /** With nothing lost when the process starts and no mark of a worker failing, whenever queue and
      workers have come to rest no file is left queued or downloading, even if queue marks failed. */
  lemma AtRestNoFileIsBusy(states: seq<State>, steps: seq<Step>, f: FileId)
    requires IsRun(states, steps) && states[0].lost == {} && WorkersMark(steps) && AtRest(Last(states))
    ensures !BusyAt(Last(states).tasks, f)
  {
    EveryFileIsAttended(states, steps);
    NothingLost(states, steps);
    assert Attended(Last(states), f);
  }

  lemma {:induction false} NothingLost(states: seq<State>, steps: seq<Step>)
    requires Leads(states, steps) && states[0].lost == {} && WorkersMark(steps)
    ensures Last(states).lost == {}
    decreases |steps|
  {
    var n := |steps|;
    if n > 0 {
      LastStep(states, steps);
      NothingLost(states[..n], steps[..n - 1]);
      assert !FailsWorker(steps[n - 1]);
    }
  }

  // ---------------------------------------------------------------- jobs in order

  /** The jobs that workers got, in the order in which they got them. */
  function JobsTaken(states: seq<State>, steps: seq<Step>): seq<FileId>
    requires |states| == |steps| + 1
    requires forall k :: 0 <= k < |steps| && steps[k].Take? ==>
               steps[k].w in states[k + 1].workers && !states[k + 1].workers[steps[k].w].Idle?
    decreases |steps|
  {
    if steps == [] then []
    else
      var n := |steps| - 1;
      JobsTaken(states[..n + 1], steps[..n])
      + if steps[n].Take? then [states[n + 1].workers[steps[n].w].job] else []
  }

  lemma TakersHaveJobs(states: seq<State>, steps: seq<Step>)
    requires Leads(states, steps)
    ensures forall k :: 0 <= k < |steps| && steps[k].Take? ==>
              steps[k].w in states[k + 1].workers && !states[k + 1].workers[steps[k].w].Idle?
  {
    forall k: nat | k < |steps| && steps[k].Take?
      ensures steps[k].w in states[k + 1].workers && !states[k + 1].workers[steps[k].w].Idle?
    {
      assert StepAt(states, steps, k);
    }
  }

  /** Jobs are handed out in the order of their submission: what was submitted is what workers got and then
      what is queued. */
  lemma {:induction false} JobsAreTakenInOrder(states: seq<State>, steps: seq<Step>)
    requires IsRun(states, steps)
    ensures forall k :: 0 <= k < |steps| && steps[k].Take? ==>
              steps[k].w in states[k + 1].workers && !states[k + 1].workers[steps[k].w].Idle?
    ensures Last(states).sent == JobsTaken(states, steps) + Last(states).queue
    decreases |steps|
  {
    TakersHaveJobs(states, steps);
    var n := |steps|;
    if n > 0 {
      LastStep(states, steps);
      JobsAreTakenInOrder(states[..n], steps[..n - 1]);
    }
  }
}
