/** Files that no job looks after: which they are, that nothing ever picks them up again, and how one
    comes about. */
module Orphans {
  import opened Core
  import opened Replay
  import opened Calls
  import opened FileStates
  import opened Runs
  import opened Dispatching
  import opened Submissions

  /** A lost file is not finished, and unless a mark failed it is busy or about to be marked. */
  ghost predicate LostAreUnfinished(s: State) {
    forall f :: f in s.lost ==> LostAt(s, f)
  }

  ghost predicate LostAt(s: State, f: FileId) {
    && StatusAt(s.tasks, f).Some? && !FinishedAt(s.tasks, f)
    && (!s.unmarked && Sendable(s.tasks, f) ==> PendingOn(s, f))
  }

  /** Only a last mark that goes through finishes a file. */
  lemma StaysUnfinished(s: State, step: Step, f: FileId)
    requires Enabled(s, step) && StatusAt(s.tasks, f).Some? && !FinishedAt(s.tasks, f)
    requires IsLastMark(step) && s.workers[step.w].job == f ==> TurnedDown(s, step)
    ensures StatusAt(After(s, step).tasks, f).Some? && !FinishedAt(After(s, step).tasks, f)
  {
    if CallOf(s, step).Some? {
      var c := CallOf(s, step).value;
      if c.Create? {
        CreateAddsWaiting(s.tasks, c, f);
      } else {
        MarkChangesOneStatus(s.tasks, c, f);
      }
    }
  }

  lemma StillLost(s: State, step: Step, f: FileId)
    requires LostAt(s, f) && Enabled(s, step) && f in After(s, step).lost
    ensures LostAt(After(s, step), f)
  {
    if IsLastMark(step) && s.workers[step.w].job == f {
      LastMarkFinishes(s, step);
    }
    StaysUnfinished(s, step, f);
    StepMovesForward(s, step);
    NeverSendableAgain(s.tasks, After(s, step).tasks, f);
    if !After(s, step).unmarked && Sendable(After(s, step).tasks, f) {
      StillPending(s, step, f);
    }
  }

  lemma NewlyLost(s: State, step: Step, f: FileId)
    requires JobsAreSent(s) && SentAreMarked(s) && Enabled(s, step) && f in After(s, step).lost && f !in s.lost
    ensures LostAt(After(s, step), f)
  {
    assert s.workers[step.w].job == f;
    assert HasJob(s, f);
    if !s.unmarked && Sendable(s.tasks, f) {
      StillPending(s, step, f);
    }
  }

  lemma {:induction false} LostStayUnfinished(states: seq<State>, steps: seq<Step>)
    requires IsRun(states, steps)
    ensures LostAreUnfinished(Last(states))
    decreases |steps|
  {
    var n := |steps|;
    if n > 0 {
      LastStep(states, steps);
      LostStayUnfinished(states[..n], steps[..n - 1]);
      SubmissionsAreKept(states[..n], steps[..n - 1]);
      var s := states[n - 1];
      forall f | f in states[n].lost ensures LostAt(states[n], f) {
        if f in s.lost {
          StillLost(s, steps[n - 1], f);
        } else {
          NewlyLost(s, steps[n - 1], f);
        }
      }
    }
  }

  /** When queue, workers and dispatchers have come to rest, the files left queued or downloading are
      exactly those whose last job was dropped or whose last mark failed, or that were so when the process
      started. */
  lemma BusyAtRestIffLost(states: seq<State>, steps: seq<Step>, f: FileId)
    requires IsRun(states, steps) && AtRest(Last(states)) && Last(states).dispatchers == map[] && !Last(states).unmarked
    ensures BusyAt(Last(states).tasks, f) <==> f in Last(states).lost
  {
    EveryFileIsAttended(states, steps);
    assert Attended(Last(states), f);
    LostStayUnfinished(states, steps);
    if f in Last(states).lost {
      assert LostAt(Last(states), f);
      assert !PendingOn(Last(states), f);
    }
  }

  // ---------------------------------------------------------------- for good

  /** Dispatcher p may still submit the file. */
  predicate MaySubmit(p: Dispatcher, f: FileId) {
    p.id == f.id && Done(p) <= f.index < |p.files| && ToSubmit(p.files[f.index].status)
  }

  /** The file is busy, has no job, and no dispatcher at work is going to make one. */
  ghost predicate Abandoned(s: State, f: FileId) {
    && BusyAt(s.tasks, f) && f !in s.queue && !HeldBy(s, f)
    && forall d :: d in s.dispatchers ==> !MaySubmit(s.dispatchers[d], f)
  }

  lemma StepKeepsStatus(s: State, step: Step, f: FileId)
    requires Abandoned(s, f) && Enabled(s, step)
    ensures StatusAt(After(s, step).tasks, f) == StatusAt(s.tasks, f)
  {
    if CallOf(s, step).Some? {
      var c := CallOf(s, step).value;
      if c.Create? {
        CreateAddsWaiting(s.tasks, c, f);
      } else {
        MarkChangesOneStatus(s.tasks, c, f);
      }
    }
  }

  lemma StepMakesNoJobFor(s: State, step: Step, f: FileId)
    requires Abandoned(s, f) && Enabled(s, step)
    ensures f !in After(s, step).queue && !HeldBy(After(s, step), f)
  {
    var s' := After(s, step);
    if step.Submit? && FileOf(s.dispatchers[step.d]) == f {
      assert MaySubmit(s.dispatchers[step.d], f);
    }
  }

  lemma StepLeavesAbandoned(s: State, step: Step, f: FileId)
    requires Abandoned(s, f) && Enabled(s, step)
    ensures Abandoned(After(s, step), f) && StatusAt(After(s, step).tasks, f) == StatusAt(s.tasks, f)
  {
    var s' := After(s, step);
    StepKeepsStatus(s, step, f);
    StepMakesNoJobFor(s, step, f);
    forall d | d in s'.dispatchers ensures !MaySubmit(s'.dispatchers[d], f) {
      if d in s.dispatchers {
        assert !MaySubmit(s.dispatchers[d], f);
      }
    }
  }

  /** Whatever dispatchers, workers and clients go on to do, an abandoned file keeps its status. */
  lemma {:induction false} AbandonedForGood(states: seq<State>, steps: seq<Step>, f: FileId)
    requires Leads(states, steps) && Abandoned(states[0], f)
    ensures Abandoned(Last(states), f) && StatusAt(Last(states).tasks, f) == StatusAt(states[0].tasks, f)
    decreases |steps|
  {
    var n := |steps|;
    if n > 0 {
      LastStep(states, steps);
      AbandonedForGood(states[..n], steps[..n - 1], f);
      StepLeavesAbandoned(states[n - 1], steps[n - 1], f);
    }
  }

  /** So a file that is busy once everything has come to rest stays as it is in every continuation. */
  lemma BusyAtRestForGood(states: seq<State>, steps: seq<Step>, f: FileId)
    requires Leads(states, steps) && AtRest(states[0]) && states[0].dispatchers == map[] && BusyAt(states[0].tasks, f)
    ensures StatusAt(Last(states).tasks, f) == StatusAt(states[0].tasks, f)
  {
    AbandonedForGood(states, steps, f);
  }

  // ---------------------------------------------------------------- how a file is lost

  /** A working store is needed: if the start mark of a queued file's only job fails, the file is
      abandoned. */
  lemma DroppedJobOrphansItsFile(s: State, w: nat, f: FileId)
    requires Enabled(s, StartFails(w)) && s.workers[w].job == f && StatusAt(s.tasks, f) == Some(FileQueued)
    requires f !in s.queue && forall v :: v in s.workers && v != w && !s.workers[v].Idle? ==> s.workers[v].job != f
    requires forall d :: d in s.dispatchers ==> !MaySubmit(s.dispatchers[d], f)
    ensures Abandoned(After(s, StartFails(w)), f) && f in After(s, StartFails(w)).lost
  {
  }

  lemma Extend(states: seq<State>, steps: seq<Step>, step: Step) returns (ss: seq<State>, ts: seq<Step>)
    requires Leads(states, steps) && Enabled(Last(states), step)
    ensures Leads(ss, ts) && ss[0] == states[0] && Last(ss) == After(Last(states), step)
  {
    ss, ts := states + [After(Last(states), step)], steps + [step];
    forall k: nat | k < |ts| ensures StepAt(ss, ts, k) {
      if k < |steps| {
        assert StepAt(states, steps, k);
      }
    }
  }

  /** One file, one place in the queue, one worker. */
  function Small(): State {
    State(map["t" := Task("t", [NewFile("u")], TaskPending, ["u"], None, None)], [], 1, map[], map[0 := Idle], {}, [], [], false, false)
  }

  predicate JustSubmitted(s: State) {
    && 0 in s.dispatchers && s.dispatchers.Keys == {0} && s.queue == [FileId("t", 0)] && s.workers == map[0 := Idle]
    && s.tasks == Small().tasks && !s.unmarked
    && var p := s.dispatchers[0];
       p.id == "t" && |p.files| == 1 && p.pos == 0 && p.pending
  }

  lemma RunToSubmission() returns (states: seq<State>, steps: seq<Step>)
    ensures IsRun(states, steps) && states[0].lost == {} && JustSubmitted(Last(states))
  {
    states, steps := [Small()], [];
    states, steps := Extend(states, steps, StartEnqueue(0, "t"));
    states, steps := Extend(states, steps, Submit(0));
  }

  predicate JustMarked(s: State) {
    && s.dispatchers == map[] && s.queue == [FileId("t", 0)] && s.workers == map[0 := Idle]
    && StatusAt(s.tasks, FileId("t", 0)) == Some(FileQueued) && !s.unmarked
  }

  lemma RunToMark() returns (states: seq<State>, steps: seq<Step>)
    ensures IsRun(states, steps) && states[0].lost == {} && JustMarked(Last(states))
  {
    states, steps := RunToSubmission();
    MarkChangesOneStatus(Last(states).tasks, CallOf(Last(states), MarkQueuedFile(0, 0)).value, FileId("t", 0));
    states, steps := Extend(states, steps, MarkQueuedFile(0, 0));
    states, steps := Extend(states, steps, FinishEnqueue(0));
  }

  /** Such a state is reached: a file is submitted and marked, its job is taken, and its start mark fails. */
  lemma OrphanIsReachable() returns (states: seq<State>, steps: seq<Step>, f: FileId)
    ensures IsRun(states, steps) && states[0].lost == {}
    ensures AtRest(Last(states)) && Last(states).dispatchers == map[]
    ensures StatusAt(Last(states).tasks, f) == Some(FileQueued) && f in Last(states).lost && Abandoned(Last(states), f)
  {
    f := FileId("t", 0);
    states, steps := RunToMark();
    states, steps := Extend(states, steps, Take(0));
    DroppedJobOrphansItsFile(Last(states), 0, f);
    states, steps := Extend(states, steps, StartFails(0));
  }
}
