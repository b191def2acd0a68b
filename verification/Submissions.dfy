/** What dispatchers submit over whole runs, whatever the workers do meanwhile. */
module Submissions {
  import opened Core
  import opened Replay
  import opened Calls
  import opened FileStates
  import opened Runs
  import opened Dispatching

  /** The first n indexes that Enqueue submits, in order. */
  function Wanted(files: seq<File>, n: nat): seq<int>
    requires n <= |files|
  {
    if n == 0 then []
    else Wanted(files, n - 1) + (if ToSubmit(files[n - 1].status) then [n - 1] else [])
  }

  /** They are exactly the submittable indexes below n, ascending. */
  lemma {:induction false} WantedIsExact(files: seq<File>, n: nat)
    requires n <= |files|
    ensures forall i :: i in Wanted(files, n) <==> 0 <= i < n && ToSubmit(files[i].status)
    ensures forall j, k :: 0 <= j < k < |Wanted(files, n)| ==> Wanted(files, n)[j] < Wanted(files, n)[k]
  {
    if n > 0 {
      WantedIsExact(files, n - 1);
      var before := Wanted(files, n - 1);
      assert forall k :: 0 <= k < |before| ==> before[k] in before;
    }
  }

  function Jobs(id: string, indexes: seq<int>): (r: seq<FileId>)
    ensures |r| == |indexes| && forall k :: 0 <= k < |r| ==> r[k] == FileId(id, indexes[k])
  {
    seq(|indexes|, k requires 0 <= k < |indexes| => FileId(id, indexes[k]))
  }

  lemma OneMoreJob(id: string, files: seq<File>, n: nat)
    requires n < |files|
    ensures
      Jobs(id, Wanted(files, n + 1))
      == Jobs(id, Wanted(files, n)) + (if ToSubmit(files[n].status) then [FileId(id, n)] else [])
  {
  }

  // ---------------------------------------------------------------- each run of Enqueue

  /** The files a dispatcher has dealt with, the one it is about to mark included. */
  function Done(p: Dispatcher): nat {
    if p.pending then p.pos + 1 else p.pos
  }

  /** It has submitted exactly the wanted files among them, in order. */
  predicate OwnJobs(p: Dispatcher) {
    && Done(p) <= |p.files| && p.mine == Jobs(p.id, Wanted(p.files, Done(p)))
    && (p.pending ==> ToSubmit(p.files[p.pos].status))
  }

  /** One that came to its end has submitted exactly the wanted files; one that was refused at a wanted
      file exactly those before it; one whose mark failed that one as well. */
  predicate EndedRightly(e: Ending) {
    var p := e.at;
    match e.why
    case Finished => p.mine == Jobs(p.id, Wanted(p.files, |p.files|))
    case Refused =>
      p.pos < |p.files| && ToSubmit(p.files[p.pos].status) && p.mine == Jobs(p.id, Wanted(p.files, p.pos))
    case NotMarked =>
      p.pos < |p.files| && ToSubmit(p.files[p.pos].status) && p.mine == Jobs(p.id, Wanted(p.files, p.pos + 1))
  }

  ghost predicate AllInOrder(s: State) {
    && (forall d :: d in s.dispatchers ==> OwnJobs(s.dispatchers[d]))
    && (forall k :: 0 <= k < |s.ended| ==> EndedRightly(s.ended[k]))
  }

  /** A step of a dispatcher that is at work. */
  predicate OfDispatcher(step: Step) {
    || step.PassOver? || step.Submit? || step.MarkQueuedFile? || step.FinishEnqueue? || step.RefuseFile?
    || step.MarkQueuedFails?
  }

  lemma OneInOrder(s: State, step: Step)
    requires Enabled(s, step) && OfDispatcher(step) && step.d in s.dispatchers && OwnJobs(s.dispatchers[step.d])
    ensures step.d in After(s, step).dispatchers ==> OwnJobs(After(s, step).dispatchers[step.d])
    ensures step.d !in After(s, step).dispatchers ==>
              exists e :: After(s, step).ended == s.ended + [e] && EndedRightly(e)
  {
    var p := s.dispatchers[step.d];
    if p.pos < |p.files| {
      OneMoreJob(p.id, p.files, p.pos);
    }
    if step.FinishEnqueue? {
      assert EndedRightly(Ending(p, Finished));
    } else if step.RefuseFile? {
      assert EndedRightly(Ending(p, Refused));
    } else if step.MarkQueuedFails? {
      assert EndedRightly(Ending(p, NotMarked));
    }
  }

  lemma StepInOrder(s: State, step: Step)
    requires AllInOrder(s) && Enabled(s, step)
    ensures AllInOrder(After(s, step))
  {
    if OfDispatcher(step) {
      OneInOrder(s, step);
    }
  }

  /** Over any run, with any number of dispatchers and whatever the workers do. */
  lemma {:induction false} EveryEnqueueIsExact(states: seq<State>, steps: seq<Step>)
    requires IsRun(states, steps)
    ensures AllInOrder(Last(states))
    decreases |steps|
  {
    var n := |steps|;
    if n > 0 {
      LastStep(states, steps);
      EveryEnqueueIsExact(states[..n], steps[..n - 1]);
      StepInOrder(states[n - 1], steps[n - 1]);
    }
  }

  // ---------------------------------------------------------------- what was submitted and what was not

  ghost predicate PendingOn(s: State, f: FileId) {
    exists d :: d in s.dispatchers && s.dispatchers[d].pending && FileOf(s.dispatchers[d]) == f
  }

  ghost predicate HeldBy(s: State, f: FileId) {
    exists w :: w in s.workers && !s.workers[w].Idle? && s.workers[w].job == f
  }

  ghost predicate HasJob(s: State, f: FileId) {
    f in s.queue || HeldBy(s, f) || PendingOn(s, f)
  }

  ghost predicate JobsAreSent(s: State) {
    forall f :: HasJob(s, f) ==> f in s.sent
  }

  predicate Sendable(m: Tasks, f: FileId) {
    StatusAt(m, f).Some? && ToSubmit(StatusAt(m, f).value)
  }

  /** Every submitted file exists, and unless a mark failed it is marked or about to be. */
  ghost predicate SentAreMarked(s: State) {
    && (forall f :: f in s.sent ==> StatusAt(s.tasks, f).Some?)
    && (!s.unmarked ==> forall f :: f in s.sent && Sendable(s.tasks, f) ==> PendingOn(s, f))
  }

  lemma TakeMakesNoJob(s: State, w: nat, f: FileId)
    requires Enabled(s, Take(w)) && HasJob(After(s, Take(w)), f)
    ensures HasJob(s, f)
  {
    if HeldBy(After(s, Take(w)), f) {
      var v :| v in s.workers && !After(s, Take(w)).workers[v].Idle? && After(s, Take(w)).workers[v].job == f;
      if v != w {
        assert s.workers[v].job == f;
      }
    }
  }

  /** Only a submission makes a job. */
  lemma StepMakesNoJob(s: State, step: Step, f: FileId)
    requires Enabled(s, step) && !step.Take? && HasJob(After(s, step), f) && f !in After(s, step).sent
    ensures HasJob(s, f) || f in s.sent
  {
    var s' := After(s, step);
    if HeldBy(s', f) {
      var v :| v in s'.workers && !s'.workers[v].Idle? && s'.workers[v].job == f;
      assert !s.workers[v].Idle? && s.workers[v].job == f;
    } else if PendingOn(s', f) {
      var d :| d in s'.dispatchers && s'.dispatchers[d].pending && FileOf(s'.dispatchers[d]) == f;
      assert d in s.dispatchers && s.dispatchers[d] == s'.dispatchers[d];
    }
  }

  lemma JobsStaySent(s: State, step: Step)
    requires JobsAreSent(s) && Enabled(s, step)
    ensures JobsAreSent(After(s, step))
  {
    forall f | HasJob(After(s, step), f) ensures f in After(s, step).sent {
      if step.Take? {
        TakeMakesNoJob(s, step.w, f);
      } else if f !in After(s, step).sent {
        StepMakesNoJob(s, step, f);
      }
    }
  }

  /** A file that is not to be submitted never will be. */
  lemma NeverSendableAgain(m: Tasks, r: Tasks, f: FileId)
    requires Later(m, r) && StatusAt(m, f).Some?
    ensures StatusAt(r, f).Some? && (Sendable(r, f) ==> Sendable(m, f))
  {
    assert TaskLater(m[f.id], r[f.id]);
    assert FileLater(m[f.id].files[f.index], r[f.id].files[f.index]);
  }

  lemma MarkedIsNotSendable(m: Tasks, c: Call)
    requires c.MarkQueued?
    ensures !Sendable(Exec(m, c).tasks, FileId(c.id, c.index))
  {
    MarkChangesOneStatus(m, c, FileId(c.id, c.index));
  }

  lemma SentStayMarked(s: State, step: Step)
    requires SentAreMarked(s) && NoOrphans(s) && Enabled(s, step)
    ensures SentAreMarked(After(s, step))
  {
    var s' := After(s, step);
    StepMovesForward(s, step);
    forall f | f in s'.sent
      ensures StatusAt(s'.tasks, f).Some? && (!s'.unmarked && Sendable(s'.tasks, f) ==> PendingOn(s', f))
    {
      if f in s.sent {
        NeverSendableAgain(s.tasks, s'.tasks, f);
        if !s'.unmarked && Sendable(s'.tasks, f) {
          StillPending(s, step, f);
        }
      } else {
        assert Covered(s, s.dispatchers[step.d]);
        assert s'.dispatchers[step.d].pending && FileOf(s'.dispatchers[step.d]) == f;
      }
    }
  }

  lemma StillPending(s: State, step: Step, f: FileId)
    requires Enabled(s, step) && PendingOn(s, f) && !step.MarkQueuedFails? && Sendable(After(s, step).tasks, f)
    ensures PendingOn(After(s, step), f)
  {
    var d :| d in s.dispatchers && s.dispatchers[d].pending && FileOf(s.dispatchers[d]) == f;
    if step.MarkQueuedFile? && step.d == d {
      MarkedIsNotSendable(s.tasks, CallOf(s, step).value);
      assert false;
    }
    assert After(s, step).dispatchers[d] == s.dispatchers[d];
  }

  lemma MarksAreOfJobs(s: State, step: Step)
    requires Enabled(s, step) && CallOf(s, step).Some? && !step.CreateTask?
    ensures var c := CallOf(s, step).value; HasJob(s, FileId(c.id, c.index))
  {
    var c := CallOf(s, step).value;
    if step.MarkQueuedFile? {
      assert FileOf(s.dispatchers[step.d]) == FileId(c.id, c.index);
    } else {
      assert s.workers[step.w].job == FileId(c.id, c.index);
    }
  }

  /** A step leaves every file alone that has not been submitted. */
  lemma UnsentStays(s: State, step: Step, f: FileId)
    requires JobsAreSent(s) && Enabled(s, step) && StatusAt(s.tasks, f).Some? && f !in s.sent
    ensures StatusAt(After(s, step).tasks, f) == StatusAt(s.tasks, f)
  {
    if CallOf(s, step).Some? {
      var c := CallOf(s, step).value;
      if c.Create? {
        CreateAddsWaiting(s.tasks, c, f);
      } else {
        MarkChangesOneStatus(s.tasks, c, f);
        MarksAreOfJobs(s, step);
      }
    }
  }

  lemma {:induction false} SubmissionsAreKept(states: seq<State>, steps: seq<Step>)
    requires IsRun(states, steps)
    ensures JobsAreSent(Last(states)) && SentAreMarked(Last(states))
    decreases |steps|
  {
    var n := |steps|;
    if n > 0 {
      LastStep(states, steps);
      SubmissionsAreKept(states[..n], steps[..n - 1]);
      EveryFileIsAttended(states[..n], steps[..n - 1]);
      JobsStaySent(states[n - 1], steps[n - 1]);
      SentStayMarked(states[n - 1], steps[n - 1]);
    }
  }

  /** Over any run, a file that has not been submitted keeps its status. */
  lemma {:induction false} UnsentFileKeepsItsStatus(states: seq<State>, steps: seq<Step>, k: nat, f: FileId)
    requires IsRun(states, steps) && k < |states| && StatusAt(states[k].tasks, f).Some? && f !in Last(states).sent
    ensures StatusAt(Last(states).tasks, f) == StatusAt(states[k].tasks, f)
    decreases |steps|
  {
    var n := |steps|;
    if k < n {
      LastStep(states, steps);
      UnsentFileKeepsItsStatus(states[..n], steps[..n - 1], k, f);
      SubmissionsAreKept(states[..n], steps[..n - 1]);
      UnsentStays(states[n - 1], steps[n - 1], f);
    }
  }

  // ---------------------------------------------------------------- what the next Enqueue takes

  /** The indexes whose files have not been submitted. */
  function Unsent(id: string, indexes: seq<int>, sent: seq<FileId>): seq<int>
    decreases |indexes|
  {
    if indexes == [] then []
    else
      var n := |indexes| - 1;
      Unsent(id, indexes[..n], sent) + (if FileId(id, indexes[n]) in sent then [] else [indexes[n]])
  }

  lemma UnsentNext(id: string, indexes: seq<int>, i: int, sent: seq<FileId>)
    ensures Unsent(id, indexes + [i], sent) == Unsent(id, indexes, sent) + (if FileId(id, i) in sent then [] else [i])
  {
    assert (indexes + [i])[..|indexes|] == indexes;
  }

  lemma {:induction false} WantedIsUnsent(id: string, before: seq<File>, after: seq<File>, sent: seq<FileId>, n: nat)
    requires n <= |before| == |after|
    requires forall i :: 0 <= i < n ==>
               (ToSubmit(after[i].status) <==> ToSubmit(before[i].status) && FileId(id, i) !in sent)
    ensures Wanted(after, n) == Unsent(id, Wanted(before, n), sent)
  {
    if n > 0 {
      WantedIsUnsent(id, before, after, sent, n - 1);
      if ToSubmit(before[n - 1].status) {
        UnsentNext(id, Wanted(before, n - 1), n - 1, sent);
      } else {
        assert Wanted(before, n) == Wanted(before, n - 1);
      }
    }
  }

  /** When no dispatcher is at work and no queue mark has failed, a file is to be submitted exactly if
      it was at any earlier moment and has not been submitted. */
  lemma SendableIffUnsent(states: seq<State>, steps: seq<Step>, k: nat, f: FileId)
    requires IsRun(states, steps) && k < |states| && StatusAt(states[k].tasks, f).Some?
    requires Last(states).dispatchers == map[] && !Last(states).unmarked
    ensures StatusAt(Last(states).tasks, f).Some?
    ensures Sendable(Last(states).tasks, f) <==> Sendable(states[k].tasks, f) && f !in Last(states).sent
  {
    FilesOnlyMoveForward(states, steps, k);
    NeverSendableAgain(states[k].tasks, Last(states).tasks, f);
    SubmissionsAreKept(states, steps);
    if f in Last(states).sent {
      assert !PendingOn(Last(states), f);
    } else {
      UnsentFileKeepsItsStatus(states, steps, k, f);
    }
  }

  /** So the next Enqueue of a task submits, in order, exactly the files an earlier one wanted and that
      have not been submitted since: one that stopped leaves the rest to the next. */
  lemma NextEnqueueTakesTheRest(states: seq<State>, steps: seq<Step>, k: nat, id: string)
    requires IsRun(states, steps) && k < |states| && id in states[k].tasks
    requires Last(states).dispatchers == map[] && !Last(states).unmarked
    ensures id in Last(states).tasks && |Last(states).tasks[id].files| == |states[k].tasks[id].files|
    ensures
      var before, after := states[k].tasks[id].files, Last(states).tasks[id].files;
      Wanted(after, |after|) == Unsent(id, Wanted(before, |before|), Last(states).sent)
  {
    FilesOnlyMoveForward(states, steps, k);
    var before := states[k].tasks[id].files;
    assert TaskLater(states[k].tasks[id], Last(states).tasks[id]);
    var after := Last(states).tasks[id].files;
    forall i | 0 <= i < |before|
      ensures ToSubmit(after[i].status) <==> ToSubmit(before[i].status) && FileId(id, i) !in Last(states).sent
    {
      SendableIffUnsent(states, steps, k, FileId(id, i));
    }
    WantedIsUnsent(id, before, after, Last(states).sent, |before|);
  }

  // ---------------------------------------------------------------- one dispatcher at a time

  /** What the runs of Enqueue that are over have submitted, one after another. */
  function Turns(ended: seq<Ending>): seq<FileId>
    decreases |ended|
  {
    if ended == [] then [] else Turns(ended[..|ended| - 1]) + ended[|ended| - 1].at.mine
  }

  lemma TurnsNext(ended: seq<Ending>, e: Ending)
    ensures Turns(ended + [e]) == Turns(ended) + e.at.mine
  {
    assert (ended + [e])[..|ended|] == ended;
  }

  /** What dispatcher p may still submit has not been submitted. */
  predicate Fresh(sent: seq<FileId>, p: Dispatcher) {
    forall j :: Done(p) <= j < |p.files| && ToSubmit(p.files[j].status) ==> FileId(p.id, j) !in sent
  }

  /** All submissions are those of one run of Enqueue after another, and no file is among them twice. */
  ghost predicate SubmittedOnce(s: State) {
    && (forall d, e :: d in s.dispatchers && e in s.dispatchers ==> d == e)
    && (forall i, j :: 0 <= i < j < |s.sent| ==> s.sent[i] != s.sent[j])
    && (s.dispatchers == map[] ==> s.sent == Turns(s.ended))
    && (forall d :: d in s.dispatchers ==> Fresh(s.sent, s.dispatchers[d]) && s.sent == Turns(s.ended) + s.dispatchers[d].mine)
  }

  lemma StartOnce(s: State, d: nat, id: string)
    requires SubmittedOnce(s) && SentAreMarked(s) && !s.unmarked
    requires Enabled(s, StartEnqueue(d, id)) && !After(s, StartEnqueue(d, id)).crowded
    ensures SubmittedOnce(After(s, StartEnqueue(d, id)))
  {
    var p := After(s, StartEnqueue(d, id)).dispatchers[d];
    assert s.sent + [] == s.sent;
    forall j | 0 <= j < |p.files| && ToSubmit(p.files[j].status) ensures FileId(id, j) !in s.sent {
      assert Sendable(s.tasks, FileId(id, j));
      assert !PendingOn(s, FileId(id, j));
    }
  }

  lemma EndOnce(s: State, step: Step)
    requires SubmittedOnce(s) && Enabled(s, step) && (step.FinishEnqueue? || step.RefuseFile? || step.MarkQueuedFails?)
    ensures SubmittedOnce(After(s, step))
  {
    var s' := After(s, step);
    TurnsNext(s.ended, s'.ended[|s.ended|]);
    assert s'.dispatchers == map[] by {
      assert forall e :: e in s.dispatchers ==> e == step.d;
    }
  }

  lemma SubmitOnce(s: State, d: nat)
    requires SubmittedOnce(s) && Enabled(s, Submit(d))
    ensures SubmittedOnce(After(s, Submit(d)))
  {
    var p := s.dispatchers[d];
    assert d in After(s, Submit(d)).dispatchers;
    assert Turns(s.ended) + (p.mine + [FileOf(p)]) == Turns(s.ended) + p.mine + [FileOf(p)];
  }

  lemma StepOnce(s: State, step: Step)
    requires SubmittedOnce(s) && SentAreMarked(s) && Enabled(s, step)
    requires !After(s, step).crowded && !After(s, step).unmarked
    ensures SubmittedOnce(After(s, step))
  {
    match step
    case StartEnqueue(d, id) => StartOnce(s, d, id);
    case Submit(d) => SubmitOnce(s, d);
    case FinishEnqueue(_) => EndOnce(s, step);
    case RefuseFile(_) => EndOnce(s, step);
    case PassOver(d) => assert d in After(s, step).dispatchers;
    case MarkQueuedFile(d, _) => assert d in After(s, step).dispatchers;
    case _ =>
  }

  /** As long as dispatchers work one at a time and no queue mark fails, no file is submitted twice
      over any number of Enqueue runs, whatever the workers do meanwhile. */
  lemma {:induction false} EachFileIsSubmittedOnce(states: seq<State>, steps: seq<Step>)
    requires IsRun(states, steps) && !Last(states).crowded && !Last(states).unmarked
    ensures SubmittedOnce(Last(states))
    decreases |steps|
  {
    var n := |steps|;
    if n > 0 {
      LastStep(states, steps);
      EachFileIsSubmittedOnce(states[..n], steps[..n - 1]);
      SubmissionsAreKept(states[..n], steps[..n - 1]);
      StepOnce(states[n - 1], steps[n - 1]);
    }
  }
}
