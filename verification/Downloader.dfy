/** One job from its start mark to its last mark: the retry loop of the downloader, with whatever other
    workers, dispatchers and clients do to the tasks meanwhile. */
module Downloaders {
  import opened Core
  import opened Replay
  import opened Calls
  import opened FileStates
  import opened Runs
  import opened CallLaws
  import Urls

  /** What one download attempt comes to. */
  datatype Fetch = Got(filename: string, size: nat) | Broke(why: string)

  /** How the world treats one job. Time is counted in looks: the program looks at a context at
      moments 0, 1, 2, ..., and contexts end between two of them. net gives the outcome of each attempt,
      cancelAt the first moment at which the base context has ended, if it does; deadline the first
      moment at which the timeout of a context made at some moment has run out; fault says how many
      further looks a mark that begins at some moment gets to before the store fails it, and wording the
      text of its error if it fails; clock is what such a mark reads from the service's clock, and others
      what everyone else has made of the tasks by the time it gets the service's lock. */
  datatype World = World(
    net: nat -> Fetch,
    cancelAt: Option<nat>,
    deadline: nat -> Option<nat>,
    fault: nat -> Option<nat>,
    wording: nat -> string,
    clock: nat -> Time,
    others: Interference)

  ghost predicate WorkingStore(w: World) {
    forall from :: w.fault(from) == None
  }

  // ---------------------------------------------------------------- contexts and the looks at them

  /** A context, as the first moment at which it has ended. */
  type Context = Option<nat>

  predicate Over(ctx: Context, moment: nat) {
    ctx.Some? && ctx.value <= moment
  }

  function Sooner(a: Option<nat>, b: Option<nat>): Option<nat> {
    if a.None? || (b.Some? && b.value < a.value) then b else a
  }

  /** The context of the start mark ends with the base or its own timeout. */
  function StartContext(w: World): Context {
    Sooner(w.cancelAt, w.deadline(0))
  }

  /** A status context comes from the base, but from the background if the base has ended when it is
      made. */
  function StatusContext(w: World, made: nat): Context {
    if Over(w.cancelAt, made) then w.deadline(made) else Sooner(w.cancelAt, w.deadline(made))
  }

  /** The looks of a mark that goes through: one by the service, one before each event is appended and
      one before the log is flushed. The third event is written if the task's status changes. */
  function Looks(m: Tasks, job: FileId, st: FileStatus): nat
    requires StatusAt(m, job).Some?
  {
    var t := m[job.id];
    if StatusOf(Statuses(t.files)[job.index := st]) != t.status then 5 else 4
  }

  lemma LooksOfMark(m: Tasks, c: Call)
    requires !c.Create? && !c.MarkQueued? && StatusAt(m, FileId(c.id, c.index)).Some? && Exec(m, c).events != []
    ensures |Exec(m, c).events| + 2 == Looks(m, FileId(c.id, c.index), StatusAfter(c))
  {
    var t := m[c.id];
    var f := MarkedFile(t.files[c.index], c);
    assert Statuses(t.files[c.index := f]) == Statuses(t.files)[c.index := StatusAfter(c)];
  }

  /** Whether a mark whose n looks begin at a moment goes through. */
  predicate Lasts(ctx: Context, from: nat, n: nat, fault: Option<nat>)
    requires n > 0
  {
    !Over(ctx, from + n - 1) && fault == None
  }

  function Min(a: nat, b: nat): nat { if a < b then a else b }

  /** The looks it gets to. */
  function LooksTaken(ctx: Context, from: nat, n: nat, fault: Option<nat>): nat
    requires n > 0
  {
    Min(if !Over(ctx, from + n - 1) then n else if ctx.value < from then 1 else ctx.value - from + 1,
        if fault.Some? then Min(fault.value + 1, n) else n)
  }

  /** The start mark's context is over once the base is or its own time has run out. That of a last mark is
      over once its own time has run out, and when the base is over only if that ends after it was made: so a
      base that has ended leaves the last mark its full time. */
  lemma ContextsEnd(w: World, made: nat, moment: nat)
    ensures Over(StartContext(w), moment) <==> Over(w.cancelAt, moment) || Over(w.deadline(0), moment)
    ensures
      Over(StatusContext(w, made), moment)
      <==> Over(w.deadline(made), moment) || (Over(w.cancelAt, moment) && !Over(w.cancelAt, made))
  {
  }

  // ---------------------------------------------------------------- marks on the tasks they find

  /** Whether the completed or failed mark of a job, begun at a moment on the tasks it then finds, goes
      through; the service allows it unless the file is completed. */
  predicate Ends(found: Tasks, job: FileId, st: FileStatus, ctx: Context, from: nat, fault: Option<nat>)
    requires StatusAt(found, job).Some?
  {
    StatusAt(found, job) != Some(FileCompleted) && Lasts(ctx, from, Looks(found, job, st), fault)
  }

  /** The moment after its looks: one if the service turns it down. */
  function EndsAt(found: Tasks, job: FileId, st: FileStatus, ctx: Context, from: nat, fault: Option<nat>): nat
    requires StatusAt(found, job).Some?
  {
    from + if StatusAt(found, job) == Some(FileCompleted) then 1 else LooksTaken(ctx, from, Looks(found, job, st), fault)
  }

  function Found(w: World, m: Tasks, from: nat): Tasks {
    w.others(from, m)
  }

  lemma FileIsFound(w: World, m: Tasks, job: FileId, from: nat)
    requires Onward(w.others) && StatusAt(m, job).Some?
    ensures StatusAt(Found(w, m, from), job).Some?
    ensures HasStarted(StatusAt(m, job).value) ==> HasStarted(StatusAt(Found(w, m, from), job).value)
  {
    var r := Found(w, m, from);
    assert OnwardAt(w.others, from, m);
    assert TaskLater(m[job.id], r[job.id]);
    assert FileLater(m[job.id].files[job.index], r[job.id].files[job.index]);
  }

  /** A start, completed or failed mark is turned down exactly if the file is completed, and otherwise
      gives it its status with the looks counted above. */
  lemma MarkIsAllowed(m: Tasks, job: FileId, c: Call)
    requires c.MarkStarted? || (c.MarkCompleted? && c.size >= 0) || c.MarkFailed?
    requires StatusAt(m, job).Some? && c.id == job.id && c.index == job.index
    ensures
      var o := Exec(m, c);
      && (o.result.Failure? <==> StatusAt(m, job) == Some(FileCompleted))
      && (o.result.Success? ==>
            o.events != [] && |o.events| + 2 == Looks(m, job, StatusAfter(c)) && StatusAt(o.tasks, job) == Some(StatusAfter(c)))
  {
    MarkTurnedDown(m, c);
    MarkChangesOneStatus(m, c, job);
    if StatusAt(m, job) != Some(FileCompleted) {
      LooksOfMark(m, c);
    }
  }

  // ---------------------------------------------------------------- the course of a job

  const Cancelled := "context canceled"
  const UnknownFailure := "downloader: unknown failure"

  function NotStarted(cause: string): string { "downloader: mark started: " + cause }

  function NotCompleted(cause: string): string { "downloader: mark completed: " + cause }

  /** What the failed mark of a job says. */
  function Message(why: Option<string>): string {
    var msg := if why.Some? then why.value else "unknown error";
    if |msg| > 256 then msg[..256] else msg
  }

  /** What happened to a started job: the outcomes of its attempts, the error it ended with, how often
      the failed mark was tried and whether it went through, the moment at which the context of the
      last mark was made, and the tasks that mark found. */
  datatype Story = Story(fetched: seq<Fetch>, reason: Option<string>, failedMarks: nat, marked: bool, endedAt: nat, found: Tasks)

  /** The job succeeds, or it is given up: when the context of the failed mark is made, and the tasks then. */
  datatype Course = Succeeds | GivesUp(at: nat, tasks: Tasks)

  /** Of n attempts j is the last that can be made: the first that gets the file, or the last of all. */
  predicate IsLast(w: World, n: nat, j: nat) {
    j < n && (forall i :: 0 <= i < j ==> w.net(i).Broke?) && (j == n - 1 || w.net(j).Got?)
  }

  function LastAttempt(w: World, n: nat, k: nat): (j: nat)
    requires k < n && forall i :: 0 <= i < k ==> w.net(i).Broke?
    ensures IsLast(w, n, j) && k <= j
    decreases n - k
  {
    if k == n - 1 || w.net(k).Got? then k else LastAttempt(w, n, k + 1)
  }

  /** The looks at the base begin at first: attempt k looks at first + 2 * k before its download, and a broken
      one that is not the last again in the pause after it. How many of them find the base alive. */
  function LivesFor(w: World, first: nat): Option<nat> {
    if w.cancelAt == None then None else Some(if w.cancelAt.value < first then 0 else w.cancelAt.value - first)
  }

  /** The base is over by the look before the last attempt. */
  predicate CutShort(w: World, n: nat, first: nat) {
    n > 0 && Over(w.cancelAt, first + 2 * LastAttempt(w, n, 0))
  }

  /** How many downloads are begun. */
  function Downloads(w: World, n: nat, first: nat): nat {
    if n == 0 then 0
    else if CutShort(w, n, first) then (LivesFor(w, first).value + 1) / 2
    else LastAttempt(w, n, 0) + 1
  }

  /** The error of a job that is given up. */
  function ReasonOf(w: World, n: nat, first: nat): Option<string> {
    if n == 0 then None
    else if CutShort(w, n, first) then Some(Cancelled)
    else
      var j := LastAttempt(w, n, 0);
      match w.net(j)
      case Got(_, _) => Some(NotCompleted(w.wording(first + 2 * j + 2)))
      case Broke(why) => Some(why)
  }

  /** The course of a job with n attempts on the tasks m, which looks at the base from first on. */
  function CourseOf(w: World, m: Tasks, job: FileId, n: nat, first: nat): Course {
    if n == 0 then GivesUp(first, m)
    else if CutShort(w, n, first) then GivesUp(first + LivesFor(w, first).value + 1, m)
    else
      var made := first + 2 * LastAttempt(w, n, 0) + 1;
      if w.net(LastAttempt(w, n, 0)).Broke? then GivesUp(made, m)
      else
        var found := Found(w, m, made + 1);
        var (ctx, fault) := (StatusContext(w, made), w.fault(made + 1));
        if StatusAt(found, job).None? then GivesUp(made + 2, found)
        else if Ends(found, job, FileCompleted, ctx, made + 1, fault) then Succeeds
        else GivesUp(EndsAt(found, job, FileCompleted, ctx, made + 1, fault), found)
  }

  /** Which error a job that is given up ends with, from the world alone. */
  lemma WhyGivenUp(w: World, n: nat, first: nat)
    ensures n == 0 ==> ReasonOf(w, n, first) == None
    ensures
      n > 0 && (forall i :: 0 <= i < n ==> w.net(i).Broke?) && !Over(w.cancelAt, first + 2 * (n - 1)) ==>
        ReasonOf(w, n, first) == Some(w.net(n - 1).why) && Downloads(w, n, first) == n
    ensures
      forall j: nat :: j < n && (forall i :: 0 <= i < j ==> w.net(i).Broke?) && w.net(j).Got? && !Over(w.cancelAt, first + 2 * j) ==>
        && ReasonOf(w, n, first) == Some("downloader: mark completed: " + w.wording(first + 2 * j + 2))
        && Downloads(w, n, first) == j + 1
    ensures
      forall j: nat :: IsLast(w, n, j) && Over(w.cancelAt, first + 2 * j) ==>
        && ReasonOf(w, n, first) == Some("context canceled")
        && forall k: nat :: k < Downloads(w, n, first) <==> !Over(w.cancelAt, first + 2 * k)
  {
    if n > 0 {
      forall j: nat | IsLast(w, n, j) ensures j == LastAttempt(w, n, 0) {
      }
    }
  }

  /** Before attempt k, when all before it broke and the base lived on. */
  predicate Reaches(w: World, n: nat, first: nat, k: nat) {
    k < n && (forall i :: 0 <= i < k ==> w.net(i).Broke?) && (k > 0 ==> !Over(w.cancelAt, first + 2 * k - 1))
  }

  /** The base is found over before attempt k, or in the pause after it. */
  lemma EndsByBase(w: World, m: Tasks, job: FileId, n: nat, first: nat, k: nat, pause: bool)
    requires Reaches(w, n, first, k)
    requires pause ==> !Over(w.cancelAt, first + 2 * k) && w.net(k).Broke? && k < n - 1
    requires Over(w.cancelAt, first + 2 * k + if pause then 1 else 0)
    ensures CourseOf(w, m, job, n, first) == GivesUp(first + 2 * k + (if pause then 2 else 1), m)
    ensures ReasonOf(w, n, first) == Some(Cancelled) && Downloads(w, n, first) == if pause then k + 1 else k
  {
    assert LastAttempt(w, n, 0) >= k + (if pause then 1 else 0) by {
      var j := LastAttempt(w, n, 0);
      assert IsLast(w, n, j);
    }
    assert LivesFor(w, first).value == 2 * k + if pause then 1 else 0;
  }

  /** Attempt k is the last. */
  lemma EndsByAttempt(w: World, n: nat, first: nat, k: nat)
    requires Reaches(w, n, first, k) && !Over(w.cancelAt, first + 2 * k) && (k == n - 1 || w.net(k).Got?)
    ensures LastAttempt(w, n, 0) == k && !CutShort(w, n, first) && Downloads(w, n, first) == k + 1
  {
    var j := LastAttempt(w, n, 0);
    assert IsLast(w, n, j) && IsLast(w, n, k);
  }

  function StartMark(job: FileId, now: Time): Call {
    MarkStarted(job.id, job.index, now)
  }

  function CompletedMark(job: FileId, fetch: Fetch, now: Time): Call
    requires fetch.Got?
  {
    MarkCompleted(job.id, job.index, fetch.filename, fetch.size, now)
  }

  function FailedMark(job: FileId, why: Option<string>, now: Time): Call {
    MarkFailed(job.id, job.index, Message(why), now)
  }

  ghost function CompletedVerdict(w: World, job: FileId, story: Story, tasks: Tasks): Verdict {
    if && story.fetched != [] && story.fetched[|story.fetched| - 1].Got?
       && StatusAt(story.found, job).Some? && StatusAt(story.found, job) != Some(FileCompleted)
       && tasks == Exec(story.found, CompletedMark(job, story.fetched[|story.fetched| - 1], w.clock(story.endedAt + 1))).tasks
    then Sound else Unsound
  }

  /** The tasks are those the completed mark found, with the last attempt's name and size. */
  ghost predicate CompletedBy(w: World, job: FileId, story: Story, tasks: Tasks) {
    CompletedVerdict(w, job, story, tasks) == Sound
  }

  /** These are the first downloads, as the network let them end. */
  ghost predicate Fetched(w: World, fetched: seq<Fetch>) {
    FetchVerdict(w, fetched) == Sound
  }

  ghost function FetchVerdict(w: World, fetched: seq<Fetch>): Verdict {
    if forall k :: 0 <= k < |fetched| ==> fetched[k] == w.net(k) then Sound else Unsound
  }

  lemma FetchedOneMore(w: World, fetched: seq<Fetch>)
    requires Fetched(w, fetched)
    ensures Fetched(w, fetched + [w.net(|fetched|)])
  {
  }

  /** The last attempt is made, and the context of its completed mark at this moment. */
  ghost predicate EndsWell(w: World, n: nat, first: nat, made: nat) {
    n > 0 && !CutShort(w, n, first) && made == first + 2 * LastAttempt(w, n, 0) + 1
  }

  /** How the attempts on a started job went, which began at first with the tasks m: as many downloads as the
      world lets it begin, the error it says, and the course it says. */
  ghost predicate Went(w: World, m: Tasks, job: FileId, attempts: nat, first: nat,
                      done: bool, lastErr: Option<string>, moment: nat, story: Story, tasks: Tasks)
  {
    WentVerdict(w, m, job, attempts, first, done, lastErr, moment, story, tasks) == Sound
  }

  ghost function WentVerdict(w: World, m: Tasks, job: FileId, attempts: nat, first: nat,
                            done: bool, lastErr: Option<string>, moment: nat, story: Story, tasks: Tasks): Verdict
  {
    if && |story.fetched| == Downloads(w, attempts, first) && story.failedMarks == 0 && Fetched(w, story.fetched)
       && lastErr == (if done then None else ReasonOf(w, attempts, first))
       && CourseOf(w, m, job, attempts, first) == (if done then Succeeds else GivesUp(moment, tasks))
       && (done ==> CompletedBy(w, job, story, tasks) && EndsWell(w, attempts, first, story.endedAt))
       && StatusAt(tasks, job).Some?
    then Sound else Unsound
  }

  lemma WentOn(w: World, m: Tasks, job: FileId, attempts: nat, first: nat,
               done: bool, lastErr: Option<string>, moment: nat, story: Story, tasks: Tasks)
    requires |story.fetched| == Downloads(w, attempts, first) && story.failedMarks == 0 && Fetched(w, story.fetched)
    requires lastErr == if done then None else ReasonOf(w, attempts, first)
    requires CourseOf(w, m, job, attempts, first) == if done then Succeeds else GivesUp(moment, tasks)
    requires done ==> CompletedBy(w, job, story, tasks) && EndsWell(w, attempts, first, story.endedAt)
    requires StatusAt(tasks, job).Some?
    ensures Went(w, m, job, attempts, first, done, lastErr, moment, story, tasks)
  {
  }

  /** A mark of a job that is made writes what it carries: the name and size of the download, or the error, of
      which the first 256 bytes are kept. */
  predicate SaysCompleted(tasks: Tasks, job: FileId, fetch: Fetch, now: Time) {
    && fetch.Got? && FileAt(tasks, job).Some?
    && var g := FileAt(tasks, job).value;
       && g.status == FileCompleted && g.filename == Urls.Trim(fetch.filename) && g.size == fetch.size && g.error == ""
       && g.completedAt == Some(now) && g.startedAt.Some?
  }

  predicate SaysFailed(tasks: Tasks, job: FileId, text: string, now: Time) {
    && FileAt(tasks, job).Some?
    && var g := FileAt(tasks, job).value;
       && g.status == FileError && g.error == Urls.Trim(if |text| > 256 then text[..256] else text)
       && g.completedAt == Some(now) && g.startedAt.Some?
  }

  lemma CompletionIsRecorded(found: Tasks, job: FileId, fetch: Fetch, now: Time)
    requires StatusAt(found, job).Some? && StatusAt(found, job) != Some(FileCompleted) && fetch.Got?
    ensures SaysCompleted(Exec(found, CompletedMark(job, fetch, now)).tasks, job, fetch, now)
  {
    var c := CompletedMark(job, fetch, now);
    MarkAnswers(found, c);
    MarkWrites(found, c);
  }

  lemma FailureIsRecorded(found: Tasks, job: FileId, why: Option<string>, now: Time)
    requires StatusAt(found, job).Some? && StatusAt(found, job) != Some(FileCompleted)
    ensures
      SaysFailed(Exec(found, FailedMark(job, why, now)).tasks, job, if why.Some? then why.value else "unknown error", now)
  {
    var c := FailedMark(job, why, now);
    MarkAnswers(found, c);
    MarkWrites(found, c);
  }

  /** Attempt k got the file, and its completed mark was tried. */
  lemma GotAndWent(w: World, m: Tasks, job: FileId, n: nat, first: nat, k: nat,
                   done: bool, lastErr: Option<string>, next: nat, story: Story, tasks: Tasks)
    requires Reaches(w, n, first, k) && !Over(w.cancelAt, first + 2 * k) && w.net(k).Got?
    requires |story.fetched| == k + 1 && story.failedMarks == 0 && Fetched(w, story.fetched)
    requires story.endedAt == first + 2 * k + 1 && story.found == Found(w, m, story.endedAt + 1) && StatusAt(story.found, job).Some?
    requires
      var (ctx, fault) := (StatusContext(w, story.endedAt), w.fault(story.endedAt + 1));
      && done == Ends(story.found, job, FileCompleted, ctx, story.endedAt + 1, fault)
      && next == EndsAt(story.found, job, FileCompleted, ctx, story.endedAt + 1, fault)
    requires if done then CompletedBy(w, job, story, tasks) else tasks == story.found
    requires StatusAt(tasks, job).Some?
    requires lastErr == if done then None else Some(NotCompleted(w.wording(story.endedAt + 1)))
    ensures Went(w, m, job, n, first, done, lastErr, next, story, tasks)
  {
    EndsByAttempt(w, n, first, k);
    WentOn(w, m, job, n, first, done, lastErr, next, story, tasks);
  }

  class Downloader {
    const maxAttempts: int
    /** The tasks of the service the marks go to. */
    var tasks: Tasks

    constructor (maxAttempts: int, tasks: Tasks)
      ensures this.maxAttempts == maxAttempts && this.tasks == tasks
    {
      this.maxAttempts, this.tasks := maxAttempts, tasks;
    }

    function Attempts(): nat {
      if maxAttempts + 1 > 0 then maxAttempts + 1 else 0
    }

    /** A mark on the way from the service to the log: it finds what the others have made of the tasks, and
        stops at the first look that finds its context over, or when the store fails it. While it holds the
        service's lock no one else changes the task. */
    method Mark(c: Call, ctx: Context, from: nat, w: World) returns (done: bool, next: nat)
      requires var o := Exec(Found(w, tasks, from), c); o.result.Success? ==> o.events != []
      modifies this
      ensures
        var found, fault := Found(w, old(tasks), from), w.fault(from);
        var o := Exec(found, c);
        var n := if o.result.Success? then |o.events| + 2 else 1;
        && done == (o.result.Success? && Lasts(ctx, from, n, fault))
        && next == from + LooksTaken(ctx, from, n, fault)
        && tasks == if done then o.tasks else found
    {
      tasks := Found(w, tasks, from);
      var fault := w.fault(from);
      if Over(ctx, from) {
        return false, from + 1;
      }
      next := from + 1;
      var o := Exec(tasks, c);
      if o.result.Failure? {
        return false, next;
      }
      for i := 0 to |o.events|
        invariant next == from + 1 + i && !Over(ctx, next - 1) && tasks == Found(w, old(tasks), from)
        invariant fault.Some? ==> fault.value >= i
      {
        if fault == Some(i) {
          return false, next;
        }
        if Over(ctx, next) {
          return false, next + 1;
        }
        next := next + 1;
      }
      if fault == Some(|o.events|) {
        return false, next;
      }
      if Over(ctx, next) {
        return false, next + 1;
      }
      next := next + 1;
      if fault.Some? {
        return false, next;
      }
      tasks := o.tasks;
      return true, next;
    }

    method Begin(job: FileId, w: World) returns (started: bool, next: nat, ghost found: Tasks)
      requires StatusAt(tasks, job).Some? && Onward(w.others)
      modifies this
      ensures found == Found(w, old(tasks), 0) && StatusAt(found, job).Some?
      ensures started == Ends(found, job, FileDownloading, StartContext(w), 0, w.fault(0))
      ensures tasks == if started then Exec(found, StartMark(job, w.clock(0))).tasks else found
      ensures started ==> next == Looks(found, job, FileDownloading) && StatusAt(tasks, job) == Some(FileDownloading)
    {
      found := Found(w, tasks, 0);
      FileIsFound(w, tasks, job, 0);
      MarkIsAllowed(found, job, StartMark(job, w.clock(0)));
      started, next := Mark(StartMark(job, w.clock(0)), StartContext(w), 0, w);
    }

    /** The completed or the failed mark, its context made at a moment. */
    method End(c: Call, w: World, made: nat, job: FileId) returns (done: bool, next: nat, ghost found: Tasks)
      requires StatusAt(tasks, job).Some? && Onward(w.others)
      requires ((c.MarkCompleted? && c.size >= 0) || c.MarkFailed?) && c.id == job.id && c.index == job.index
      modifies this
      ensures found == Found(w, old(tasks), made + 1) && StatusAt(found, job).Some?
      ensures done == Ends(found, job, StatusAfter(c), StatusContext(w, made), made + 1, w.fault(made + 1))
      ensures next == EndsAt(found, job, StatusAfter(c), StatusContext(w, made), made + 1, w.fault(made + 1))
      ensures tasks == if done then Exec(found, c).tasks else found
    {
      found := Found(w, tasks, made + 1);
      FileIsFound(w, tasks, job, made + 1);
      MarkIsAllowed(found, job, c);
      done, next := Mark(c, StatusContext(w, made), made + 1, w);
    }

    /** The attempts on a started file, until one is marked completed or the job is given up. */
    method TryAll(job: FileId, w: World, first: nat)
      returns (done: bool, lastErr: Option<string>, moment: nat, ghost story: Story)
      requires StatusAt(tasks, job).Some? && Onward(w.others)
      modifies this
      ensures Went(w, old(tasks), job, Attempts(), first, done, lastErr, moment, story, tasks)
    {
      var attempts := maxAttempts + 1;
      var attempt := 0;
      ghost var m, n := tasks, Attempts();
      done, lastErr, moment, story := false, None, first, Story([], None, 0, false, 0, tasks);
      if attempts <= 0 {
        WentOn(w, m, job, n, first, done, lastErr, moment, story, tasks);
      }
      while attempt < attempts
        invariant 0 <= attempt <= n && |story.fetched| == attempt && story.failedMarks == 0 && Fetched(w, story.fetched)
        invariant !done && tasks == m && moment == first + 2 * attempt
        invariant if attempt < attempts then Reaches(w, n, first, attempt)
                  else Went(w, m, job, n, first, done, lastErr, moment, story, tasks)
      {
        if Over(w.cancelAt, moment) {
          lastErr := Some(Cancelled);
          moment := moment + 1;
          EndsByBase(w, m, job, n, first, attempt, false);
          WentOn(w, m, job, n, first, done, lastErr, moment, story, tasks);
          break;
        }
        moment := moment + 1;
        var fetch := w.net(attempt);
        FetchedOneMore(w, story.fetched);
        story := story.(fetched := story.fetched + [fetch]);
        if fetch.Got? {
          done, lastErr, moment, story := GotFile(job, fetch, w, moment, first, n, attempt, story);
          break;
        }
        lastErr := Some(fetch.why);
        if attempt == attempts - 1 {
          EndsByAttempt(w, n, first, attempt);
          WentOn(w, m, job, n, first, done, lastErr, moment, story, tasks);
          break;
        }
        if Over(w.cancelAt, moment) {
          lastErr := Some(Cancelled);
          moment := moment + 1;
          EndsByBase(w, m, job, n, first, attempt, true);
          WentOn(w, m, job, n, first, done, lastErr, moment, story, tasks);
          break;
        }
        moment := moment + 1;
        attempt := attempt + 1;
      }
    }

    /** An attempt got the file: the completed mark follows, and with it the job's attempts end. */
    method GotFile(job: FileId, fetch: Fetch, w: World, made: nat, ghost first: nat, ghost n: nat, ghost k: nat, ghost told: Story)
      returns (done: bool, lastErr: Option<string>, next: nat, ghost story: Story)
      requires StatusAt(tasks, job).Some? && Onward(w.others) && fetch.Got? && fetch == w.net(k)
      requires told.fetched != [] && told.fetched[|told.fetched| - 1] == fetch
      requires |told.fetched| == k + 1 && told.failedMarks == 0 && Fetched(w, told.fetched)
      requires Reaches(w, n, first, k) && made == first + 2 * k + 1 && !Over(w.cancelAt, first + 2 * k)
      modifies this
      ensures Went(w, old(tasks), job, n, first, done, lastErr, next, story, tasks)
    {
      ghost var m := tasks;
      done, next, story := MarkJobCompleted(job, fetch, w, made, told);
      lastErr := if done then None else Some(NotCompleted(w.wording(made + 1)));
      GotAndWent(w, m, job, n, first, k, done, lastErr, next, story, tasks);
    }

    /** The completed mark after an attempt that got the file. */
    method MarkJobCompleted(job: FileId, fetch: Fetch, w: World, made: nat, ghost told: Story)
      returns (done: bool, next: nat, ghost story: Story)
      requires StatusAt(tasks, job).Some? && Onward(w.others) && fetch.Got?
      requires told.fetched != [] && told.fetched[|told.fetched| - 1] == fetch
      modifies this
      ensures story == told.(endedAt := made, found := Found(w, old(tasks), made + 1))
      ensures StatusAt(story.found, job).Some? && StatusAt(tasks, job).Some?
      ensures done == Ends(story.found, job, FileCompleted, StatusContext(w, made), made + 1, w.fault(made + 1))
      ensures next == EndsAt(story.found, job, FileCompleted, StatusContext(w, made), made + 1, w.fault(made + 1))
      ensures if done then CompletedBy(w, job, story, tasks) else tasks == story.found
    {
      var c := CompletedMark(job, fetch, w.clock(made + 1));
      assert StatusAfter(c) == FileCompleted;
      ghost var found;
      done, next, found := End(c, w, made, job);
      MarkIsAllowed(found, job, c);
      story := told.(endedAt := made, found := found);
    }

    /** The failed mark, under a context of its own; its error is dropped. */
    method MarkJobFailed(job: FileId, why: Option<string>, w: World, made: nat) returns (done: bool, ghost found: Tasks)
      requires StatusAt(tasks, job).Some? && Onward(w.others)
      modifies this
      ensures found == Found(w, old(tasks), made + 1) && StatusAt(found, job).Some?
      ensures done == Ends(found, job, FileError, StatusContext(w, made), made + 1, w.fault(made + 1))
      ensures tasks == if done then Exec(found, FailedMark(job, why, w.clock(made + 1))).tasks else found
    {
      var c := FailedMark(job, why, w.clock(made + 1));
      assert StatusAfter(c) == FileError;
      var next;
      done, next, found := End(c, w, made, job);
    }

    method Handle(job: FileId, w: World)
      returns (err: Option<string>, ghost started: bool, ghost first: nat, ghost begun: Tasks, ghost story: Story)
      requires StatusAt(tasks, job).Some? && Onward(w.others)
      modifies this
      ensures
        var found := Found(w, old(tasks), 0);
        && StatusAt(found, job).Some?
        && started == Ends(found, job, FileDownloading, StartContext(w), 0, w.fault(0))
        && begun == (if started then Exec(found, StartMark(job, w.clock(0))).tasks else found)
        && first == Looks(found, job, FileDownloading)
      ensures !started ==> err == Some(NotStarted(w.wording(0))) && tasks == begun && story.failedMarks == 0 && story.fetched == []
      ensures started ==> StatusAt(begun, job) == Some(FileDownloading)
      ensures started ==> |story.fetched| == Downloads(w, Attempts(), first) && Fetched(w, story.fetched)
      // The job succeeds exactly when its completed mark is made, and otherwise is marked failed once.
      ensures started && err == None ==>
                && CourseOf(w, begun, job, Attempts(), first) == Succeeds
                && story.failedMarks == 0 && CompletedBy(w, job, story, tasks) && EndsWell(w, Attempts(), first, story.endedAt)
      ensures started && err.Some? ==>
                var course := CourseOf(w, begun, job, Attempts(), first);
                && story.reason == ReasonOf(w, Attempts(), first)
                && course.GivesUp? && course.at == story.endedAt && story.failedMarks == 1
                && err == Some(if story.reason.Some? then story.reason.value else UnknownFailure)
                && story.found == Found(w, course.tasks, story.endedAt + 1) && StatusAt(story.found, job).Some?
                && story.marked == Ends(story.found, job, FileError, StatusContext(w, story.endedAt), story.endedAt + 1,
                                        w.fault(story.endedAt + 1))
                && tasks == if story.marked then Exec(story.found, FailedMark(job, story.reason, w.clock(story.endedAt + 1))).tasks
                            else story.found
    {
      var s, next;
      ghost var found0;
      s, next, found0 := Begin(job, w);
      started, begun, first := s, tasks, Looks(found0, job, FileDownloading);
      story := Story([], None, 0, false, 0, tasks);
      if !s {
        return Some(NotStarted(w.wording(0))), started, first, begun, story;
      }
      var done, lastErr, moment;
      done, lastErr, moment, story := TryAll(job, w, next);
      if done {
        return None, started, first, begun, story;
      }
      var marked;
      ghost var found;
      marked, found := MarkJobFailed(job, lastErr, w, moment);
      story := story.(reason := lastErr, failedMarks := story.failedMarks + 1, endedAt := moment, marked := marked, found := found);
      err := Some(if lastErr.Some? then lastErr.value else UnknownFailure);
    }
  }

  /** Where the last mark leaves the file, if the store works. A job that is given up leaves what others
      have finished by then finished; a file still downloading stays so exactly if the context of the
      failed mark is over by the last of that mark's looks, and is failed otherwise. */
  function LeftAt(w: World, job: FileId, course: Course): FileStatus
    requires course.GivesUp? ==> StatusAt(Found(w, course.tasks, course.at + 1), job).Some?
  {
    if course.Succeeds? then FileCompleted
    else
      var found := Found(w, course.tasks, course.at + 1);
      if StatusAt(found, job) != Some(FileDownloading) then StatusAt(found, job).value
      else if Over(StatusContext(w, course.at), course.at + Looks(found, job, FileError)) then FileDownloading
      else FileError
  }

  lemma CourseKeepsFile(w: World, m: Tasks, job: FileId, n: nat, first: nat)
    requires Onward(w.others) && StatusAt(m, job).Some? && HasStarted(StatusAt(m, job).value)
    ensures
      var course := CourseOf(w, m, job, n, first);
      course.GivesUp? ==> StatusAt(course.tasks, job).Some? && HasStarted(StatusAt(course.tasks, job).value)
  {
    if n > 0 {
      FileIsFound(w, m, job, first + 2 * LastAttempt(w, n, 0) + 2);
    }
  }

  /** The status after a failed mark: what it was if the mark fails, else failed. */
  lemma FailedMarkLeaves(found: Tasks, job: FileId, why: Option<string>, now: Time)
    requires StatusAt(found, job).Some? && StatusAt(found, job) != Some(FileCompleted)
    ensures StatusAt(Exec(found, FailedMark(job, why, now)).tasks, job) == Some(FileError)
  {
    MarkIsAllowed(found, job, FailedMark(job, why, now));
  }

  lemma LastMarkLeaves(w: World, job: FileId, at: nat, before: Tasks, found: Tasks, why: Option<string>, tasks: Tasks)
    requires Onward(w.others) && WorkingStore(w) && found == Found(w, before, at + 1)
    requires StatusAt(before, job).Some? && HasStarted(StatusAt(before, job).value) && StatusAt(found, job).Some?
    requires
      tasks == if Ends(found, job, FileError, StatusContext(w, at), at + 1, w.fault(at + 1))
               then Exec(found, FailedMark(job, why, w.clock(at + 1))).tasks else found
    ensures StatusAt(tasks, job) == Some(LeftAt(w, job, GivesUp(at, before)))
  {
    FileIsFound(w, before, job, at + 1);
    if StatusAt(found, job) != Some(FileCompleted) {
      FailedMarkLeaves(found, job, why, w.clock(at + 1));
    }
  }

  lemma HandledLeaves(w: World, job: FileId, course: Course, err: Option<string>, story: Story, tasks: Tasks)
    requires Onward(w.others) && WorkingStore(w)
    requires err == None ==> course == Succeeds && story.fetched != [] && CompletedBy(w, job, story, tasks)
    requires err == None ==> StatusAt(story.found, job).Some?
    requires err.Some? ==>
               && course.GivesUp? && course.at == story.endedAt && story.found == Found(w, course.tasks, story.endedAt + 1)
               && StatusAt(course.tasks, job).Some? && HasStarted(StatusAt(course.tasks, job).value) && StatusAt(story.found, job).Some?
               && story.marked == Ends(story.found, job, FileError, StatusContext(w, story.endedAt), story.endedAt + 1,
                                       w.fault(story.endedAt + 1))
               && tasks == if story.marked then Exec(story.found, FailedMark(job, story.reason, w.clock(story.endedAt + 1))).tasks
                           else story.found
    ensures course.GivesUp? ==> StatusAt(Found(w, course.tasks, course.at + 1), job).Some?
    ensures StatusAt(tasks, job) == Some(LeftAt(w, job, course)) && (err == None <==> course.Succeeds?)
  {
    if err == None {
      MarkIsAllowed(story.found, job, CompletedMark(job, story.fetched[|story.fetched| - 1], w.clock(story.endedAt + 1)));
    } else {
      LastMarkLeaves(w, job, course.at, course.tasks, story.found, story.reason, tasks);
    }
  }

  lemma HandledSays(w: World, job: FileId, n: nat, first: nat, err: Option<string>, story: Story, tasks: Tasks)
    requires |story.fetched| == Downloads(w, n, first) && Fetched(w, story.fetched)
    requires err == None ==> EndsWell(w, n, first, story.endedAt) && CompletedBy(w, job, story, tasks)
    requires err.Some? ==>
               && StatusAt(story.found, job).Some? && (story.marked ==> StatusAt(story.found, job) != Some(FileCompleted))
               && tasks == if story.marked then Exec(story.found, FailedMark(job, story.reason, w.clock(story.endedAt + 1))).tasks
                           else story.found
    ensures
      err == None ==>
        SaysCompleted(tasks, job, w.net(LastAttempt(w, n, 0)), w.clock(first + 2 * LastAttempt(w, n, 0) + 2))
    ensures
      err.Some? && story.marked ==>
        SaysFailed(tasks, job, if story.reason.Some? then story.reason.value else "unknown error", w.clock(story.endedAt + 1))
  {
    if err == None {
      assert story.fetched[|story.fetched| - 1] == w.net(LastAttempt(w, n, 0));
      CompletionIsRecorded(story.found, job, w.net(LastAttempt(w, n, 0)), w.clock(story.endedAt + 1));
    } else if story.marked {
      FailureIsRecorded(story.found, job, story.reason, w.clock(story.endedAt + 1));
    }
  }

  /** With a working store, what becomes of a started file whatever the network and the others do and
      whenever contexts end. */
  method LastMarkDecides(d: Downloader, job: FileId, w: World)
    returns (err: Option<string>, ghost started: bool, ghost begun: Tasks, ghost course: Course)
    requires StatusAt(d.tasks, job).Some? && Onward(w.others) && WorkingStore(w)
    modifies d
    ensures
      var found := Found(w, old(d.tasks), 0);
      && StatusAt(found, job).Some?
      && started == Ends(found, job, FileDownloading, StartContext(w), 0, None)
      && begun == (if started then Exec(found, StartMark(job, w.clock(0))).tasks else found)
      && course == CourseOf(w, begun, job, d.Attempts(), Looks(found, job, FileDownloading))
    ensures !started ==> d.tasks == begun
    ensures started && course.GivesUp? ==> StatusAt(Found(w, course.tasks, course.at + 1), job).Some?
    ensures started ==> StatusAt(d.tasks, job) == Some(LeftAt(w, job, course)) && (err == None <==> course.Succeeds?)
  {
    ghost var first, story;
    err, started, first, begun, story := d.Handle(job, w);
    course := CourseOf(w, begun, job, d.Attempts(), first);
    if started {
      CourseKeepsFile(w, begun, job, d.Attempts(), first);
      HandledLeaves(w, job, course, err, story, d.tasks);
    }
  }

  /** What a started job says in the end, whatever fails: it returns the error that the world gives it, and what
      its last mark records if that is made, the name and size of its last download or the same error. */
  method LastMarkSays(d: Downloader, job: FileId, w: World)
    returns (err: Option<string>, ghost started: bool, ghost story: Story)
    requires StatusAt(d.tasks, job).Some? && Onward(w.others)
    modifies d
    ensures StatusAt(Found(w, old(d.tasks), 0), job).Some?
    ensures
      var n := if d.maxAttempts < 0 then 0 else d.maxAttempts + 1;
      var first := Looks(Found(w, old(d.tasks), 0), job, FileDownloading);
      var why := ReasonOf(w, n, first);
      && (!started ==> err == Some("downloader: mark started: " + w.wording(0)))
      && (started && err == None ==>
            EndsWell(w, n, first, story.endedAt) && SaysCompleted(d.tasks, job, w.net(LastAttempt(w, n, 0)), w.clock(story.endedAt + 1)))
      && (started && err.Some? ==>
            && err == Some(if why.Some? then why.value else "downloader: unknown failure")
            && (story.marked ==>
                  SaysFailed(d.tasks, job, if why.Some? then why.value else "unknown error", w.clock(story.endedAt + 1))))
  {
    ghost var first, begun;
    err, started, first, begun, story := d.Handle(job, w);
    if started {
      HandledSays(w, job, d.Attempts(), first, err, story, d.tasks);
    }
  }

  // ---------------------------------------------------------------- a file that stays in downloading

  const First := FileId("t", 0)

  /** Every attempt fails, and every status context runs out five moments after it is made. */
  function Slow(others: Interference): World {
    World(k => Broke("unreachable"), None, k => Some(k + 5), k => None, k => "", k => 0, others)
  }

  function Nobody(): Interference { (k, m) => m }

  /** Another worker completes the second file of the task. */
  function SecondWorker(): Interference { (k, m) => Exec(m, MarkCompleted("t", 1, "", 0, 0)).tasks }

  lemma BothGoForward()
    ensures Onward(Nobody()) && Onward(SecondWorker())
  {
    forall k: nat, m ensures OnwardAt(Nobody(), k, m) && OnwardAt(SecondWorker(), k, m) {
      LaterIsReflexive(m);
      CallMovesForward(m, MarkCompleted("t", 1, "", 0, 0));
    }
  }

  predicate IsPair(m: Tasks, a: FileStatus, b: FileStatus) {
    "t" in m && Statuses(m["t"].files) == [a, b] && m["t"].status == StatusOf([a, b])
  }

  lemma PairLooks(m: Tasks, b: FileStatus)
    requires IsPair(m, FileDownloading, b) && (b == FileWaiting || b == FileCompleted)
    ensures StatusAt(m, First) == Some(FileDownloading)
    ensures Looks(m, First, FileError) == if b == FileWaiting then 4 else 5
  {
    assert m["t"].files[0].status == Statuses(m["t"].files)[0];
    assert [FileDownloading, b][0 := FileError] == [FileError, b];
    assert [FileError, b][0] == FileError && [FileError, b][1] == b && [FileDownloading, b][0] == FileDownloading;
  }

  lemma SecondWorkerFinishes(m: Tasks)
    requires IsPair(m, FileDownloading, FileWaiting)
    ensures IsPair(Exec(m, MarkCompleted("t", 1, "", 0, 0)).tasks, FileDownloading, FileCompleted)
  {
    var c := MarkCompleted("t", 1, "", 0, 0);
    assert m["t"].files[1].status == Statuses(m["t"].files)[1];
    var f := MarkedFile(m["t"].files[1], c);
    assert Statuses(m["t"].files[1 := f]) == [FileDownloading, FileCompleted];
  }

  /** The same network, deadlines and store: alone the job marks its file failed; if another worker
      finishes the task's other file first, the failed mark has one more event to write, its context is
      over by then, and the file stays in downloading. */
  lemma OthersDecide(m: Tasks, first: nat)
    requires IsPair(m, FileDownloading, FileWaiting)
    ensures Onward(Nobody()) && Onward(SecondWorker()) && WorkingStore(Slow(Nobody())) && WorkingStore(Slow(SecondWorker()))
    ensures CourseOf(Slow(Nobody()), m, First, 1, first) == GivesUp(first + 1, m) == CourseOf(Slow(SecondWorker()), m, First, 1, first)
    ensures StatusAt(m, First).Some? && StatusAt(Found(Slow(SecondWorker()), m, first + 2), First).Some?
    ensures LeftAt(Slow(Nobody()), First, GivesUp(first + 1, m)) == FileError
    ensures LeftAt(Slow(SecondWorker()), First, GivesUp(first + 1, m)) == FileDownloading
  {
    BothGoForward();
    PairLooks(m, FileWaiting);
    SecondWorkerFinishes(m);
    PairLooks(Exec(m, MarkCompleted("t", 1, "", 0, 0)).tasks, FileCompleted);
  }
}
