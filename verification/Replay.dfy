/** The event types of the write-ahead log. */
module Records {
  import opened Core

  /** What an event says. Unreadable stands for a payload that does not decode, and for an event
      type the program does not know: replay stops with an error on either. */
  datatype Payload =
    | TaskCreated(task: Option<Task>)
    | TaskStatusSet(newStatus: TaskStatus)
    | FileStatusSet(index: int, fileStatus: FileStatus, error: string, size: int)
    | FileMetaSet(metaIndex: int, filename: string, startedAt: Option<Time>, completedAt: Option<Time>)
    | Unreadable

  datatype Event = Event(version: int, taskId: string, createdAt: Time, payload: Payload)

  predicate AllReadable(evs: seq<Event>) {
    forall i :: 0 <= i < |evs| ==> !evs[i].payload.Unreadable?
  }
}

/** What replaying a log does to a task map, and when replaying it twice does no more than once. */
module Replay {
  import opened Core
  import opened Records

  type Tasks = map<string, Task>

  /** The effect on a stored task of one event that names it (anything but its creation). */
  function ApplyToTask(t: Task, ev: Event): (r: Task)
    ensures |r.files| == |t.files|
  {
    match ev.payload
    case TaskStatusSet(st) => t.(status := st, updatedAt := Some(ev.createdAt))
    case FileStatusSet(i, st, err, size) =>
      if 0 <= i < |t.files| then
        var f := t.files[i];
        var f' := f.(status := st, error := err, size := if size > 0 then size else f.size);
        var newer := t.updatedAt.None? || t.updatedAt.value < ev.createdAt;
        UpdateStatus(t.(files := t.files[i := f'],
                        updatedAt := if newer then Some(ev.createdAt) else t.updatedAt),
                     ev.createdAt)
      else t
    case FileMetaSet(i, name, started, completed) =>
      if 0 <= i < |t.files| then
        var f := t.files[i];
        t.(files := t.files[i := f.(filename := if name != "" then name else f.filename,
                                    startedAt := started, completedAt := completed)])
      else t
    case _ => t
  }

  function ApplyEvent(m: Tasks, ev: Event): Tasks {
    match ev.payload
    case TaskCreated(Some(t)) => m[t.id := t]
    case TaskCreated(None) => m
    case _ => if ev.taskId in m then m[ev.taskId := ApplyToTask(m[ev.taskId], ev)] else m
  }

  function Apply(m: Tasks, evs: seq<Event>): Tasks
    decreases |evs|
  {
    if evs == [] then m
    else ApplyEvent(Apply(m, evs[..|evs| - 1]), evs[|evs| - 1])
  }

  lemma {:induction false} ApplyConcat(m: Tasks, a: seq<Event>, b: seq<Event>)
    ensures Apply(m, a + b) == Apply(Apply(m, a), b)
    decreases |b|
  {
    if b == [] {
      assert a + b == a;
    } else {
      var n := |b| - 1;
      assert (a + b)[..|a + b| - 1] == a + b[..n];
      ApplyConcat(m, a, b[..n]);
    }
  }

  lemma ApplyOne(m: Tasks, ev: Event)
    ensures Apply(m, [ev]) == ApplyEvent(m, ev)
  {
    assert [ev][..0] == [];
    assert Apply(m, [ev][..0]) == m;
  }

  /** A list of tasks as a map; a later task of the same id replaces an earlier one. */
  function TasksOf(ts: seq<Task>): Tasks
    decreases |ts|
  {
    if ts == [] then map[] else TasksOf(ts[..|ts| - 1])[ts[|ts| - 1].id := ts[|ts| - 1]]
  }

  /** The map holds, for each id that occurs, the last task of that id. */
  lemma {:induction false} LastTaskWins(ts: seq<Task>, id: string)
    ensures id in TasksOf(ts) <==> exists i :: 0 <= i < |ts| && ts[i].id == id
    ensures
      forall i :: 0 <= i < |ts| && ts[i].id == id && (forall j :: i < j < |ts| ==> ts[j].id != id) ==>
        id in TasksOf(ts) && TasksOf(ts)[id] == ts[i]
    decreases |ts|
  {
    if ts != [] {
      var n := |ts| - 1;
      LastTaskWins(ts[..n], id);
      assert forall i :: 0 <= i < n ==> ts[..n][i] == ts[i];
    }
  }

  // ---------------------------------------------------------------- one task at a time

  function Get(m: Tasks, id: string): Option<Task> {
    if id in m then Some(m[id]) else None
  }

  predicate IsCreation(ev: Event, id: string) {
    ev.payload.TaskCreated? && ev.payload.task.Some? && ev.payload.task.value.id == id
  }

  predicate Concerns(ev: Event, id: string) {
    IsCreation(ev, id) || (!ev.payload.TaskCreated? && ev.taskId == id)
  }

  function Track(t: Option<Task>, id: string, ev: Event): Option<Task> {
    if IsCreation(ev, id) then ev.payload.task
    else if Concerns(ev, id) && t.Some? then Some(ApplyToTask(t.value, ev))
    else t
  }

  /** What a whole log does to the task stored under one id. */
  function TrackAll(t: Option<Task>, id: string, evs: seq<Event>): Option<Task>
    decreases |evs|
  {
    if evs == [] then t
    else Track(TrackAll(t, id, evs[..|evs| - 1]), id, evs[|evs| - 1])
  }

  lemma {:induction false} TaskOfReplay(m: Tasks, evs: seq<Event>, id: string)
    ensures Get(Apply(m, evs), id) == TrackAll(Get(m, id), id, evs)
    decreases |evs|
  {
    if evs != [] {
      TaskOfReplay(m, evs[..|evs| - 1], id);
    }
  }

  function EventsOf(evs: seq<Event>, id: string): seq<Event>
    decreases |evs|
  {
    if evs == [] then []
    else
      var rest := EventsOf(evs[..|evs| - 1], id);
      var ev := evs[|evs| - 1];
      if Concerns(ev, id) then rest + [ev] else rest
  }

  lemma TrackNext(t: Option<Task>, id: string, evs: seq<Event>, ev: Event)
    ensures TrackAll(t, id, evs + [ev]) == Track(TrackAll(t, id, evs), id, ev)
  {
    assert (evs + [ev])[..|evs + [ev]| - 1] == evs;
  }

  /** Replay is local: what becomes of one id depends only on the task stored under it and on the
      events that concern it. */
  lemma {:induction false} ReplayIsLocal(m: Tasks, evs: seq<Event>, id: string)
    ensures Get(Apply(m, evs), id) == TrackAll(Get(m, id), id, EventsOf(evs, id))
    decreases |evs|
  {
    if evs != [] {
      var n := |evs| - 1;
      ReplayIsLocal(m, evs[..n], id);
      TaskOfReplay(m, evs, id);
      TaskOfReplay(m, evs[..n], id);
      TrackNext(Get(m, id), id, EventsOf(evs[..n], id), evs[n]);
    }
  }

  lemma SameTasks(a: Tasks, b: Tasks)
    requires forall id :: Get(a, id) == Get(b, id)
    ensures a == b
  {
    forall id ensures id in a <==> id in b {
      assert Get(a, id) == Get(b, id);
    }
    forall id | id in a ensures a[id] == b[id] {
      assert Get(a, id) == Get(b, id);
    }
  }

  lemma EqualTasks(a: Tasks, b: Tasks)
    requires a.Keys == b.Keys && forall id :: id in a ==> a[id] == b[id]
    ensures a == b
  {
  }

  // ---------------------------------------------------------------- the events of one task

  predicate Creates(id: string, evs: seq<Event>) {
    exists k :: 0 <= k < |evs| && IsCreation(evs[k], id)
  }

  /** The event rewrites Status and may rewrite UpdatedAt of a task with n files. */
  predicate Touches(ev: Event, id: string, n: nat) {
    && Concerns(ev, id)
    && (ev.payload.TaskStatusSet? || (ev.payload.FileStatusSet? && 0 <= ev.payload.index < n))
  }

  function LastTouch(evs: seq<Event>, id: string, n: nat): Option<Time>
    decreases |evs|
  {
    if evs == [] then None
    else if Touches(evs[|evs| - 1], id, n) then Some(evs[|evs| - 1].createdAt)
    else LastTouch(evs[..|evs| - 1], id, n)
  }

  /** The events that concern one task never step back in time. */
  predicate InOrder(id: string, evs: seq<Event>) {
    forall i, j :: 0 <= i < j < |evs| && Concerns(evs[i], id) && Concerns(evs[j], id) ==> evs[i].createdAt <= evs[j].createdAt
  }

  ghost predicate Monotone(evs: seq<Event>) {
    forall id :: InOrder(id, evs)
  }

  lemma MonotoneAppend(evs: seq<Event>, batch: seq<Event>, now: Time)
    requires Monotone(evs) && forall k :: 0 <= k < |evs| ==> evs[k].createdAt <= now
    requires forall k :: 0 <= k < |batch| ==> batch[k].createdAt == now
    ensures Monotone(evs + batch)
  {
    forall id ensures InOrder(id, evs + batch) {
      assert InOrder(id, evs);
    }
  }

  predicate NotAfter(t: Option<Time>, bound: Time) {
    t.Some? ==> t.value <= bound
  }

  predicate AllNotAfter(m: Tasks, now: Time) {
    forall id :: id in m ==> NotAfter(m[id].updatedAt, now)
  }

  /** The last entry that touches the task is not older than its UpdatedAt, unless the log creates
      the task anyway. */
  predicate Settled(t: Task, id: string, evs: seq<Event>) {
    Creates(id, evs)
    || match LastTouch(evs, id, |t.files|)
       case None => true
       case Some(last) => NotAfter(t.updatedAt, last)
  }

  ghost predicate ReplaySafe(m: Tasks, evs: seq<Event>) {
    && Monotone(evs)
    && forall id :: id in m ==> Settled(m[id], id, evs)
  }

  lemma {:induction false} CreationForgets(t: Option<Task>, u: Option<Task>, id: string, evs: seq<Event>)
    requires Creates(id, evs)
    ensures TrackAll(t, id, evs) == TrackAll(u, id, evs)
    decreases |evs|
  {
    var n := |evs| - 1;
    if !IsCreation(evs[n], id) {
      var k :| 0 <= k < |evs| && IsCreation(evs[k], id);
      assert IsCreation(evs[..n][k], id);
      CreationForgets(t, u, id, evs[..n]);
    }
  }

  /** Replay from a stored task keeps it stored, with as many files. */
  lemma {:induction false} StoredStays(t: Task, id: string, evs: seq<Event>)
    requires !Creates(id, evs)
    ensures TrackAll(Some(t), id, evs).Some?
    ensures |TrackAll(Some(t), id, evs).value.files| == |t.files|
    decreases |evs|
  {
    if evs != [] {
      NoCreation(id, evs);
      StoredStays(t, id, evs[..|evs| - 1]);
    }
  }

  lemma NoCreation(id: string, evs: seq<Event>)
    requires evs != [] && !Creates(id, evs)
    ensures !Creates(id, evs[..|evs| - 1]) && !IsCreation(evs[|evs| - 1], id)
  {
    var n := |evs| - 1;
    forall k | 0 <= k < n ensures !IsCreation(evs[..n][k], id) {
      assert evs[..n][k] == evs[k];
    }
  }

  ghost predicate SameOrKept<T>(a: T, b: T, a0: T, b0: T) {
    a == b || (a == a0 && b == b0)
  }

  /** The parts of a file that events write: status and error, size, name, and the two times. */
  datatype Part = StatusPart | SizePart | NamePart | TimesPart

  predicate SamePart(f: File, g: File, part: Part) {
    match part
    case StatusPart => f.status == g.status && f.error == g.error
    case SizePart => f.size == g.size
    case NamePart => f.filename == g.filename
    case TimesPart => f.startedAt == g.startedAt && f.completedAt == g.completedAt
  }

  predicate Writes(ev: Event, id: string, i: nat, part: Part) {
    ev.taskId == id
    && match ev.payload
       case FileStatusSet(index, _, _, size) => index == i && (part.StatusPart? || (part.SizePart? && size > 0))
       case FileMetaSet(index, name, _, _) => index == i && (part.TimesPart? || (part.NamePart? && name != ""))
       case _ => false
  }

  /** Some event of the log writes this part of file i of the task. */
  predicate Written(evs: seq<Event>, id: string, i: nat, part: Part) {
    exists k :: 0 <= k < |evs| && Writes(evs[k], id, i, part)
  }

  lemma WrittenNext(evs: seq<Event>, id: string, i: nat, part: Part)
    requires evs != []
    ensures Written(evs, id, i, part) <==> Written(evs[..|evs| - 1], id, i, part) || Writes(evs[|evs| - 1], id, i, part)
  {
    var before := evs[..|evs| - 1];
    if Written(evs, id, i, part) {
      var k :| 0 <= k < |evs| && Writes(evs[k], id, i, part);
      assert k < |before| ==> before[k] == evs[k];
    }
    if Written(before, id, i, part) {
      var k :| 0 <= k < |before| && Writes(before[k], id, i, part);
      assert evs[k] == before[k];
    }
  }

  /** One event on a file of a task. */
  lemma EventOnPart(t: Task, ev: Event, i: nat, part: Part)
    requires i < |t.files| && !ev.payload.TaskCreated?
    ensures
      var f := ApplyToTask(t, ev).files[i];
      f.url == t.files[i].url && (!Writes(ev, ev.taskId, i, part) ==> SamePart(f, t.files[i], part))
  {
  }

  lemma WritingAgrees(t: Task, u: Task, ev: Event, i: nat, part: Part)
    requires i < |t.files| && i < |u.files| && Writes(ev, ev.taskId, i, part)
    ensures SamePart(ApplyToTask(t, ev).files[i], ApplyToTask(u, ev).files[i], part)
  {
  }

  /** Two replays of one log from different starts: a part of a file that some event writes ends up the
      same in both, and one that no event writes is what it was in each. */
  lemma {:induction false} PartAgrees(t: Task, u: Task, id: string, evs: seq<Event>, i: nat, part: Part)
    requires !Creates(id, evs) && |t.files| == |u.files| && i < |t.files|
    ensures TrackAll(Some(t), id, evs).Some? && TrackAll(Some(u), id, evs).Some?
    ensures
      var a, b := TrackAll(Some(t), id, evs).value, TrackAll(Some(u), id, evs).value;
      && |a.files| == |b.files| == |t.files|
      && a.files[i].url == t.files[i].url && b.files[i].url == u.files[i].url
      && if Written(evs, id, i, part) then SamePart(a.files[i], b.files[i], part)
         else SamePart(a.files[i], t.files[i], part) && SamePart(b.files[i], u.files[i], part)
    decreases |evs|
  {
    StoredStays(t, id, evs);
    StoredStays(u, id, evs);
    if evs != [] {
      NoCreation(id, evs);
      var (before, ev) := (evs[..|evs| - 1], evs[|evs| - 1]);
      PartAgrees(t, u, id, before, i, part);
      WrittenNext(evs, id, i, part);
      var a, b := TrackAll(Some(t), id, before).value, TrackAll(Some(u), id, before).value;
      if Concerns(ev, id) {
        EventOnPart(a, ev, i, part);
        EventOnPart(b, ev, i, part);
        if Writes(ev, id, i, part) {
          WritingAgrees(a, b, ev, i, part);
        } else if Written(before, id, i, part) {
          KeptAgrees(a, b, ev, i, part);
        }
      }
    }
  }

  lemma KeptAgrees(a: Task, b: Task, ev: Event, i: nat, part: Part)
    requires i < |a.files| && i < |b.files| && !ev.payload.TaskCreated? && SamePart(a.files[i], b.files[i], part)
    requires !Writes(ev, ev.taskId, i, part)
    ensures SamePart(ApplyToTask(a, ev).files[i], ApplyToTask(b, ev).files[i], part)
  {
    EventOnPart(a, ev, i, part);
    EventOnPart(b, ev, i, part);
  }

  lemma SameFile(f: File, g: File)
    requires f.url == g.url && forall part :: SamePart(f, g, part)
    ensures f == g
  {
    assert SamePart(f, g, StatusPart) && SamePart(f, g, SizePart) && SamePart(f, g, NamePart) && SamePart(f, g, TimesPart);
  }

  /** The same for the task's own fields that an event writes: its status is untouched, or equal in
      both replays, or computed from the files in both. */
  lemma {:induction false} StatusAgrees(t: Task, u: Task, id: string, evs: seq<Event>)
    requires !Creates(id, evs) && |t.files| == |u.files|
    ensures TrackAll(Some(t), id, evs).Some? && TrackAll(Some(u), id, evs).Some?
    ensures
      var a, b := TrackAll(Some(t), id, evs).value, TrackAll(Some(u), id, evs).value;
      && (|| SameOrKept(a.status, b.status, t.status, u.status)
          || (a.status == ObtainStatus(a.files) && b.status == ObtainStatus(b.files)))
      && a.id == t.id && a.urls == t.urls && a.createdAt == t.createdAt
    decreases |evs|
  {
    StoredStays(t, id, evs);
    StoredStays(u, id, evs);
    if evs != [] {
      NoCreation(id, evs);
      var n := |evs| - 1;
      StatusAgrees(t, u, id, evs[..n]);
      StoredStays(t, id, evs[..n]);
      StoredStays(u, id, evs[..n]);
      var a, b := TrackAll(Some(t), id, evs[..n]).value, TrackAll(Some(u), id, evs[..n]).value;
      if evs[n].payload.FileMetaSet? {
        MetaKeepsStatuses(a, evs[n]);
        MetaKeepsStatuses(b, evs[n]);
      }
    }
  }

  lemma MetaKeepsStatuses(t: Task, ev: Event)
    requires ev.payload.FileMetaSet?
    ensures Statuses(ApplyToTask(t, ev).files) == Statuses(t.files)
  {
  }

  // ---------------------------------------------------------------- the time a replay leaves

  function LaterOf(a: Option<Time>, b: Option<Time>): Option<Time> {
    if a.None? || (b.Some? && a.value < b.value) then b else a
  }

  /** The event sets UpdatedAt of this task to its own time, newer or not: it names a status, or the
      status derived from the files changes with it. */
  predicate Forced(t: Task, ev: Event) {
    ev.payload.TaskStatusSet? || (ev.payload.FileStatusSet? && ApplyToTask(t, ev).status != t.status)
  }

  predicate TouchesNow(t: Option<Task>, id: string, ev: Event) {
    t.Some? && Touches(ev, id, |t.value.files|)
  }

  /** Some event of the log, replayed from t, sets UpdatedAt in any case. */
  predicate Forces(t: Option<Task>, id: string, evs: seq<Event>)
    decreases |evs|
  {
    evs != []
    && var (ev, before) := (evs[|evs| - 1], evs[..|evs| - 1]);
       Forces(t, id, before) || (var s := TrackAll(t, id, before); TouchesNow(s, id, ev) && Forced(s.value, ev))
  }

  /** The latest time of a touching event from the last one that sets it in any case, or of all. */
  function Latest(t: Option<Task>, id: string, evs: seq<Event>): Option<Time>
    decreases |evs|
  {
    if evs == [] then None
    else
      var (ev, before) := (evs[|evs| - 1], evs[..|evs| - 1]);
      var s := TrackAll(t, id, before);
      if !TouchesNow(s, id, ev) then Latest(t, id, before)
      else if Forced(s.value, ev) then Some(ev.createdAt)
      else LaterOf(Latest(t, id, before), Some(ev.createdAt))
  }

  lemma {:induction false} TimeAfterReplay(t: Task, id: string, evs: seq<Event>)
    requires !Creates(id, evs)
    ensures var a := TrackAll(Some(t), id, evs);
      a.Some? && a.value.updatedAt
      == if Forces(Some(t), id, evs) then Latest(Some(t), id, evs) else LaterOf(t.updatedAt, Latest(Some(t), id, evs))
    decreases |evs|
  {
    StoredStays(t, id, evs);
    if evs != [] {
      NoCreation(id, evs);
      TimeAfterReplay(t, id, evs[..|evs| - 1]);
    }
  }

  lemma {:induction false} LastTouchBounded(id: string, evs: seq<Event>, n: nat, bound: Time)
    requires forall k :: 0 <= k < |evs| && Concerns(evs[k], id) ==> evs[k].createdAt <= bound
    ensures NotAfter(LastTouch(evs, id, n), bound)
    decreases |evs|
  {
    if evs != [] {
      LastTouchBounded(id, evs[..|evs| - 1], n, bound);
    }
  }

  /** In an ordered log the last touching event is the latest, wherever replay starts. */
  lemma {:induction false} LatestIsLastTouch(t: Task, id: string, evs: seq<Event>)
    requires !Creates(id, evs) && InOrder(id, evs)
    ensures Latest(Some(t), id, evs) == LastTouch(evs, id, |t.files|)
    ensures Forces(Some(t), id, evs) ==> LastTouch(evs, id, |t.files|).Some?
    decreases |evs|
  {
    if evs != [] {
      NoCreation(id, evs);
      var n := |evs| - 1;
      StoredStays(t, id, evs[..n]);
      LatestIsLastTouch(t, id, evs[..n]);
      if Concerns(evs[n], id) {
        LastTouchBounded(id, evs[..n], |t.files|, evs[n].createdAt);
      }
    }
  }

  // ---------------------------------------------------------------- replaying twice

  /** Whatever the clock did, a second replay changes nothing of a task but UpdatedAt. */
  lemma {:induction false} OnlyTheTimeChanges(t: Task, id: string, evs: seq<Event>)
    requires !Creates(id, evs)
    ensures
      var a := TrackAll(Some(t), id, evs);
      var b := TrackAll(a, id, evs);
      a.Some? && b.Some? && b.value == a.value.(updatedAt := b.value.updatedAt)
  {
    StoredStays(t, id, evs);
    var a := TrackAll(Some(t), id, evs).value;
    StoredStays(a, id, evs);
    var b := TrackAll(Some(a), id, evs).value;
    forall i | 0 <= i < |t.files| ensures a.files[i] == b.files[i] {
      PartAgrees(t, a, id, evs, i, StatusPart);
      forall part ensures SamePart(a.files[i], b.files[i], part) {
        PartAgrees(t, a, id, evs, i, part);
      }
      SameFile(a.files[i], b.files[i]);
    }
    assert a.files == b.files;
    StatusAgrees(t, a, id, evs);
    StatusAgrees(a, a, id, evs);
  }

  /** The first replay of the log left a time that a second one leaves as it is: the second does not
      set it anyway and none of its events is newer, or it sets it and ends at the same time. */
  predicate TimeRepeats(t: Task, id: string, evs: seq<Event>) {
    Creates(id, evs)
    || var a := TrackAll(Some(t), id, evs);
       a.Some?
       && if Forces(a, id, evs) then a.value.updatedAt == Latest(a, id, evs)
          else LaterOf(a.value.updatedAt, Latest(a, id, evs)) == a.value.updatedAt
  }

  /** What a second replay leaves of one task, in any log. */
  lemma {:induction false} SecondReplay(m: Tasks, id: string, evs: seq<Event>)
    ensures
      var (once, twice) := (Get(Apply(m, evs), id), Get(Apply(Apply(m, evs), evs), id));
      && (twice.Some? <==> once.Some?)
      && (once.Some? ==> twice.value == once.value.(updatedAt := twice.value.updatedAt))
      && (twice == once <==> (id in m ==> TimeRepeats(m[id], id, evs)))
  {
    var once := Apply(m, evs);
    TaskOfReplay(m, evs, id);
    TaskOfReplay(once, evs, id);
    if Creates(id, evs) {
      CreationForgets(Get(m, id), Get(once, id), id, evs);
    } else if id in m {
      OnlyTheTimeChanges(m[id], id, evs);
      TimeAfterReplay(once[id], id, evs);
    } else {
      AbsentStays(id, evs);
    }
  }

  /** For every log and every base: a second replay changes no task but for its UpdatedAt, and not that
      exactly if the time of every task repeats. */
  lemma DoubleReplayIff(m: Tasks, evs: seq<Event>)
    ensures
      var (once, twice) := (Apply(m, evs), Apply(Apply(m, evs), evs));
      && twice.Keys == once.Keys
      && (forall id :: id in once ==> twice[id] == once[id].(updatedAt := twice[id].updatedAt))
      && (twice == once <==> forall id :: id in m ==> TimeRepeats(m[id], id, evs))
  {
    var once := Apply(m, evs);
    var twice := Apply(once, evs);
    forall id
      ensures id in twice <==> id in once
      ensures id in once ==> twice[id] == once[id].(updatedAt := twice[id].updatedAt)
      ensures Get(twice, id) == Get(once, id) <==> (id in m ==> TimeRepeats(m[id], id, evs))
    {
      SecondReplay(m, id, evs);
    }
    if forall id :: id in m ==> TimeRepeats(m[id], id, evs) {
      SameTasks(twice, once);
    }
  }

  /** For a log in order, the condition in terms of base and log: the task is not newer than its last
      touching event, or that time is set in any case, or a second replay does not set it. */
  lemma RepeatsInOrder(t: Task, id: string, evs: seq<Event>)
    requires InOrder(id, evs)
    ensures
      TimeRepeats(t, id, evs)
      <==> Settled(t, id, evs) || Forces(Some(t), id, evs) || !Forces(TrackAll(Some(t), id, evs), id, evs)
  {
    if !Creates(id, evs) {
      StoredStays(t, id, evs);
      var a := TrackAll(Some(t), id, evs).value;
      TimeAfterReplay(t, id, evs);
      LatestIsLastTouch(t, id, evs);
      LatestIsLastTouch(a, id, evs);
    }
  }

  /** The log sets the status of the task by an event of its own. */
  predicate SetsStatus(evs: seq<Event>, id: string) {
    exists k :: 0 <= k < |evs| && Concerns(evs[k], id) && evs[k].payload.TaskStatusSet?
  }

  lemma {:induction false} StatusEventForces(t: Task, id: string, evs: seq<Event>)
    requires !Creates(id, evs) && SetsStatus(evs, id)
    ensures Forces(Some(t), id, evs)
    decreases |evs|
  {
    var n := |evs| - 1;
    NoCreation(id, evs);
    StoredStays(t, id, evs[..n]);
    var k :| 0 <= k < |evs| && Concerns(evs[k], id) && evs[k].payload.TaskStatusSet?;
    if k < n {
      assert evs[..n][k] == evs[k];
      StatusEventForces(t, id, evs[..n]);
    }
  }

  /** An ordered log with a task-status event of the task repeats its time, whatever the base. */
  lemma StatusEventRepeats(t: Task, id: string, evs: seq<Event>)
    requires InOrder(id, evs) && SetsStatus(evs, id)
    ensures TimeRepeats(t, id, evs)
  {
    RepeatsInOrder(t, id, evs);
    if !Creates(id, evs) {
      StatusEventForces(t, id, evs);
    }
  }

  /** After a settled replay of an ordered log the task carries the time of its last touching event. */
  lemma UpdatedAtIsLastTouch(t: Task, id: string, evs: seq<Event>)
    requires !Creates(id, evs) && InOrder(id, evs) && Settled(t, id, evs)
    ensures TrackAll(Some(t), id, evs).Some?
    ensures
      TrackAll(Some(t), id, evs).value.updatedAt
      == if LastTouch(evs, id, |t.files|).Some? then LastTouch(evs, id, |t.files|) else t.updatedAt
  {
    TimeAfterReplay(t, id, evs);
    LatestIsLastTouch(t, id, evs);
  }

  lemma SettledStays(t: Task, id: string, evs: seq<Event>)
    requires !Creates(id, evs) && InOrder(id, evs) && Settled(t, id, evs)
    ensures TrackAll(Some(t), id, evs).Some? && Settled(TrackAll(Some(t), id, evs).value, id, evs)
  {
    StoredStays(t, id, evs);
    UpdatedAtIsLastTouch(t, id, evs);
  }

  /** Replaying a log over a map that already contains its effect changes nothing, field by field,
      and the same holds for every log that continues it. */
  lemma DoubleReplay(m: Tasks, evs: seq<Event>)
    requires ReplaySafe(m, evs)
    ensures Apply(Apply(m, evs), evs) == Apply(m, evs)
    ensures ReplaySafe(Apply(m, evs), evs)
  {
    var once := Apply(m, evs);
    forall id | id in m ensures TimeRepeats(m[id], id, evs) {
      RepeatsInOrder(m[id], id, evs);
    }
    DoubleReplayIff(m, evs);
    forall id | id in once ensures Settled(once[id], id, evs) {
      TaskOfReplay(m, evs, id);
      if Creates(id, evs) {
      } else if id in m {
        SettledStays(m[id], id, evs);
      } else {
        AbsentStays(id, evs);
      }
    }
  }

  lemma {:induction false} AbsentStays(id: string, evs: seq<Event>)
    requires !Creates(id, evs)
    ensures TrackAll(None, id, evs) == None
    decreases |evs|
  {
    if evs != [] {
      NoCreation(id, evs);
      AbsentStays(id, evs[..|evs| - 1]);
    }
  }
}
