/** URL clean-up for a new task. */
module Urls {
  import opened Core

  datatype UrlError = NoUrls | EmptyUrl

  /** The characters Go's unicode.IsSpace accepts. */
  predicate IsSpace(c: char) {
    || '\U{0009}' <= c <= '\U{000D}'
    || c in {' ', '\U{0085}', '\U{00A0}', '\U{1680}', '\U{2028}', '\U{2029}', '\U{202F}', '\U{205F}', '\U{3000}'}
    || '\U{2000}' <= c <= '\U{200A}'
  }

  /** In Latin-1 these are the tab, the four line breaks, the space, next line and the no-break space. */
  lemma SpacesOfLatin1(c: char)
    requires c < '\U{100}'
    ensures IsSpace(c) <==> c in {'\t', '\n', '\U{b}', '\U{c}', '\r', ' ', '\U{85}', '\U{a0}'}
  {
  }

  function TrimLeft(s: string): string {
    if s != "" && IsSpace(s[0]) then TrimLeft(s[1..]) else s
  }

  function TrimRight(s: string): string {
    if s != "" && IsSpace(s[|s| - 1]) then TrimRight(s[..|s| - 1]) else s
  }

  function Trim(s: string): string {
    TrimRight(TrimLeft(s))
  }

  /** No white space at either end. */
  predicate Trimmed(s: string) {
    s != "" ==> !IsSpace(s[0]) && !IsSpace(s[|s| - 1])
  }

  lemma {:induction false} TrimLeftWorks(s: string)
    ensures var r := TrimLeft(s); r != "" ==> !IsSpace(r[0])
  {
    if s != "" && IsSpace(s[0]) { TrimLeftWorks(s[1..]); }
  }

  lemma {:induction false} TrimRightWorks(s: string)
    ensures var r := TrimRight(s); r <= s && (r != "" ==> !IsSpace(r[|r| - 1]))
  {
    if s != "" && IsSpace(s[|s| - 1]) { TrimRightWorks(s[..|s| - 1]); }
  }

  lemma TrimTwice(s: string)
    ensures Trimmed(Trim(s)) && Trim(Trim(s)) == Trim(s)
  {
    TrimLeftWorks(s);
    TrimRightWorks(TrimLeft(s));
  }

  function TrimAll(urls: seq<string>): (r: seq<string>)
    ensures |r| == |urls| && forall i :: 0 <= i < |urls| ==> r[i] == Trim(urls[i])
  {
    seq(|urls|, i requires 0 <= i < |urls| => Trim(urls[i]))
  }

  /** First occurrences, in order. */
  function Distinct(s: seq<string>): seq<string>
    decreases |s|
  {
    if s == [] then []
    else
      var d := Distinct(s[..|s| - 1]);
      if s[|s| - 1] in d then d else d + [s[|s| - 1]]
  }

  lemma {:induction false} DistinctKeepsMembers(s: seq<string>)
    ensures forall x :: x in Distinct(s) <==> x in s
    ensures forall i, j :: 0 <= i < j < |Distinct(s)| ==> Distinct(s)[i] != Distinct(s)[j]
    decreases |s|
  {
    if s != [] {
      DistinctKeepsMembers(s[..|s| - 1]);
      assert s == s[..|s| - 1] + [s[|s| - 1]];
    }
  }

  function Normalize(urls: seq<string>): Result<seq<string>, UrlError> {
    if urls == [] then Failure(NoUrls)
    else if exists i :: 0 <= i < |urls| && Trim(urls[i]) == "" then Failure(EmptyUrl)
    else Success(Distinct(TrimAll(urls)))
  }

  lemma {:induction false} DistinctOfDistinct(s: seq<string>)
    requires forall i, j :: 0 <= i < j < |s| ==> s[i] != s[j]
    ensures Distinct(s) == s
    decreases |s|
  {
    if s != [] {
      var n := |s| - 1;
      DistinctOfDistinct(s[..n]);
      assert s == s[..n] + [s[n]];
    }
  }

  /** The cleaned list is not empty, has no duplicates and no empty or padded entry, holds exactly
      the trimmed inputs, and is left alone by a second clean-up. */
  lemma NormalizeIsIdempotent(urls: seq<string>)
    requires Normalize(urls).Success?
    ensures
      var r := Normalize(urls).value;
      && r != []
      && (forall i, j :: 0 <= i < j < |r| ==> r[i] != r[j])
      && (forall i :: 0 <= i < |r| ==> r[i] != "" && Trim(r[i]) == r[i])
      && (forall i :: 0 <= i < |urls| ==> Trim(urls[i]) in r)
      && (forall x :: x in r ==> exists i :: 0 <= i < |urls| && x == Trim(urls[i]))
      && Normalize(r) == Success(r)
  {
    var t := TrimAll(urls);
    var r := Distinct(t);
    DistinctKeepsMembers(t);
    assert t[0] in r;
    forall x | x in r ensures x != "" && Trim(x) == x && exists i :: 0 <= i < |urls| && x == Trim(urls[i]) {
      var i :| 0 <= i < |t| && t[i] == x;
      TrimTwice(urls[i]);
    }
    forall i | 0 <= i < |urls| ensures Trim(urls[i]) in r {
      assert t[i] in t;
    }
    assert forall i :: 0 <= i < |r| ==> r[i] in r;
    assert TrimAll(r) == r;
    DistinctOfDistinct(r);
  }

  predicate AllSpace(s: string) {
    forall i :: 0 <= i < |s| ==> IsSpace(s[i])
  }

  lemma {:induction false} TrimLeftTakesOff(s: string) returns (a: string)
    ensures AllSpace(a) && s == a + TrimLeft(s)
  {
    if s != "" && IsSpace(s[0]) {
      a := TrimLeftTakesOff(s[1..]);
      a := [s[0]] + a;
    } else {
      a := "";
    }
  }

  lemma {:induction false} TrimRightTakesOff(s: string) returns (b: string)
    ensures AllSpace(b) && s == TrimRight(s) + b
  {
    if s != "" && IsSpace(s[|s| - 1]) {
      b := TrimRightTakesOff(s[..|s| - 1]);
      b := b + [s[|s| - 1]];
    } else {
      b := "";
    }
  }

  /** Trimming takes off white space at both ends, all of it and nothing else. */
  lemma TrimTakesOff(s: string) returns (a: string, b: string)
    ensures AllSpace(a) && AllSpace(b) && s == a + Trim(s) + b && Trimmed(Trim(s))
  {
    TrimTwice(s);
    a := TrimLeftTakesOff(s);
    b := TrimRightTakesOff(TrimLeft(s));
  }

  /** The places where the entries of d stand in s for the first time, ascending. */
  predicate FirstPlaces(s: seq<string>, d: seq<string>, at: seq<nat>) {
    && |at| == |d| && (forall k :: 0 <= k < |at| ==> at[k] < |s| && d[k] == s[at[k]] && d[k] !in s[..at[k]])
    && forall j, k :: 0 <= j < k < |at| ==> at[j] < at[k]
  }

  lemma {:induction false} DistinctInOrder(s: seq<string>) returns (at: seq<nat>)
    ensures FirstPlaces(s, Distinct(s), at)
    decreases |s|
  {
    if s == [] {
      at := [];
    } else {
      var n := |s| - 1;
      at := DistinctInOrder(s[..n]);
      DistinctKeepsMembers(s[..n]);
      assert forall k :: 0 <= k < |at| ==> s[..n][..at[k]] == s[..at[k]];
      if s[n] !in Distinct(s[..n]) {
        at := at + [n];
      }
    }
  }

  /** A list is turned down exactly if it is empty or has a blank entry; otherwise the cleaned list holds the
      trimmed entries in the order in which each stands there first. */
  lemma NormalizeAnswers(urls: seq<string>) returns (at: seq<nat>)
    ensures Normalize(urls) == Failure(NoUrls) <==> urls == []
    ensures Normalize(urls) == Failure(EmptyUrl) <==> exists i :: 0 <= i < |urls| && AllSpace(urls[i])
    ensures Normalize(urls).Success? ==> FirstPlaces(TrimAll(urls), Normalize(urls).value, at)
  {
    forall i | 0 <= i < |urls| ensures Trim(urls[i]) == "" <==> AllSpace(urls[i]) {
      var a, b := TrimTakesOff(urls[i]);
      var t := Trim(urls[i]);
      if t != "" {
        assert urls[i][|a|] == t[0];
      }
    }
    at := DistinctInOrder(TrimAll(urls));
  }

  lemma DistinctStep(s: seq<string>, i: nat)
    requires i < |s|
    ensures
      var d := Distinct(s[..i]);
      Distinct(s[..i + 1]) == if s[i] in d then d else d + [s[i]]
  {
    assert s[..i + 1][..i] == s[..i];
  }

  /** The clean-up as the program runs it: one pass with a set of what it has seen. */
  method NormalizeUrls(urls: seq<string>) returns (r: Result<seq<string>, UrlError>)
    ensures r == Normalize(urls)
  {
    if |urls| == 0 {
      return Failure(NoUrls);
    }
    var curls: seq<string> := [];
    var seen: set<string> := {};
    ghost var t := TrimAll(urls);
    for i := 0 to |urls|
      invariant forall k :: 0 <= k < i ==> |t[k]| > 0
      invariant curls == Distinct(t[..i])
      invariant forall u :: u in seen <==> u in curls
    {
      var u := Trim(urls[i]);
      if |u| == 0 {
        return Failure(EmptyUrl);
      }
      DistinctStep(t, i);
      if u in seen {
        continue;
      }
      seen := seen + {u};
      curls := curls + [u];
    }
    assert t[..|urls|] == t;
    return Success(curls);
  }
}

/** What each call of the task service does to the task map, which events it logs, and what the
    logged events recover. */
module Calls {
  import opened Core
  import opened Records
  import opened Replay
  import Urls

  datatype Call =
    | Create(id: string, rawUrls: seq<string>, now: Time)
    | MarkStarted(id: string, index: int, now: Time)
    | MarkQueued(id: string, index: int, now: Time)
    | MarkCompleted(id: string, index: int, filename: string, size: int, now: Time)
    | MarkFailed(id: string, index: int, msg: string, now: Time)

  datatype Rejection =
    | BadUrls(why: Urls.UrlError)
    | AlreadyExists
    | NotFound
    | BadIndex
    | BadSize
    | AlreadyCompleted

  datatype Outcome = Outcome(tasks: Tasks, events: seq<Event>, result: Result<Task, Rejection>)

  const LogVersion := 1

  // ---------------------------------------------------------------- one file

  function StartedFile(f: File, now: Time): File {
    f.(status := FileDownloading, error := "", startedAt := Some(now))
  }

  function QueuedFile(f: File): File {
    f.(status := FileQueued, error := "")
  }

  function CompletedFile(f: File, filename: string, size: int, now: Time): File {
    f.(status := FileCompleted, completedAt := Some(now),
       startedAt := if f.startedAt.None? then Some(now) else f.startedAt,
       filename := Urls.Trim(filename), size := size, error := "")
  }

  function FailedFile(f: File, msg: string, now: Time): File {
    f.(status := FileError, error := Urls.Trim(msg), completedAt := Some(now),
       startedAt := if f.startedAt.None? then Some(now) else f.startedAt)
  }

  /** The task after one of its files became f. */
  function WithFile(t: Task, index: nat, f: File, now: Time): Task
    requires index < |t.files|
  {
    UpdateStatus(t.(files := t.files[index := f], updatedAt := Some(now)), now)
  }

  function FileEvents(id: string, index: int, f: File, newStatus: TaskStatus, prevStatus: TaskStatus,
                      now: Time, includeMetadata: bool): seq<Event>
  {
    [Event(LogVersion, id, now, FileStatusSet(index, f.status, f.error, f.size))]
    + (if includeMetadata
       then [Event(LogVersion, id, now, FileMetaSet(index, f.filename, f.startedAt, f.completedAt))] else [])
    + (if newStatus != prevStatus then [Event(LogVersion, id, now, TaskStatusSet(newStatus))] else [])
  }

  // ---------------------------------------------------------------- one call

  function Reject(m: Tasks, why: Rejection): Outcome {
    Outcome(m, [], Failure(why))
  }

  function ChangeFile(m: Tasks, id: string, index: nat, f: File, now: Time, includeMetadata: bool): Outcome
    requires id in m && index < |m[id].files|
  {
    var t := WithFile(m[id], index, f, now);
    Outcome(m[id := t], FileEvents(id, index, f, t.status, m[id].status, now, includeMetadata), Success(t))
  }

  function ExecMark(m: Tasks, c: Call): Outcome
    requires !c.Create?
  {
    if c.MarkCompleted? && c.size < 0 then Reject(m, BadSize)
    else if c.id !in m then Reject(m, NotFound)
    else if !(0 <= c.index < |m[c.id].files|) then Reject(m, BadIndex)
    else
      var f := m[c.id].files[c.index];
      if c.MarkQueued? then
        if IsFinished(f.status) || IsBusy(f.status) then Outcome(m, [], Success(m[c.id]))
        else ChangeFile(m, c.id, c.index, QueuedFile(f), c.now, false)
      else if f.status == FileCompleted then Reject(m, AlreadyCompleted)
      else ChangeFile(m, c.id, c.index, MarkedFile(f, c), c.now, true)
  }

  function MarkedFile(f: File, c: Call): File
    requires !c.Create? && !c.MarkQueued?
  {
    match c
    case MarkStarted(_, _, now) => StartedFile(f, now)
    case MarkCompleted(_, _, filename, size, now) => CompletedFile(f, filename, size, now)
    case MarkFailed(_, _, msg, now) => FailedFile(f, msg, now)
  }

  function Exec(m: Tasks, c: Call): Outcome {
    if c.Create? then
      match Urls.Normalize(c.rawUrls)
      case Failure(why) => Reject(m, BadUrls(why))
      case Success(urls) =>
        if c.id in m then Reject(m, AlreadyExists)
        else
          var t := NewTask(c.id, c.now, urls);
          Outcome(m[c.id := t], [Event(LogVersion, c.id, c.now, TaskCreated(Some(t)))], Success(t))
    else ExecMark(m, c)
  }

  // ---------------------------------------------------------------- what every call keeps

  /** Only a completed file has a size or a name. */
  predicate GoodFile(f: File) {
    && f.size >= 0
    && (f.size > 0 || f.filename != "" ==> f.status == FileCompleted)
  }

  predicate GoodTask(t: Task) {
    && t.files != []
    && t.status == ObtainStatus(t.files)
    && forall i :: 0 <= i < |t.files| ==> GoodFile(t.files[i])
  }

  predicate Good(m: Tasks) {
    forall id :: id in m ==> m[id].id == id && GoodTask(m[id])
  }

  lemma WithFileKeepsGood(t: Task, index: nat, f: File, now: Time)
    requires GoodTask(t) && index < |t.files| && GoodFile(f)
    ensures GoodTask(WithFile(t, index, f, now)) && WithFile(t, index, f, now).id == t.id
    ensures WithFile(t, index, f, now).updatedAt == Some(now)
  {
  }

  lemma NewTaskIsGood(id: string, now: Time, urls: seq<string>)
    requires urls != []
    ensures GoodTask(NewTask(id, now, urls))
  {
  }

  lemma ExecMarkKeepsGood(m: Tasks, c: Call)
    requires Good(m) && !c.Create?
    ensures Good(ExecMark(m, c).tasks)
    ensures AllNotAfter(m, c.now) ==> AllNotAfter(ExecMark(m, c).tasks, c.now)
  {
    if ExecMark(m, c).events != [] {
      ChangesAreExpressible(m, c);
      var was := m[c.id].files[c.index];
      assert GoodFile(was);
      var f := if c.MarkQueued? then QueuedFile(was) else MarkedFile(was, c);
      WithFileKeepsGood(m[c.id], c.index, f, c.now);
    }
  }

  lemma ExecCreateKeepsGood(m: Tasks, c: Call)
    requires Good(m) && c.Create?
    ensures Good(Exec(m, c).tasks)
    ensures AllNotAfter(m, c.now) ==> AllNotAfter(Exec(m, c).tasks, c.now)
  {
    if Urls.Normalize(c.rawUrls).Success? {
      Urls.NormalizeIsIdempotent(c.rawUrls);
      NewTaskIsGood(c.id, c.now, Urls.Normalize(c.rawUrls).value);
    }
  }

  lemma EventsOfMark(m: Tasks, c: Call)
    requires !c.Create?
    ensures AllReadable(ExecMark(m, c).events)
    ensures
      forall i :: 0 <= i < |ExecMark(m, c).events| ==>
        ExecMark(m, c).events[i].createdAt == c.now && ExecMark(m, c).events[i].taskId == c.id
    ensures forall i :: 0 <= i < |ExecMark(m, c).events| ==> !ExecMark(m, c).events[i].payload.TaskCreated?
  {
  }

  lemma ExecKeepsGood(m: Tasks, c: Call)
    requires Good(m)
    ensures Good(Exec(m, c).tasks)
    ensures AllNotAfter(m, c.now) ==> AllNotAfter(Exec(m, c).tasks, c.now)
    ensures AllReadable(Exec(m, c).events)
    ensures forall i :: 0 <= i < |Exec(m, c).events| ==> Exec(m, c).events[i].createdAt == c.now
  {
    if c.Create? {
      ExecCreateKeepsGood(m, c);
    } else {
      ExecMarkKeepsGood(m, c);
      EventsOfMark(m, c);
    }
  }

  // ---------------------------------------------------------------- what the events recover

  lemma ApplyTwo(m: Tasks, a: Event, b: Event)
    ensures Apply(m, [a, b]) == ApplyEvent(ApplyEvent(m, a), b)
  {
    assert [a, b][..1] == [a];
    ApplyOne(m, a);
  }

  /** Replaying the file-status event of a change. */
  function AfterStatusEvent(t: Task, index: nat, f: File, now: Time): Task
    requires index < |t.files|
  {
    ApplyToTask(t, Event(LogVersion, t.id, now, FileStatusSet(index, f.status, f.error, f.size)))
  }

  /** The events keep a size of zero and an empty name from reaching the stored file. */
  predicate Expressible(was: File, f: File, includeMetadata: bool) {
    && f.url == was.url
    && (f.size > 0 || f.size == was.size)
    && (includeMetadata ==> f.filename != "" || was.filename == "")
    && (!includeMetadata ==> f.filename == was.filename && f.startedAt == was.startedAt && f.completedAt == was.completedAt)
  }

  lemma StatusThenMeta(t: Task, index: nat, f: File, now: Time)
    requires index < |t.files| && Expressible(t.files[index], f, true) && NotAfter(t.updatedAt, now)
    ensures
      ApplyToTask(AfterStatusEvent(t, index, f, now),
                  Event(LogVersion, t.id, now, FileMetaSet(index, f.filename, f.startedAt, f.completedAt)))
      == WithFile(t, index, f, now)
  {
    var a := AfterStatusEvent(t, index, f, now);
    var b := ApplyToTask(a, Event(LogVersion, t.id, now, FileMetaSet(index, f.filename, f.startedAt, f.completedAt)));
    var w := WithFile(t, index, f, now);
    assert b.files == w.files;
    assert Statuses(a.files) == Statuses(w.files);
  }

  lemma StatusAlone(t: Task, index: nat, f: File, now: Time)
    requires index < |t.files| && Expressible(t.files[index], f, false) && NotAfter(t.updatedAt, now)
    ensures AfterStatusEvent(t, index, f, now) == WithFile(t, index, f, now)
  {
    assert AfterStatusEvent(t, index, f, now).files == WithFile(t, index, f, now).files;
  }

  predicate IsTaskStatus(ev: Event) { ev.payload.TaskStatusSet? }

  function WithoutTaskStatus(evs: seq<Event>): seq<Event>
    decreases |evs|
  {
    if evs == [] then []
    else
      var rest := WithoutTaskStatus(evs[..|evs| - 1]);
      if IsTaskStatus(evs[|evs| - 1]) then rest else rest + [evs[|evs| - 1]]
  }

  lemma {:induction false} WithoutTaskStatusConcat(a: seq<Event>, b: seq<Event>)
    ensures WithoutTaskStatus(a + b) == WithoutTaskStatus(a) + WithoutTaskStatus(b)
    decreases |b|
  {
    if b == [] {
      assert a + b == a;
    } else {
      var n := |b| - 1;
      assert (a + b)[..|a + b| - 1] == a + b[..n];
      WithoutTaskStatusConcat(a, b[..n]);
    }
  }

  function StatusEvent(id: string, index: int, f: File, now: Time): Event {
    Event(LogVersion, id, now, FileStatusSet(index, f.status, f.error, f.size))
  }

  function MetaEvent(id: string, index: int, f: File, now: Time): Event {
    Event(LogVersion, id, now, FileMetaSet(index, f.filename, f.startedAt, f.completedAt))
  }

  function TaskEvent(id: string, st: TaskStatus, now: Time): Event {
    Event(LogVersion, id, now, TaskStatusSet(st))
  }

  /** The events up to the task-status event, and what they recover. */
  function FilePart(id: string, index: int, f: File, now: Time, meta: bool): seq<Event> {
    if meta then [StatusEvent(id, index, f, now), MetaEvent(id, index, f, now)] else [StatusEvent(id, index, f, now)]
  }

  lemma FilePartRecovers(m: Tasks, id: string, index: nat, f: File, now: Time, meta: bool)
    requires id in m && index < |m[id].files| && m[id].id == id
    requires Expressible(m[id].files[index], f, meta) && NotAfter(m[id].updatedAt, now)
    ensures Apply(m, FilePart(id, index, f, now, meta)) == m[id := WithFile(m[id], index, f, now)]
    ensures Apply(m, [StatusEvent(id, index, f, now)]) == m[id := AfterStatusEvent(m[id], index, f, now)]
    ensures WithoutTaskStatus(FilePart(id, index, f, now, meta)) == FilePart(id, index, f, now, meta)
  {
    var e0, e1 := StatusEvent(id, index, f, now), MetaEvent(id, index, f, now);
    ApplyOne(m, e0);
    assert [e0][..0] == [] && [e0, e1][..1] == [e0];
    if meta {
      StatusThenMeta(m[id], index, f, now);
      ApplyTwo(m, e0, e1);
    } else {
      StatusAlone(m[id], index, f, now);
    }
  }

  lemma TaskEventIsRedundant(m: Tasks, id: string, now: Time)
    requires id in m && m[id].updatedAt == Some(now)
    ensures ApplyEvent(m, TaskEvent(id, m[id].status, now)) == m
  {
    assert ApplyToTask(m[id], TaskEvent(id, m[id].status, now)) == m[id];
  }

  /** The events of a change in order: what each prefix of them recovers. */
  lemma PrefixesOfChange(m: Tasks, id: string, index: nat, f: File, now: Time, meta: bool)
    requires id in m && index < |m[id].files| && m[id].id == id
    requires Expressible(m[id].files[index], f, meta) && NotAfter(m[id].updatedAt, now)
    ensures
      var o := ChangeFile(m, id, index, f, now, meta);
      && Apply(m, o.events) == o.tasks
      && Apply(m, WithoutTaskStatus(o.events)) == o.tasks
      && forall k :: 0 <= k <= |o.events| ==>
           var r := Apply(m, o.events[..k]);
           r == m || r == o.tasks || r == m[id := AfterStatusEvent(m[id], index, f, now)]
  {
    var o := ChangeFile(m, id, index, f, now, meta);
    var part := FilePart(id, index, f, now, meta);
    var te := TaskEvent(id, o.tasks[id].status, now);
    FilePartRecovers(m, id, index, f, now, meta);
    TaskEventIsRedundant(o.tasks, id, now);
    WithoutTaskStatusConcat(part, [te]);
    assert WithoutTaskStatus([te]) == [] by { assert [te][..0] == []; }
    ApplyConcat(m, part, [te]);
    ApplyOne(o.tasks, te);
    assert o.events == part || o.events == part + [te];
    forall k | 0 <= k <= |o.events|
      ensures
        var r := Apply(m, o.events[..k]);
        r == m || r == o.tasks || r == m[id := AfterStatusEvent(m[id], index, f, now)]
    {
      assert o.events[..k] == [] || o.events[..k] == [StatusEvent(id, index, f, now)]
             || o.events[..k] == part || o.events[..k] == part + [te];
    }
  }

  /** A call's new file can always be expressed by its events, thanks to GoodFile. */
  lemma ChangesAreExpressible(m: Tasks, c: Call)
    requires Good(m) && !c.Create? && Exec(m, c).events != []
    ensures c.id in m && 0 <= c.index < |m[c.id].files|
    ensures
      var was := m[c.id].files[c.index];
      var f := if c.MarkQueued? then QueuedFile(was) else MarkedFile(was, c);
      && Exec(m, c) == ChangeFile(m, c.id, c.index, f, c.now, !c.MarkQueued?)
      && Expressible(was, f, !c.MarkQueued?)
  {
    assert GoodFile(m[c.id].files[c.index]);
  }

  /** Recovery refines memory, one call: replaying the logged events over the old map gives the new
      map in every field, and so does replaying them without the task-status event. */
  lemma EventsRecoverCall(m: Tasks, c: Call)
    requires Good(m) && AllNotAfter(m, c.now)
    ensures Apply(m, Exec(m, c).events) == Exec(m, c).tasks
    ensures Apply(m, WithoutTaskStatus(Exec(m, c).events)) == Exec(m, c).tasks
  {
    var evs := Exec(m, c).events;
    if c.Create? {
      if evs != [] {
        assert evs[..0] == [];
        ApplyOne(m, evs[0]);
      }
    } else if evs != [] {
      ChangesAreExpressible(m, c);
      var was := m[c.id].files[c.index];
      var f := if c.MarkQueued? then QueuedFile(was) else MarkedFile(was, c);
      PrefixesOfChange(m, c.id, c.index, f, c.now, !c.MarkQueued?);
    }
  }

  /** The status a mark that goes through gives its file. */
  function StatusAfter(c: Call): FileStatus
    requires !c.Create?
  {
    match c
    case MarkStarted(_, _, _) => FileDownloading
    case MarkQueued(_, _, _) => FileQueued
    case MarkCompleted(_, _, _, _, _) => FileCompleted
    case MarkFailed(_, _, _, _) => FileError
  }

  lemma StatusOfChanged(m: Tasks, c: Call)
    requires Good(m) && !c.Create? && Exec(m, c).events != []
    ensures c.id in m && 0 <= c.index < |m[c.id].files| && c.id in Exec(m, c).tasks
    ensures Exec(m, c).tasks[c.id].status == StatusOf(Statuses(m[c.id].files)[c.index := StatusAfter(c)])
  {
    assert Statuses(Exec(m, c).tasks[c.id].files) == Statuses(m[c.id].files)[c.index := StatusAfter(c)];
  }

  /** When the clock steps back, exactly one thing is lost: a change whose new file status leaves the
      task's status as it was recovers with the task's old, later UpdatedAt. */
  lemma EventsRecoverCallIff(m: Tasks, c: Call)
    requires Good(m) && !c.Create? && Exec(m, c).events != []
    ensures c.id in m && 0 <= c.index < |m[c.id].files|
    ensures
      Apply(m, Exec(m, c).events) == Exec(m, c).tasks
      <==>
        || NotAfter(m[c.id].updatedAt, c.now)
        || StatusOf(Statuses(m[c.id].files)[c.index := StatusAfter(c)]) != StatusOf(Statuses(m[c.id].files))
  {
    StatusOfChanged(m, c);
    ChangesAreExpressible(m, c);
    var was := m[c.id].files[c.index];
    var f := if c.MarkQueued? then QueuedFile(was) else MarkedFile(was, c);
    ChangeRecoversUpTo(m, c.id, c.index, f, c.now, !c.MarkQueued?);
  }

  /** Replay after a clock that stepped back: everything recovers but UpdatedAt. */
  lemma ChangeRecoversUpTo(m: Tasks, id: string, index: nat, f: File, now: Time, meta: bool)
    requires id in m && index < |m[id].files| && m[id].id == id
    requires Expressible(m[id].files[index], f, meta)
    ensures
      var o := ChangeFile(m, id, index, f, now, meta);
      var kept := !NotAfter(m[id].updatedAt, now) && o.tasks[id].status == m[id].status;
      Apply(m, o.events)
      == if kept then m[id := o.tasks[id].(updatedAt := m[id].updatedAt)] else o.tasks
  {
    var o := ChangeFile(m, id, index, f, now, meta);
    if NotAfter(m[id].updatedAt, now) {
      PrefixesOfChange(m, id, index, f, now, meta);
    } else {
      var a := AfterStatusEvent(m[id], index, f, now);
      assert Statuses(a.files) == Statuses(o.tasks[id].files);
      FilePartRecoversLate(m, id, index, f, now, meta);
      var part := FilePart(id, index, f, now, meta);
      var te := TaskEvent(id, o.tasks[id].status, now);
      var r := Apply(m, part);
      if o.tasks[id].status != m[id].status {
        assert o.events == part + [te];
        ApplyConcat(m, part, [te]);
        ApplyOne(r, te);
        assert ApplyToTask(r[id], te) == o.tasks[id];
      } else {
        assert o.events == part;
      }
    }
  }

  lemma FilePartRecoversLate(m: Tasks, id: string, index: nat, f: File, now: Time, meta: bool)
    requires id in m && index < |m[id].files| && m[id].id == id
    requires Expressible(m[id].files[index], f, meta) && !NotAfter(m[id].updatedAt, now)
    ensures
      var t := WithFile(m[id], index, f, now);
      Apply(m, FilePart(id, index, f, now, meta))
      == m[id := t.(updatedAt := if t.status == m[id].status then m[id].updatedAt else Some(now))]
  {
    var t := WithFile(m[id], index, f, now);
    var a := AfterStatusEvent(m[id], index, f, now);
    assert Statuses(a.files) == Statuses(t.files);
    var e0, e1 := StatusEvent(id, index, f, now), MetaEvent(id, index, f, now);
    ApplyOne(m, e0);
    if meta {
      ApplyTwo(m, e0, e1);
      assert ApplyToTask(a, e1).files == t.files;
    } else {
      assert a.files == t.files;
    }
  }
}

/** The status of a file in a task map, and what calls make of it. */
module FileStates {
  import opened Core
  import opened Replay
  import opened Calls

  datatype FileId = FileId(id: string, index: int)

  function StatusAt(m: Tasks, f: FileId): Option<FileStatus> {
    if f.id in m && 0 <= f.index < |m[f.id].files| then Some(m[f.id].files[f.index].status) else None
  }

  lemma MarkChangesOneStatus(m: Tasks, c: Call, f: FileId)
    requires !c.Create?
    ensures
      StatusAt(Exec(m, c).tasks, f)
      == if Exec(m, c).events != [] && f == FileId(c.id, c.index) then Some(StatusAfter(c)) else StatusAt(m, f)
    ensures Exec(m, c).events != [] ==> StatusAt(m, FileId(c.id, c.index)).Some?
  {
  }

  /** Start, completed and failed marks on a known file are turned down only when it is completed. */
  lemma MarkTurnedDown(m: Tasks, c: Call)
    requires !c.Create? && !c.MarkQueued? && (c.MarkCompleted? ==> c.size >= 0)
    requires StatusAt(m, FileId(c.id, c.index)).Some?
    ensures Exec(m, c).result.Failure? <==> StatusAt(m, FileId(c.id, c.index)) == Some(FileCompleted)
    ensures Exec(m, c).result.Success? <==> Exec(m, c).events != []
  {
  }

  lemma CreateAddsWaiting(m: Tasks, c: Call, f: FileId)
    requires c.Create?
    ensures
      var (a, b) := (StatusAt(m, f), StatusAt(Exec(m, c).tasks, f));
      b == a || (a == None && b == Some(FileWaiting))
  {
  }
}
