/** Events as the program writes them: JSON objects with the field names of record.go and task.go, empty
    optional fields left out. */
module EventCodecs {
  import opened Core
  import opened Records
  import opened Wal
  import Json

  function EncText(s: string): Json.Json { Json.Str(Json.FromString(s)) }

  /** An instant is quoted text; here its number stands for the text. */
  function EncInstant(t: Time): Json.Json { Json.Str(Json.Print(Json.Num(t), Json.End)) }

  function EncTime(t: Option<Time>): Json.Json {
    if t.Some? then EncInstant(t.value) else Json.Null
  }

  function FileStatusText(s: FileStatus): string {
    match s
    case FileWaiting => "FILE_WAITING"
    case FileQueued => "FILE_QUEUED"
    case FileDownloading => "FILE_DOWNLOADING"
    case FileCompleted => "FILE_COMPLETED"
    case FileError => "FILE_ERROR"
    case FileOther(text) => text
  }

  function TaskStatusText(s: TaskStatus): string {
    match s
    case TaskPending => "TASK_PENDING"
    case TaskInProgress => "TASK_IN_PROGRESS"
    case TaskFailed => "TASK_FAILED"
    case TaskPartiallyCompleted => "TASK_PARTIALLY_COMPLETED"
    case TaskCompleted => "TASK_COMPLETED"
    case TaskOther(text) => text
  }

  function Named(name: string, j: Json.Json, rest: Json.Fields): Json.Fields {
    Json.Field(Json.FromString(name), j, rest)
  }

  /** A field tagged omitempty. */
  function Unless(empty: bool, name: string, j: Json.Json, rest: Json.Fields): Json.Fields {
    if empty then rest else Named(name, j, rest)
  }

  function Times(startedAt: Option<Time>, completedAt: Option<Time>): Json.Fields {
    Unless(startedAt == None, "started_at", EncTime(startedAt),
    Unless(completedAt == None, "completed_at", EncTime(completedAt), Json.NoFields))
  }

  function EncFile(f: File): Json.Json {
    Json.Obj(
      Named("url", EncText(f.url),
      Unless(f.filename == "", "file_name", EncText(f.filename),
      Named("status", EncText(FileStatusText(f.status)),
      Unless(f.size == 0, "size_bytes", Json.Num(f.size),
      Unless(f.error == "", "error", EncText(f.error), Times(f.startedAt, f.completedAt)))))))
  }

  function EncFiles(fs: seq<File>): Json.Items {
    if fs == [] then Json.NoItems else Json.Item(EncFile(fs[0]), EncFiles(fs[1..]))
  }

  function EncTexts(ss: seq<string>): Json.Items {
    if ss == [] then Json.NoItems else Json.Item(EncText(ss[0]), EncTexts(ss[1..]))
  }

  function EncTask(t: Task): Json.Json {
    Json.Obj(
      Named("id", EncText(t.id),
      Named("files", Json.Arr(EncFiles(t.files)),
      Named("status", EncText(TaskStatusText(t.status)),
      Named("urls", Json.Arr(EncTexts(t.urls)),
      Named("created_at", EncTime(t.createdAt),
      Named("updated_at", EncTime(t.updatedAt), Json.NoFields)))))))
  }

  /** The event type; the last stands for any number that is no event type. */
  function TypeOf(p: Payload): int {
    match p
    case TaskCreated(_) => 0
    case TaskStatusSet(_) => 1
    case FileStatusSet(_, _, _, _) => 2
    case FileMetaSet(_, _, _, _) => 3
    case Unreadable => 4
  }

  function EncMeta(i: int, name: string, a: Option<Time>, b: Option<Time>): Json.Fields {
    Named("file_index", Json.Num(i), Unless(name == "", "file_name", EncText(name), Times(a, b)))
  }

  function EncPayload(p: Payload): Json.Json {
    match p
    case TaskCreated(t) =>
      Json.Obj(Named("task", if t.Some? then EncTask(t.value) else Json.Null, Json.NoFields))
    case TaskStatusSet(st) =>
      Json.Obj(Named("status", EncText(TaskStatusText(st)), Json.NoFields))
    case FileStatusSet(i, st, err, size) =>
      Json.Obj(
        Named("file_index", Json.Num(i),
        Named("status", EncText(FileStatusText(st)),
        Unless(err == "", "error", EncText(err),
        Unless(size == 0, "size_bytes", Json.Num(size), Json.NoFields)))))
    case FileMetaSet(i, name, a, b) => Json.Obj(EncMeta(i, name, a, b))
    case Unreadable => Json.Null
  }

  function EncEvent(ev: Event): Json.Json {
    Json.Obj(
      Named("version", Json.Num(ev.version),
      Named("task_id", EncText(ev.taskId),
      Named("type", Json.Num(TypeOf(ev.payload)),
      Named("created_at", EncInstant(ev.createdAt),
      Named("payload", EncPayload(ev.payload), Json.NoFields))))))
  }

  // ---------------------------------------------------------------- field names

  /** The names of an object's fields, in order. */
  function NamesOf(fields: Json.Fields): seq<string> {
    if fields.NoFields? then [] else [Json.ToString(fields.name)] + NamesOf(fields.rest)
  }

  function Only(there: bool, name: string): seq<string> {
    if there then [name] else []
  }

  lemma NameOfField(name: string, j: Json.Json, rest: Json.Fields)
    ensures NamesOf(Named(name, j, rest)) == [name] + NamesOf(rest)
  {
    TextDecodes(name);
  }

  lemma NameOfOptional(empty: bool, name: string, j: Json.Json, rest: Json.Fields)
    ensures NamesOf(Unless(empty, name, j, rest)) == Only(!empty, name) + NamesOf(rest)
  {
    TextDecodes(name);
    assert [] + NamesOf(rest) == NamesOf(rest);
  }

  lemma NamesOfTimes(a: Option<Time>, b: Option<Time>)
    ensures NamesOf(Times(a, b)) == Only(a.Some?, "started_at") + Only(b.Some?, "completed_at")
  {
    var rest := Unless(b == None, "completed_at", EncTime(b), Json.NoFields);
    NameOfOptional(b == None, "completed_at", EncTime(b), Json.NoFields);
    NameOfOptional(a == None, "started_at", EncTime(a), rest);
    assert Only(b.Some?, "completed_at") + [] == Only(b.Some?, "completed_at");
  }

  lemma NamesOfTwo(a: string, i: Json.Json, b: string, j: Json.Json, rest: Json.Fields)
    ensures NamesOf(Named(a, i, Named(b, j, rest))) == [a, b] + NamesOf(rest)
  {
    NameOfField(b, j, rest);
    NameOfField(a, i, Named(b, j, rest));
  }

  lemma NamesOfOptional(a: bool, m: string, i: Json.Json, b: bool, n: string, j: Json.Json)
    ensures NamesOf(Unless(a, m, i, Unless(b, n, j, Json.NoFields))) == Only(!a, m) + Only(!b, n)
  {
    NameOfOptional(b, n, j, Json.NoFields);
    NameOfOptional(a, m, i, Unless(b, n, j, Json.NoFields));
    assert Only(!b, n) + [] == Only(!b, n);
  }

  lemma NamesOfFive(a: string, i: Json.Json, b: string, j: Json.Json, c: string, k: Json.Json,
                    d: string, l: Json.Json, e: string, m: Json.Json)
    ensures
      NamesOf(Named(a, i, Named(b, j, Named(c, k, Named(d, l, Named(e, m, Json.NoFields)))))) == [a, b, c, d, e]
  {
    var last := Named(e, m, Json.NoFields);
    NameOfField(e, m, Json.NoFields);
    NamesOfTwo(c, k, d, l, last);
    NamesOfTwo(a, i, b, j, Named(c, k, Named(d, l, last)));
  }

  /** An event is an object with these five fields, whatever it says. */
  lemma NamesOfEvent(ev: Event)
    ensures NamesOf(EncEvent(ev).fields) == ["version", "task_id", "type", "created_at", "payload"]
  {
    NamesOfFive("version", Json.Num(ev.version), "task_id", EncText(ev.taskId), "type", Json.Num(TypeOf(ev.payload)),
                "created_at", EncInstant(ev.createdAt), "payload", EncPayload(ev.payload));
  }

  /** The fields of each payload; those that may be left out are there exactly if they are not empty. */
  lemma NamesOfPayload(p: Payload)
    requires !p.Unreadable?
    ensures
      NamesOf(EncPayload(p).fields)
      == match p
         case TaskCreated(_) => ["task"]
         case TaskStatusSet(_) => ["status"]
         case FileStatusSet(_, _, err, size) => ["file_index", "status"] + (Only(err != "", "error") + Only(size != 0, "size_bytes"))
         case FileMetaSet(_, name, a, b) =>
           ["file_index"] + (Only(name != "", "file_name") + (Only(a.Some?, "started_at") + Only(b.Some?, "completed_at")))
  {
    match p
    case TaskCreated(t) => NameOfField("task", if t.Some? then EncTask(t.value) else Json.Null, Json.NoFields);
    case TaskStatusSet(st) => NameOfField("status", EncText(TaskStatusText(st)), Json.NoFields);
    case FileStatusSet(i, st, err, size) =>
      NamesOfOptional(err == "", "error", EncText(err), size == 0, "size_bytes", Json.Num(size));
      NamesOfTwo("file_index", Json.Num(i), "status", EncText(FileStatusText(st)),
                 Unless(err == "", "error", EncText(err), Unless(size == 0, "size_bytes", Json.Num(size), Json.NoFields)));
    case FileMetaSet(i, name, a, b) => NamesOfMeta(i, name, a, b);
  }

  lemma NamesOfMeta(i: int, name: string, a: Option<Time>, b: Option<Time>)
    ensures
      NamesOf(EncMeta(i, name, a, b))
      == ["file_index"] + (Only(name != "", "file_name") + (Only(a.Some?, "started_at") + Only(b.Some?, "completed_at")))
  {
    var names := Only(a.Some?, "started_at") + Only(b.Some?, "completed_at");
    NamesOfTimes(a, b);
    NamesOfFieldAndOptional("file_index", Json.Num(i), name == "", "file_name", EncText(name), Times(a, b), names);
  }

  lemma NamesOfFieldAndOptional(a: string, i: Json.Json, empty: bool, b: string, j: Json.Json, rest: Json.Fields, names: seq<string>)
    requires NamesOf(rest) == names
    ensures NamesOf(Named(a, i, Unless(empty, b, j, rest))) == [a] + (Only(!empty, b) + names)
  {
    NameOfOptional(empty, b, j, rest);
    NameOfField(a, i, Unless(empty, b, j, rest));
  }

  // ---------------------------------------------------------------- texts the encoder keeps

  /** Seven-bit text, which the encoder never replaces and writes as Json.PrintChar does. */
  predicate Plain(s: string) {
    forall i :: 0 <= i < |s| ==> s[i] < '\U{80}'
  }

  /** A status outside the constants does not carry the text of one. */
  predicate PlainFileStatus(s: FileStatus) {
    s.FileOther? ==> Plain(s.text) && s.text !in {"FILE_WAITING", "FILE_QUEUED", "FILE_DOWNLOADING", "FILE_COMPLETED", "FILE_ERROR"}
  }

  predicate PlainTaskStatus(s: TaskStatus) {
    s.TaskOther? ==>
      Plain(s.text)
      && s.text !in {"TASK_PENDING", "TASK_IN_PROGRESS", "TASK_FAILED", "TASK_PARTIALLY_COMPLETED", "TASK_COMPLETED"}
  }

  predicate PlainFile(f: File) {
    Plain(f.url) && Plain(f.filename) && Plain(f.error) && PlainFileStatus(f.status)
  }

  predicate PlainFiles(fs: seq<File>) {
    forall i :: 0 <= i < |fs| ==> PlainFile(fs[i])
  }

  predicate PlainTask(t: Task) {
    && Plain(t.id) && PlainTaskStatus(t.status) && PlainFiles(t.files)
    && (forall i :: 0 <= i < |t.urls| ==> Plain(t.urls[i]))
  }

  predicate PlainPayload(p: Payload) {
    match p
    case TaskCreated(t) => t.Some? ==> PlainTask(t.value)
    case TaskStatusSet(st) => PlainTaskStatus(st)
    case FileStatusSet(_, st, err, _) => PlainFileStatus(st) && Plain(err)
    case FileMetaSet(_, name, _, _) => Plain(name)
    case Unreadable => true
  }

  predicate PlainEvent(ev: Event) {
    Plain(ev.taskId) && PlainPayload(ev.payload)
  }

  // ---------------------------------------------------------------- different events, different texts

  lemma {:induction false} TextDecodes(s: string)
    ensures Json.ToString(Json.FromString(s)) == s
  {
    if s != "" { TextDecodes(s[1..]); }
  }

  lemma TextInjective(a: string, b: string)
    requires EncText(a) == EncText(b)
    ensures a == b
  {
    TextDecodes(a);
    TextDecodes(b);
  }

  lemma InstantInjective(a: Time, b: Time)
    requires EncInstant(a) == EncInstant(b)
    ensures a == b
  {
    Json.ValueParses(Json.Num(a), Json.End);
    Json.ValueParses(Json.Num(b), Json.End);
  }

  lemma TimeInjective(a: Option<Time>, b: Option<Time>)
    requires EncTime(a) == EncTime(b)
    ensures a == b
  {
    if a.Some? && b.Some? { InstantInjective(a.value, b.value); }
  }

  lemma FileStatusInjective(a: FileStatus, b: FileStatus)
    requires EncText(FileStatusText(a)) == EncText(FileStatusText(b)) && PlainFileStatus(a) && PlainFileStatus(b)
    ensures a == b
  {
    TextInjective(FileStatusText(a), FileStatusText(b));
    assert "FILE_COMPLETED"[5] == 'C' && "FILE_DOWNLOADING"[5] == 'D';
  }

  lemma TaskStatusInjective(a: TaskStatus, b: TaskStatus)
    requires EncText(TaskStatusText(a)) == EncText(TaskStatusText(b)) && PlainTaskStatus(a) && PlainTaskStatus(b)
    ensures a == b
  {
    TextInjective(TaskStatusText(a), TaskStatusText(b));
  }

  /** Optional fields of different names: each is there in both objects or in neither. */
  lemma UnlessInjective(a: bool, b: bool, name: string, i: Json.Json, j: Json.Json, x: Json.Fields, y: Json.Fields)
    requires Unless(a, name, i, x) == Unless(b, name, j, y)
    requires x.Field? ==> x.name != Json.FromString(name)
    requires y.Field? ==> y.name != Json.FromString(name)
    ensures a == b && x == y && (!a ==> i == j)
  {
  }

  lemma NamesDiffer(a: string, b: string, k: nat)
    requires k < |a| && k < |b| && a[k] != b[k]
    ensures Json.FromString(a) != Json.FromString(b)
  {
    TextDecodes(a);
    TextDecodes(b);
  }

  lemma TimesInjective(a: Option<Time>, b: Option<Time>, c: Option<Time>, d: Option<Time>)
    requires Times(a, b) == Times(c, d)
    ensures a == c && b == d
  {
    NamesDiffer("started_at", "completed_at", 0);
    var x := Unless(b == None, "completed_at", EncTime(b), Json.NoFields);
    var y := Unless(d == None, "completed_at", EncTime(d), Json.NoFields);
    UnlessInjective(a == None, c == None, "started_at", EncTime(a), EncTime(c), x, y);
    UnlessInjective(b == None, d == None, "completed_at", EncTime(b), EncTime(d), Json.NoFields, Json.NoFields);
    if a.Some? { TimeInjective(a, c); }
    if b.Some? { TimeInjective(b, d); }
  }

  lemma FirstOfTimes(a: Option<Time>, b: Option<Time>, name: string)
    requires name != "started_at" && name != "completed_at"
    ensures var t := Times(a, b); t.Field? ==> t.name != Json.FromString(name)
  {
    TextDecodes(name);
    TextDecodes("started_at");
    TextDecodes("completed_at");
  }

  /** Fields from the error on. */
  function Tail(f: File): Json.Fields {
    Unless(f.error == "", "error", EncText(f.error), Times(f.startedAt, f.completedAt))
  }

  lemma TailInjective(f: File, g: File)
    requires Tail(f) == Tail(g)
    ensures f.error == g.error && f.startedAt == g.startedAt && f.completedAt == g.completedAt
  {
    FirstOfTimes(f.startedAt, f.completedAt, "error");
    FirstOfTimes(g.startedAt, g.completedAt, "error");
    UnlessInjective(f.error == "", g.error == "", "error", EncText(f.error), EncText(g.error),
                    Times(f.startedAt, f.completedAt), Times(g.startedAt, g.completedAt));
    if f.error != "" { TextInjective(f.error, g.error); }
    TimesInjective(f.startedAt, f.completedAt, g.startedAt, g.completedAt);
  }

  function SizeAndTail(f: File): Json.Fields {
    Unless(f.size == 0, "size_bytes", Json.Num(f.size), Tail(f))
  }

  lemma FirstOfTail(f: File, name: string)
    requires name != "error" && name != "started_at" && name != "completed_at"
    ensures Tail(f).Field? ==> Tail(f).name != Json.FromString(name)
  {
    TextDecodes(name);
    TextDecodes("error");
    FirstOfTimes(f.startedAt, f.completedAt, name);
  }

  lemma SizeInjective(f: File, g: File)
    requires SizeAndTail(f) == SizeAndTail(g)
    ensures f.size == g.size && Tail(f) == Tail(g)
  {
    assert "size_bytes"[1] != "started_at"[1];
    FirstOfTail(f, "size_bytes");
    FirstOfTail(g, "size_bytes");
    UnlessInjective(f.size == 0, g.size == 0, "size_bytes", Json.Num(f.size), Json.Num(g.size), Tail(f), Tail(g));
  }

  lemma FileInjective(a: File, b: File)
    requires EncFile(a) == EncFile(b) && PlainFile(a) && PlainFile(b)
    ensures a == b
  {
    NamesDiffer("file_name", "status", 0);
    var x := Named("status", EncText(FileStatusText(a.status)), SizeAndTail(a));
    var y := Named("status", EncText(FileStatusText(b.status)), SizeAndTail(b));
    assert EncFile(a) == Json.Obj(Named("url", EncText(a.url), Unless(a.filename == "", "file_name", EncText(a.filename), x)));
    assert EncFile(b) == Json.Obj(Named("url", EncText(b.url), Unless(b.filename == "", "file_name", EncText(b.filename), y)));
    TextInjective(a.url, b.url);
    UnlessInjective(a.filename == "", b.filename == "", "file_name", EncText(a.filename), EncText(b.filename), x, y);
    if a.filename != "" { TextInjective(a.filename, b.filename); }
    FileStatusInjective(a.status, b.status);
    SizeInjective(a, b);
    TailInjective(a, b);
  }

  lemma RestIsPlain(fs: seq<File>)
    requires PlainFiles(fs) && fs != []
    ensures PlainFile(fs[0]) && PlainFiles(fs[1..])
  {
    forall i | 0 <= i < |fs[1..]| ensures PlainFile(fs[1..][i]) {
      assert fs[1..][i] == fs[i + 1];
    }
  }

  lemma SameHeadAndTail<T>(a: seq<T>, b: seq<T>)
    requires a != [] && b != [] && a[0] == b[0] && a[1..] == b[1..]
    ensures a == b
  {
    assert a == [a[0]] + a[1..] && b == [b[0]] + b[1..];
  }

  lemma {:induction false} FilesInjective(a: seq<File>, b: seq<File>)
    requires EncFiles(a) == EncFiles(b)
    requires PlainFiles(a) && PlainFiles(b)
    ensures a == b
  {
    if a != [] && b != [] {
      RestIsPlain(a);
      RestIsPlain(b);
      FileInjective(a[0], b[0]);
      FilesInjective(a[1..], b[1..]);
      SameHeadAndTail(a, b);
    }
  }

  lemma {:induction false} TextsInjective(a: seq<string>, b: seq<string>)
    requires EncTexts(a) == EncTexts(b)
    ensures a == b
  {
    if a != [] && b != [] {
      TextInjective(a[0], b[0]);
      TextsInjective(a[1..], b[1..]);
      SameHeadAndTail(a, b);
    }
  }

  lemma TaskInjective(a: Task, b: Task)
    requires EncTask(a) == EncTask(b) && PlainTask(a) && PlainTask(b)
    ensures a == b
  {
    TextInjective(a.id, b.id);
    FilesInjective(a.files, b.files);
    TaskStatusInjective(a.status, b.status);
    TextsInjective(a.urls, b.urls);
    TimeInjective(a.createdAt, b.createdAt);
    TimeInjective(a.updatedAt, b.updatedAt);
  }

  lemma StatusPayloadInjective(a: Payload, b: Payload)
    requires a.FileStatusSet? && b.FileStatusSet? && EncPayload(a) == EncPayload(b)
    requires PlainFileStatus(a.fileStatus) && PlainFileStatus(b.fileStatus)
    ensures a == b
  {
    NamesDiffer("error", "size_bytes", 0);
    var x := Unless(a.size == 0, "size_bytes", Json.Num(a.size), Json.NoFields);
    var y := Unless(b.size == 0, "size_bytes", Json.Num(b.size), Json.NoFields);
    FileStatusInjective(a.fileStatus, b.fileStatus);
    UnlessInjective(a.error == "", b.error == "", "error", EncText(a.error), EncText(b.error), x, y);
    UnlessInjective(a.size == 0, b.size == 0, "size_bytes", Json.Num(a.size), Json.Num(b.size), Json.NoFields, Json.NoFields);
    if a.error != "" { TextInjective(a.error, b.error); }
  }

  lemma MetaPayloadInjective(a: Payload, b: Payload)
    requires a.FileMetaSet? && b.FileMetaSet? && EncPayload(a) == EncPayload(b)
    ensures a == b
  {
    FirstOfTimes(a.startedAt, a.completedAt, "file_name");
    FirstOfTimes(b.startedAt, b.completedAt, "file_name");
    UnlessInjective(a.filename == "", b.filename == "", "file_name", EncText(a.filename), EncText(b.filename),
                    Times(a.startedAt, a.completedAt), Times(b.startedAt, b.completedAt));
    if a.filename != "" { TextInjective(a.filename, b.filename); }
    TimesInjective(a.startedAt, a.completedAt, b.startedAt, b.completedAt);
  }

  lemma PayloadInjective(a: Payload, b: Payload)
    requires TypeOf(a) == TypeOf(b) && EncPayload(a) == EncPayload(b) && PlainPayload(a) && PlainPayload(b)
    ensures a == b
  {
    match a
    case TaskCreated(t) => if t.Some? { TaskInjective(t.value, b.task.value); }
    case TaskStatusSet(st) => TaskStatusInjective(st, b.newStatus);
    case FileStatusSet(_, _, _, _) => StatusPayloadInjective(a, b);
    case FileMetaSet(_, _, _, _) => MetaPayloadInjective(a, b);
    case Unreadable =>
  }

  lemma EventParts(a: Event, b: Event)
    requires EncEvent(a) == EncEvent(b)
    ensures a.version == b.version && EncText(a.taskId) == EncText(b.taskId) && EncInstant(a.createdAt) == EncInstant(b.createdAt)
    ensures TypeOf(a.payload) == TypeOf(b.payload) && EncPayload(a.payload) == EncPayload(b.payload)
  {
  }

  lemma EventInjective(a: Event, b: Event)
    requires EncEvent(a) == EncEvent(b) && PlainEvent(a) && PlainEvent(b)
    ensures a == b
  {
    EventParts(a, b);
    TextInjective(a.taskId, b.taskId);
    InstantInjective(a.createdAt, b.createdAt);
    PayloadInjective(a.payload, b.payload);
  }

  ghost predicate Encodes(ev: Event, j: Json.Json) {
    PlainEvent(ev) && EncEvent(ev) == j
  }

  ghost function DecEvent(j: Json.Json): Option<Event> {
    if ev :| Encodes(ev, j) then Some(ev) else None
  }

  lemma DecodesBack(ev: Event)
    requires PlainEvent(ev)
    ensures DecEvent(EncEvent(ev)) == Some(ev)
  {
    var j := EncEvent(ev);
    assert Encodes(ev, j);
    EventInjective(DecEvent(j).value, ev);
  }

  /** The program's encoding of events loses nothing: no two of them are written alike, so a decoder
      gives each back. */
  lemma EncodingIsLossless() returns (c: Codec)
    ensures Lossless(c) && c.enc == EncEvent && c.clean == PlainEvent
  {
    c := Codec(EncEvent, DecEvent, PlainEvent);
    forall ev ensures c.enc(ev).Obj? && (c.clean(ev) ==> c.dec(c.enc(ev)) == Some(ev)) {
      if c.clean(ev) {
        DecodesBack(ev);
      }
    }
  }
}
