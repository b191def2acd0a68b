/** One overlong text is enough: a line over the scan limit in the log, and no process starts again. */
module LongLines {
  import opened Core
  import opened Records
  import opened Replay
  import opened Calls
  import opened FileStates
  import opened Wal
  import opened Recovery
  import opened Lifetimes
  import opened EventCodecs
  import opened StaleLogs
  import Json
  import Urls

  // ---------------------------------------------------------------- printing only adds

  /** The value holds this text. */
  predicate Says(j: Json.Json, s: Json.Text) {
    match j
    case Str(text) => text == s
    case Arr(items) => ItemsSay(items, s)
    case Obj(fields) => FieldsSay(fields, s)
    case _ => false
  }

  predicate ItemsSay(items: Json.Items, s: Json.Text) {
    items.Item? && (Says(items.value, s) || ItemsSay(items.rest, s))
  }

  predicate FieldsSay(fields: Json.Fields, s: Json.Text) {
    fields.Field? && (Says(fields.value, s) || FieldsSay(fields.rest, s))
  }

  function LengthIf(said: bool, s: Json.Text): nat {
    if said then Json.Length(s) else 0
  }

  lemma {:induction false} CharsAreKept(s: Json.Text, t: Json.Text)
    ensures Json.Length(Json.PrintChars(s, t)) >= Json.Length(s) + Json.Length(t)
  {
    if s.Cons? {
      CharsAreKept(s.tail, t);
      CharIsLonger(s.head, Json.PrintChars(s.tail, t));
    }
  }

  lemma CharIsLonger(c: char, t: Json.Text)
    ensures Json.Length(Json.PrintChar(c, t)) > Json.Length(t)
  {
    var p := Json.PrintChar(c, t);
    if p.tail != t && p.tail.tail != t {
      FourMore(p.tail.tail);
    }
  }

  lemma FourMore(t: Json.Text)
    requires t.Cons? && t.tail.Cons? && t.tail.tail.Cons? && t.tail.tail.tail.Cons?
    ensures Json.Length(t) == 4 + Json.Length(t.tail.tail.tail.tail)
  {
    assert Json.Length(t.tail.tail) == 2 + Json.Length(t.tail.tail.tail.tail);
  }

  lemma {:induction false} NatIsLonger(n: nat, t: Json.Text)
    ensures Json.Length(Json.PrintNat(n, t)) >= Json.Length(t)
  {
    if n >= 10 { NatIsLonger(n / 10, Json.Cons(Json.Digit(n % 10), t)); }
  }

  /** The printed value is at least as long as any text in it. */
  lemma {:induction false} PrintIsLonger(j: Json.Json, s: Json.Text, t: Json.Text)
    ensures Json.Length(Json.Print(j, t)) >= LengthIf(Says(j, s), s) + Json.Length(t)
  {
    match j
    case Null => FourMore(Json.Print(j, t));
    case Num(n) => NatIsLonger(if n < 0 then -n else n, t);
    case Str(text) => CharsAreKept(text, t);
    case Arr(items) => if items.Item? { ItemsAreLonger(items, s, t); }
    case Obj(fields) => if fields.Field? { FieldsAreLonger(fields, s, t); }
  }

  lemma {:induction false} ItemsAreLonger(items: Json.Items, s: Json.Text, t: Json.Text)
    requires items.Item?
    ensures Json.Length(Json.PrintItems(items, t)) >= LengthIf(ItemsSay(items, s), s) + Json.Length(t)
  {
    if items.rest.Item? {
      ItemsAreLonger(items.rest, s, t);
      PrintIsLonger(items.value, s, Json.Cons(',', Json.PrintItems(items.rest, t)));
    } else {
      PrintIsLonger(items.value, s, Json.Cons(']', t));
    }
  }

  lemma {:induction false} FieldsAreLonger(fields: Json.Fields, s: Json.Text, t: Json.Text)
    requires fields.Field?
    ensures Json.Length(Json.PrintFields(fields, t)) >= LengthIf(FieldsSay(fields, s), s) + Json.Length(t)
  {
    var rest := if fields.rest.Field? then Json.Cons(',', Json.PrintFields(fields.rest, t)) else Json.Cons('}', t);
    if fields.rest.Field? {
      FieldsAreLonger(fields.rest, s, t);
    }
    PrintIsLonger(fields.value, s, rest);
    CharsAreKept(fields.name, Json.Cons(':', Json.Print(fields.value, rest)));
  }

  lemma {:induction false} LengthOfText(t: Json.Text)
    ensures |Json.ToString(t)| == Json.Length(t)
  {
    if t.Cons? { LengthOfText(t.tail); }
  }

  /** The line of an event is at least as long as any text in it. */
  lemma LineIsLonger(c: Codec, ev: Event, s: string)
    requires c.enc == EncEvent && Says(EncEvent(ev), Json.FromString(s))
    ensures |Encode(c, ev)| >= |s|
  {
    PrintIsLonger(EncEvent(ev), Json.FromString(s), Json.End);
    LengthOfText(Json.Print(EncEvent(ev), Json.End));
    LengthOfText(Json.FromString(s));
    TextDecodes(s);
  }

  lemma ErrorIsSaid(ev: Event)
    requires ev.payload.FileStatusSet? && ev.payload.error != ""
    ensures Says(EncEvent(ev), Json.FromString(ev.payload.error))
  {
    var (p, s) := (ev.payload, Json.FromString(ev.payload.error));
    var rest := Unless(p.size == 0, "size_bytes", Json.Num(p.size), Json.NoFields);
    FieldSays("error", EncText(p.error), rest, s);
    MoreFieldsSay("status", EncText(FileStatusText(p.fileStatus)), Named("error", EncText(p.error), rest), s);
    MoreFieldsSay("file_index", Json.Num(p.index),
                  Named("status", EncText(FileStatusText(p.fileStatus)), Named("error", EncText(p.error), rest)), s);
    PayloadIsSaid(ev, s);
  }

  lemma FieldSays(name: string, j: Json.Json, rest: Json.Fields, s: Json.Text)
    requires Says(j, s)
    ensures FieldsSay(Named(name, j, rest), s)
  {
  }

  lemma MoreFieldsSay(name: string, j: Json.Json, rest: Json.Fields, s: Json.Text)
    requires FieldsSay(rest, s)
    ensures FieldsSay(Named(name, j, rest), s)
  {
  }

  lemma PayloadIsSaid(ev: Event, s: Json.Text)
    requires Says(EncPayload(ev.payload), s)
    ensures Says(EncEvent(ev), s)
  {
    var payload := Named("payload", EncPayload(ev.payload), Json.NoFields);
    var created := Named("created_at", EncInstant(ev.createdAt), payload);
    var kind := Named("type", Json.Num(TypeOf(ev.payload)), created);
    var task := Named("task_id", EncText(ev.taskId), kind);
    FieldSays("payload", EncPayload(ev.payload), Json.NoFields, s);
    MoreFieldsSay("created_at", EncInstant(ev.createdAt), payload, s);
    MoreFieldsSay("type", Json.Num(TypeOf(ev.payload)), created, s);
    MoreFieldsSay("task_id", EncText(ev.taskId), kind, s);
    MoreFieldsSay("version", Json.Num(ev.version), task, s);
  }

  // ---------------------------------------------------------------- a life that ends

  /** A failed mark with a message over the scan limit logs a line that no restart can read. */
  lemma LongMessageIsLongLine(c: Codec, m: Tasks, call: Call)
    requires c.enc == EncEvent && call.MarkFailed? && |Urls.Trim(call.msg)| >= MaxScanBufSize
    requires Exec(m, call).events != []
    ensures !Short(c, Exec(m, call).events)
  {
    var ev := Exec(m, call).events[0];
    assert ev.payload.FileStatusSet? && ev.payload.error == Urls.Trim(call.msg);
    ErrorIsSaid(ev);
    LineIsLonger(c, ev, ev.payload.error);
  }

  /** A database that is down with such a line stays down, whatever is tried. */
  lemma {:induction false} DownForGood(c: Codec, l: Life, acts: seq<Act>)
    requires !l.up && !Short(c, l.logged)
    ensures From(c, l, acts) == l
    decreases |acts|
  {
    if acts != [] {
      DownForGood(c, l, acts[..|acts| - 1]);
    }
  }

  lemma TrimKeepsLetters(n: nat) returns (s: string)
    requires n > 0
    ensures |s| == n && Urls.Trim(s) == s
  {
    s := seq(n, i => 'a');
    assert s[0] == 'a' && s[n - 1] == 'a' && !Urls.IsSpace('a');
    assert Urls.TrimLeft(s) == s && Urls.TrimRight(s) == s;
  }

  /** One task, one failed download with a message over the scan limit: the call is acknowledged, and after
      the next restart the database is down for good. */
  lemma OneLongMessageEndsIt(c: Codec) returns (acts: seq<Act>)
    requires c.enc == EncEvent
    ensures LifeOf(c, acts).up && StatusAt(LifeOf(c, acts).tasks, File1) == Some(FileError)
    ensures forall more :: !From(c, LifeOf(c, acts + [Restart]), more).up
  {
    var msg := TrimKeepsLetters(MaxScanBufSize);
    var create, fail := Request(Creating1(), true, Calm), Request(MarkFailed("t", 0, msg, 2), true, Calm);
    acts := [create, fail];
    LifeOfCreation(c);
    LifeOfTwo(c, create, fail);
    FailedIsLogged(c, msg);
    forall more ensures !From(c, LifeOf(c, acts + [Restart]), more).up {
      DownForGood(c, LifeOf(c, acts + [Restart]), more);
    }
  }

  lemma LifeOfTwo(c: Codec, a: Act, b: Act)
    ensures LifeOf(c, [a, b]) == Advance(c, LifeOf(c, [a]), b)
    ensures LifeOf(c, [a, b] + [Restart]) == Advance(c, LifeOf(c, [a, b]), Restart)
  {
    FromNext(c, Birth, [a], b);
    FromNext(c, Birth, [a, b], Restart);
    assert [a] + [b] == [a, b];
  }

  lemma FailedIsLogged(c: Codec, msg: string)
    requires c.enc == EncEvent && |Urls.Trim(msg)| >= MaxScanBufSize
    ensures
      var l := AfterRequest(Created1(), MarkFailed("t", 0, msg, 2), Calm);
      l.up && StatusAt(l.tasks, File1) == Some(FileError) && !Short(c, l.logged)
  {
    var m, call := OneWaiting(), MarkFailed("t", 0, msg, 2);
    MarkTurnedDown(m, call);
    MarkChangesOneStatus(m, call, File1);
    LongMessageIsLongLine(c, m, call);
    LongAfterCalm(c, Created1(), call);
  }

  lemma LongAfterCalm(c: Codec, l: Life, call: Call)
    requires l.log.Open? && !Short(c, Exec(l.tasks, call).events)
    ensures
      var r := AfterRequest(l, call, Calm);
      r.up == l.up && r.tasks == Exec(l.tasks, call).tasks && !Short(c, r.logged)
  {
    var evs := Exec(l.tasks, call).events;
    NoEventsNoChange(l.tasks, call);
    assert evs[..|evs|] == evs;
    var k :| 0 <= k < |evs| && |Encode(c, evs[k])| >= MaxScanBufSize;
    assert (l.logged + evs)[|l.logged| + k] == evs[k];
  }
}
