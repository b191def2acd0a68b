/** The text of the write-ahead log: one JSON object a line, and how it is read back. */
module Wal {
  import opened Core
  import opened Records
  import Json

  /** How an event and its payload stand as a JSON value. An event is clean when the encoder keeps its
      texts as they are: it replaces bytes that are not valid UTF-8. */
  datatype Codec = Codec(enc: Event -> Json.Json, dec: Json.Json -> Option<Event>, clean: Event -> bool)

  ghost predicate Lossless(c: Codec) {
    forall ev :: c.enc(ev).Obj? && (c.clean(ev) ==> c.dec(c.enc(ev)) == Some(ev))
  }

  const MaxScanBufSize: nat := 6 * 1024 * 1024

  datatype ReadError = LineTooLong | NotAnEvent | Interrupted

  function Encode(c: Codec, ev: Event): string {
    Json.ToString(Json.Print(c.enc(ev), Json.End))
  }

  function Line(c: Codec, ev: Event): string {
    Encode(c, ev) + "\n"
  }

  function EncodeAll(c: Codec, evs: seq<Event>): string {
    if evs == [] then "" else Line(c, evs[0]) + EncodeAll(c, evs[1..])
  }

  predicate Clean(c: Codec, evs: seq<Event>) {
    forall i :: 0 <= i < |evs| ==> c.clean(evs[i])
  }

  /** Every line is within what a restart can scan. */
  predicate Short(c: Codec, evs: seq<Event>) {
    forall i :: 0 <= i < |evs| ==> |Encode(c, evs[i])| < MaxScanBufSize
  }

  predicate Fits(c: Codec, evs: seq<Event>) {
    Clean(c, evs) && Short(c, evs)
  }

  lemma {:induction false} EncodeAllConcat(c: Codec, a: seq<Event>, b: seq<Event>)
    ensures EncodeAll(c, a + b) == EncodeAll(c, a) + EncodeAll(c, b)
  {
    if a == [] {
      assert a + b == b;
    } else {
      assert (a + b)[1..] == a[1..] + b;
      EncodeAllConcat(c, a[1..], b);
    }
  }

  // ---------------------------------------------------------------- reading

  function LineEnd(s: string): (k: nat)
    ensures k <= |s| && (k < |s| ==> s[k] == '\n')
    ensures forall m :: 0 <= m < k ==> s[m] != '\n'
  {
    if s == "" || s[0] == '\n' then 0 else 1 + LineEnd(s[1..])
  }

  function DropCR(line: string): string {
    if line != "" && line[|line| - 1] == '\r' then line[..|line| - 1] else line
  }

  /** The text after the first line. */
  function AfterLine(s: string): (r: string)
    ensures |r| <= |s| && (s != "" ==> |r| < |s|)
  {
    if LineEnd(s) < |s| then s[LineEnd(s) + 1..] else ""
  }

  function Prepend(evs: seq<Event>, r: Result<seq<Event>, ReadError>): Result<seq<Event>, ReadError> {
    match r
    case Success(more) => Success(evs + more)
    case Failure(e) => Failure(e)
  }

  /** What a line, without its line break, is to the reader. */
  datatype Meaning = TooLong | Blank | NotJson | NoEvent | Record(ev: Event)

  function MeaningOf(c: Codec, line: string): Meaning {
    if |line| >= MaxScanBufSize then TooLong
    else if DropCR(line) == "" then Blank
    else
      match Json.ParseWhole(Json.FromString(DropCR(line)))
      case None => NotJson
      case Some(j) => if c.dec(j) == None then NoEvent else Record(c.dec(j).value)
  }

  function FirstLine(s: string): string {
    s[..LineEnd(s)]
  }

  /** What reading a log file gives: a line that is not JSON ends the log silently, a line over the
      scan limit or one that is no event is an error. */
  function ReadEvents(c: Codec, s: string): Result<seq<Event>, ReadError>
    decreases |s|
  {
    if s == "" then Success([])
    else
      match MeaningOf(c, FirstLine(s))
      case TooLong => Failure(LineTooLong)
      case Blank => ReadEvents(c, AfterLine(s))
      case NotJson => Success([])
      case NoEvent => Failure(NotAnEvent)
      case Record(ev) => Prepend([ev], ReadEvents(c, AfterLine(s)))
  }

  lemma PrependTwice(a: seq<Event>, b: seq<Event>, r: Result<seq<Event>, ReadError>)
    ensures Prepend(a, Prepend(b, r)) == Prepend(a + b, r)
  {
    if r.Success? {
      assert a + (b + r.value) == a + b + r.value;
    }
  }

  lemma PrependNothing(r: Result<seq<Event>, ReadError>, evs: seq<Event>)
    ensures Prepend([], r) == r
    ensures Prepend(evs, Success([])) == Success(evs)
  {
    assert evs + [] == evs;
    if r.Success? {
      assert [] + r.value == r.value;
    }
  }

  /** At how many lines the loop looks at its context: at each it gets to that is within the scan limit. */
  function Turns(c: Codec, s: string): nat
    decreases |s|
  {
    if s == "" then 0
    else
      match MeaningOf(c, FirstLine(s))
      case TooLong => 0
      case Blank => 1 + Turns(c, AfterLine(s))
      case NotJson => 1
      case NoEvent => 1
      case Record(_) => 1 + Turns(c, AfterLine(s))
  }

  /** One line further. */
  lemma ReadingGoesOn(c: Codec, s: string)
    requires s != ""
    ensures
      var (kind, r, n) := (MeaningOf(c, FirstLine(s)), ReadEvents(c, AfterLine(s)), Turns(c, AfterLine(s)));
      && ReadEvents(c, s) == (match kind
                              case TooLong => Failure(LineTooLong)
                              case Blank => r
                              case NotJson => Success([])
                              case NoEvent => Failure(NotAnEvent)
                              case Record(ev) => Prepend([ev], r))
      && Turns(c, s) == (if kind.TooLong? then 0 else if kind.NotJson? || kind.NoEvent? then 1 else 1 + n)
  {
  }

  /** The scanning loop of the program. stopAt is the turn of the loop at which the context is found
      ended or the file cannot be read on, if that happens. */
  method ReadAll(c: Codec, data: string, stopAt: Option<nat>) returns (r: Result<seq<Event>, ReadError>)
    ensures r == if stopAt.Some? && stopAt.value < Turns(c, data) then Failure(Interrupted) else ReadEvents(c, data)
  {
    var evs: seq<Event> := [];
    var rest := data;
    ghost var all := ReadEvents(c, data);
    var turn := 0;
    PrependNothing(all, []);
    while rest != ""
      invariant all == Prepend(evs, ReadEvents(c, rest)) && Turns(c, data) == turn + Turns(c, rest)
      invariant stopAt.Some? ==> turn <= stopAt.value
      decreases |rest|
    {
      var k := LineEnd(rest);
      ghost var meaning := MeaningOf(c, FirstLine(rest));
      ReadingGoesOn(c, rest);
      PrependNothing(Success([]), evs);
      if k >= MaxScanBufSize {
        assert meaning == TooLong;
        return Failure(LineTooLong);
      }
      if stopAt == Some(turn) {
        return Failure(Interrupted);
      }
      turn := turn + 1;
      var line := DropCR(rest[..k]);
      var next := AfterLine(rest);
      if line != "" {
        var j := Json.ParseWhole(Json.FromString(line));
        if j == None {
          assert meaning == NotJson;
          return Success(evs);
        }
        var ev := c.dec(j.value);
        if ev == None {
          assert meaning == NoEvent;
          return Failure(NotAnEvent);
        }
        assert meaning == Record(ev.value);
        PrependTwice(evs, [ev.value], ReadEvents(c, next));
        evs := evs + [ev.value];
      }
      rest := next;
    }
    PrependNothing(Success([]), evs);
    return Success(evs);
  }

  // ---------------------------------------------------------------- round trip

  lemma EncodedLine(c: Codec, ev: Event)
    requires Lossless(c)
    ensures Encode(c, ev) != ""
    ensures forall k :: 0 <= k < |Encode(c, ev)| ==> Encode(c, ev)[k] >= ' '
    ensures Json.ParseWhole(Json.FromString(Encode(c, ev))) == Some(c.enc(ev))
  {
    var t := Json.Print(c.enc(ev), Json.End);
    Json.PrintedIsPrintable(c.enc(ev), Json.End);
    Json.PrintableString(t);
    Json.FromToString(t);
    Json.WholeParses(c.enc(ev));
  }

  lemma {:induction false} LineEndAt(s: string, k: nat)
    requires k <= |s| && (forall m :: 0 <= m < k ==> s[m] != '\n') && (k < |s| ==> s[k] == '\n')
    ensures LineEnd(s) == k
    decreases k
  {
    if k > 0 { LineEndAt(s[1..], k - 1); }
  }

  predicate OneLine(line: string) {
    forall k :: 0 <= k < |line| ==> line[k] != '\n'
  }

  lemma FirstOfTwo(line: string, rest: string)
    requires OneLine(line)
    ensures FirstLine(line + "\n" + rest) == line && AfterLine(line + "\n" + rest) == rest
    ensures FirstLine(line) == line && AfterLine(line) == ""
  {
    var s := line + "\n" + rest;
    LineEndAt(s, |line|);
    LineEndAt(line, |line|);
    assert s[..|line|] == line && s[|line| + 1..] == rest && line[..|line|] == line;
  }

  lemma EncodedMeans(c: Codec, ev: Event)
    requires Lossless(c)
    ensures OneLine(Encode(c, ev)) && Encode(c, ev) != ""
    ensures c.clean(ev) && |Encode(c, ev)| < MaxScanBufSize ==> MeaningOf(c, Encode(c, ev)) == Record(ev)
  {
    EncodedLine(c, ev);
    assert DropCR(Encode(c, ev)) == Encode(c, ev);
  }

  /** One whole record, with its line break or at the very end of the file. */
  lemma RecordReads(c: Codec, ev: Event, rest: string)
    requires Lossless(c) && c.clean(ev) && |Encode(c, ev)| < MaxScanBufSize
    ensures ReadEvents(c, Line(c, ev) + rest) == Prepend([ev], ReadEvents(c, rest))
    ensures Turns(c, Line(c, ev) + rest) == 1 + Turns(c, rest)
    ensures ReadEvents(c, Encode(c, ev)) == Success([ev])
  {
    EncodedMeans(c, ev);
    FirstOfTwo(Encode(c, ev), rest);
    assert ReadEvents(c, "") == Success([]);
    PrependNothing(Success([]), [ev]);
  }

  /** A log goes on with what stands behind its records, whatever that is. */
  lemma {:induction false} ReadsOn(c: Codec, evs: seq<Event>, rest: string)
    requires Lossless(c) && Fits(c, evs)
    ensures ReadEvents(c, EncodeAll(c, evs) + rest) == Prepend(evs, ReadEvents(c, rest))
    ensures Turns(c, EncodeAll(c, evs) + rest) == |evs| + Turns(c, rest)
  {
    if evs == [] {
      PrependNothing(ReadEvents(c, rest), []);
      assert "" + rest == rest;
    } else {
      var more := evs[1..];
      var behind := EncodeAll(c, more) + rest;
      assert forall i :: 0 <= i < |more| ==> more[i] == evs[i + 1];
      ReadsOn(c, more, rest);
      assert EncodeAll(c, evs) + rest == Line(c, evs[0]) + behind;
      RecordReads(c, evs[0], behind);
      PrependTwice([evs[0]], more, ReadEvents(c, rest));
      assert [evs[0]] + more == evs;
    }
  }

  /** What the next line does to the reading: one at the scan limit or over it is an error; a blank one is
      passed over; one that is not JSON ends the log, and nothing behind it is read; a value that is no event
      is an error; an event comes before those of the lines behind it. A carriage return before the line break
      is no part of the line. */
  lemma NextLine(c: Codec, line: string, rest: string)
    requires OneLine(line)
    ensures
      var r := ReadEvents(c, line + "\n" + rest);
      && (|line| >= MaxScanBufSize ==> r == Failure(LineTooLong))
      && (line in {"", "\r"} ==> r == ReadEvents(c, rest))
      && forall body ::
           |line| < MaxScanBufSize && body != "" && (line == body + "\r" || (line == body && body[|body| - 1] != '\r')) ==>
             match Json.ParseWhole(Json.FromString(body))
             case None => r == Success([])
             case Some(j) => r == if c.dec(j) == None then Failure(NotAnEvent) else Prepend([c.dec(j).value], ReadEvents(c, rest))
  {
    FirstOfTwo(line, rest);
    ReadingGoesOn(c, line + "\n" + rest);
    forall body | |line| < MaxScanBufSize && body != "" && (line == body + "\r" || (line == body && body[|body| - 1] != '\r'))
      ensures
        MeaningOf(c, line)
        == match Json.ParseWhole(Json.FromString(body))
           case None => NotJson
           case Some(j) => if c.dec(j) == None then NoEvent else Record(c.dec(j).value)
    {
      assert DropCR(line) == body;
    }
  }

  /** A line that is not JSON, such as a torn one that later records were appended to, ends the log for good:
      nothing behind it is ever read. */
  lemma BadLineEndsTheLog(c: Codec, evs: seq<Event>, bad: string, rest: string)
    requires Lossless(c) && Fits(c, evs) && OneLine(bad) && 0 < |bad| < MaxScanBufSize && bad[|bad| - 1] != '\r'
    requires Json.ParseWhole(Json.FromString(bad)) == None
    ensures ReadEvents(c, EncodeAll(c, evs) + (bad + "\n" + rest)) == Success(evs)
    ensures Turns(c, EncodeAll(c, evs) + (bad + "\n" + rest)) == |evs| + 1
  {
    ReadsOn(c, evs, bad + "\n" + rest);
    FirstOfTwo(bad, rest);
    assert MeaningOf(c, bad) == NotJson;
    PrependNothing(Success([]), evs);
  }

  /** Reading a whole log looks at its context once for every event. */
  lemma TurnsOfLog(c: Codec, evs: seq<Event>)
    requires Lossless(c) && Fits(c, evs)
    ensures Turns(c, EncodeAll(c, evs)) == |evs|
  {
    ReadsOn(c, evs, "");
    assert EncodeAll(c, evs) + "" == EncodeAll(c, evs);
  }

  lemma TornRecordIsDropped(c: Codec, ev: Event, n: nat)
    requires Lossless(c) && n < |Encode(c, ev)| < MaxScanBufSize
    ensures ReadEvents(c, Encode(c, ev)[..n]) == Success([])
  {
    var e := Encode(c, ev);
    var p := e[..n];
    EncodedLine(c, ev);
    FirstOfTwo(p, "");
    if n > 0 {
      assert DropCR(p) == p;
      Json.FromStringConcat(p, e[n..]);
      assert p + e[n..] == e;
      Json.FromToString(Json.Print(c.enc(ev), Json.End));
      Json.PrefixDoesNotParse(c.enc(ev), Json.FromString(p), Json.FromString(e[n..]));
    }
  }

  /** A line at or over the scan limit stops the reading of everything from it on. */
  lemma LongLineFails(c: Codec, ev: Event, rest: string)
    requires Lossless(c) && |Encode(c, ev)| >= MaxScanBufSize
    ensures ReadEvents(c, Line(c, ev) + rest) == Failure(LineTooLong)
  {
    EncodedMeans(c, ev);
    FirstOfTwo(Encode(c, ev), rest);
  }

  /** Reading back what was appended gives it back exactly if every line is within the limit, and
      fails otherwise. */
  lemma {:induction false} ReadsBackIff(c: Codec, evs: seq<Event>)
    requires Lossless(c) && Clean(c, evs)
    ensures ReadEvents(c, EncodeAll(c, evs)) == if Short(c, evs) then Success(evs) else Failure(LineTooLong)
  {
    if evs != [] {
      var rest := evs[1..];
      assert Short(c, evs) <==> |Encode(c, evs[0])| < MaxScanBufSize && Short(c, rest) by {
        assert forall i :: 0 <= i < |rest| ==> rest[i] == evs[i + 1];
      }
      ReadsBackIff(c, rest);
      if |Encode(c, evs[0])| < MaxScanBufSize {
        RecordReads(c, evs[0], EncodeAll(c, rest));
        assert [evs[0]] + rest == evs;
      } else {
        LongLineFails(c, evs[0], EncodeAll(c, rest));
      }
    }
  }

  /** k events of evs survive a cut after n bytes: those whose text is whole, with or without its
      line break, and no other. */
  predicate Survive(c: Codec, evs: seq<Event>, n: nat, k: nat) {
    && k <= |evs|
    && |EncodeAll(c, evs[..k])| <= n + 1
    && (k < |evs| ==> n < |EncodeAll(c, evs[..k])| + |Encode(c, evs[k])|)
  }

  /** Reading a log cut after any byte gives exactly the events that survive. */
  lemma {:induction false} TornTail(c: Codec, evs: seq<Event>, n: nat) returns (k: nat)
    requires Lossless(c) && Fits(c, evs) && n <= |EncodeAll(c, evs)|
    ensures Survive(c, evs, n, k)
    ensures ReadEvents(c, EncodeAll(c, evs)[..n]) == Success(evs[..k])
    decreases |evs|
  {
    if evs == [] {
      k := 0;
      assert EncodeAll(c, evs)[..n] == "";
    } else if n <= |Encode(c, evs[0])| {
      k := CutInFirst(c, evs, n);
    } else {
      var m := n - |Encode(c, evs[0])| - 1;
      var rest := EncodeAll(c, evs[1..]);
      var k' := TornTail(c, evs[1..], m);
      k := 1 + k';
      assert EncodeAll(c, evs)[..n] == Line(c, evs[0]) + rest[..m];
      RecordReads(c, evs[0], rest[..m]);
      FirstAndRest(c, evs, k');
    }
  }

  lemma TakeOfConcat(a: string, b: string, n: nat)
    requires n <= |a|
    ensures (a + b)[..n] == a[..n]
  {
  }

  lemma StartOfLog(c: Codec, evs: seq<Event>, n: nat)
    requires evs != [] && n <= |Encode(c, evs[0])|
    ensures n < |EncodeAll(c, evs)| && EncodeAll(c, evs)[..n] == Encode(c, evs[0])[..n]
  {
    var e, rest := Encode(c, evs[0]), EncodeAll(c, evs[1..]);
    assert e + "\n" + rest == e + ("\n" + rest);
    TakeOfConcat(e, "\n" + rest, n);
  }

  lemma FirstSurvives(c: Codec, evs: seq<Event>)
    requires Lossless(c) && evs != []
    ensures evs[..1] == [evs[0]] && Survive(c, evs, |Encode(c, evs[0])|, 1)
  {
    assert evs[..1][1..] == [];
    assert EncodeAll(c, []) == "";
    if |evs| > 1 { EncodedLine(c, evs[1]); }
  }

  lemma CutInFirst(c: Codec, evs: seq<Event>, n: nat) returns (k: nat)
    requires Lossless(c) && Fits(c, evs) && evs != [] && n <= |Encode(c, evs[0])|
    ensures n <= |EncodeAll(c, evs)| && Survive(c, evs, n, k)
    ensures ReadEvents(c, EncodeAll(c, evs)[..n]) == Success(evs[..k])
  {
    StartOfLog(c, evs, n);
    if n < |Encode(c, evs[0])| {
      k := 0;
      TornRecordIsDropped(c, evs[0], n);
      assert evs[..0] == [];
    } else {
      k := 1;
      assert Encode(c, evs[0])[..n] == Encode(c, evs[0]);
      RecordReads(c, evs[0], "");
      FirstSurvives(c, evs);
    }
  }

  lemma FirstAndRest(c: Codec, evs: seq<Event>, k: nat)
    requires evs != [] && k < |evs|
    ensures evs[..k + 1] == [evs[0]] + evs[1..][..k]
    ensures |EncodeAll(c, evs[..k + 1])| == |Encode(c, evs[0])| + 1 + |EncodeAll(c, evs[1..][..k])|
    ensures k + 1 < |evs| ==> evs[k + 1] == evs[1..][k]
  {
    assert evs[..k + 1][1..] == evs[1..][..k];
  }
}
