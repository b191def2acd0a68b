/** A value torn off in the middle, with another object right behind it: such a text is no JSON. */
module JsonTears {
  import opened Core
  import opened Json

  /** The text of an object whose first field name begins with a v, as every log record is. */
  predicate IsRecord(q: Text) {
    && q.Cons? && q.head == '{' && q.tail.Cons? && q.tail.head == QUOTE && q.tail.tail.Cons? && q.tail.tail.head == 'v'
    && ParseValue(q).Good? && ParseValue(q).rest == End
  }

  /** What may follow a value that was parsed across the tear: nothing, or something no value can be followed by. */
  predicate Stuck(t: Text) {
    t.Cons? ==> t.head == '{' || t.head == 'v'
  }

  lemma EscapeTears(p: Text, r: Text, q: Text)
    requires IsRecord(q) && ParseEscape(p).Bad? && ParseEscape(Append(p, r)).Good?
    ensures ParseEscape(Append(p, q)).Bad?
  {
    if p.Cons? && p.head == 'u' {
      var h := p.tail;
      if h.Cons? {
        assert Append(h, r) == Cons(h.head, Append(h.tail, r)) && Append(h, q) == Cons(h.head, Append(h.tail, q));
        if h.tail.Cons? {
          HexTears(h, r, q);
        }
      }
    }
  }

  lemma HexTears(h: Text, r: Text, q: Text)
    requires IsRecord(q) && h.Cons? && h.tail.Cons? && ParseHex(h).Bad? && ParseHex(Append(h, r)).Good?
    ensures ParseHex(Append(h, q)).Bad?
  {
    var h2 := h.tail.tail;
    assert Append(h, r) == Cons(h.head, Cons(h.tail.head, Append(h2, r)));
    assert Append(h, q) == Cons(h.head, Cons(h.tail.head, Append(h2, q)));
    if h2.Cons? {
      assert Append(h2, r) == Cons(h2.head, Append(h2.tail, r)) && Append(h2, q) == Cons(h2.head, Append(h2.tail, q));
      assert h2.tail.Cons? ==> Append(h2.tail, r) == Cons(h2.tail.head, Append(h2.tail.tail, r));
    }
  }

  /** A torn string ends at the first quote of the record, before the v. */
  lemma {:induction false} CharsTear(p: Text, r: Text, q: Text)
    requires IsRecord(q) && ParseChars(p).Bad? && ParseChars(Append(p, r)).Good?
    ensures var a := ParseChars(Append(p, q)); a.Good? ==> a.rest.Cons? && a.rest.head == 'v'
    decreases Length(p)
  {
    if p == End {
      assert ParseChars(q.tail) == Good(End, q.tail.tail);
    } else if p.head == BACKSLASH {
      if ParseEscape(p.tail).Good? {
        EscapeExtends(p.tail, r);
        EscapeExtends(p.tail, q);
        CharsTear(ParseEscape(p.tail).rest, r, q);
      } else {
        EscapeTears(p.tail, r, q);
      }
    } else if p.head != QUOTE {
      CharsTear(p.tail, r, q);
    }
  }

  lemma {:induction false} DigitsTear(p: Text, acc: nat, q: Text)
    requires IsRecord(q)
    ensures ParseDigits(p, acc).1 == End ==> ParseDigits(Append(p, q), acc) == (ParseDigits(p, acc).0, q)
  {
    if p.Cons? && IsDigit(p.head) {
      DigitsTear(p.tail, acc * 10 + (p.head as nat - 48), q);
    }
  }

  /** The value is whole in p, whatever follows. */
  predicate IsWhole(p: Parsed<Json>) {
    p.Good? && (p.value.Num? ==> p.rest.Cons?)
  }

  /** A text that could go on to be a value and breaks off before it is one, with a record behind it. */
  lemma {:induction false} ValueTears(p: Text, r: Text, q: Text)
    requires IsRecord(q) && !IsWhole(ParseValue(p)) && ParseValue(Append(p, r)).Good?
    ensures var a := ParseValue(Append(p, q)); a.Good? ==> Stuck(a.rest)
    ensures p.Cons? && p.head == '{' ==> ParseValue(Append(p, q)).Bad?
    decreases Length(p), 0
  {
    if p.Cons? {
      var u := p.tail;
      if p.head == QUOTE {
        CharsTear(u, r, q);
      } else if p.head == '{' {
        if u.Cons? { FieldsTear(u, r, q); }
      } else if p.head == '[' {
        if u.Cons? { ItemsTear(u, r, q); } else { ItemsTear(End, r, q); }
      } else if p.head == 'n' {
        NullTears(u, r, q);
      } else if IsDigit(p.head) {
        DigitsTear(u, p.head as nat - 48, q);
      } else if u.Cons? {
        DigitsTear(u.tail, u.head as nat - 48, q);
      }
    }
  }

  lemma NullTears(u: Text, r: Text, q: Text)
    requires IsRecord(q) && ParseValue(Cons('n', u)).Bad?
    ensures ParseValue(Cons('n', Append(u, q))).Bad?
  {
    if u.Cons? && u.tail.Cons? {
      assert Append(u, q) == Cons(u.head, Cons(u.tail.head, Append(u.tail.tail, q)));
      if u.tail.tail.Cons? {
        assert Append(u.tail.tail, q) == Cons(u.tail.tail.head, Append(u.tail.tail.tail, q));
      }
    }
  }

  lemma {:induction false} ItemsTear(p: Text, r: Text, q: Text)
    requires IsRecord(q) && ParseItems(p).Bad? && (p == End || ParseItems(Append(p, r)).Good?)
    ensures ParseItems(Append(p, q)).Bad?
    decreases Length(p), 1
  {
    if p.Cons? {
      if IsWhole(ParseValue(p)) {
        ValueExtends(p, r);
        ValueExtends(p, q);
        var more := ParseValue(p).rest;
        if more.Cons? && more.head == ',' {
          ItemsTear(more.tail, r, q);
        }
      } else {
        ValueTears(p, r, q);
      }
    }
  }

  lemma {:induction false} FieldsTear(p: Text, r: Text, q: Text)
    requires IsRecord(q) && ParseFields(p).Bad? && (p == End || ParseFields(Append(p, r)).Good?)
    ensures ParseFields(Append(p, q)).Bad?
    decreases Length(p), 2
  {
    if p.Cons? {
      if ParseChars(p.tail).Good? {
        CharsExtend(p.tail, r);
        CharsExtend(p.tail, q);
        var u := ParseChars(p.tail).rest;
        if u.Cons? && u.head == ':' {
          FieldValueTears(p, u.tail, r, q);
        }
      } else {
        CharsTear(p.tail, r, q);
      }
    }
  }

  lemma {:induction false} FieldValueTears(p: Text, v: Text, r: Text, q: Text)
    requires IsRecord(q) && p.Cons? && ParseFields(p).Bad? && ParseFields(Append(p, r)).Good? && p.head == QUOTE
    requires ParseChars(p.tail).Good? && ParseChars(p.tail).rest == Cons(':', v)
    requires ParseChars(Append(p.tail, r)) == Good(ParseChars(p.tail).value, Cons(':', Append(v, r)))
    requires ParseChars(Append(p.tail, q)) == Good(ParseChars(p.tail).value, Cons(':', Append(v, q)))
    ensures ParseFields(Append(p, q)).Bad?
    decreases Length(v), 3
  {
    if IsWhole(ParseValue(v)) {
      ValueExtends(v, r);
      ValueExtends(v, q);
      var more := ParseValue(v).rest;
      if more.Cons? && more.head == ',' {
        FieldsTear(more.tail, r, q);
      }
    } else {
      ValueTears(v, r, q);
    }
  }

  /** The start of an object, or all of it, with a record right behind it is no JSON text. */
  lemma TornObjectAndRecord(j: Json, p: Text, r: Text, q: Text)
    requires j.Obj? && Print(j, End) == Append(p, r) && p.Cons? && IsRecord(q)
    ensures ParseWhole(Append(p, q)) == None
  {
    ValueParses(j, End);
    if ParseValue(p).Good? {
      ValueExtends(p, r);
      ValueExtends(p, q);
      AppendIsLonger(ParseValue(p).rest, r);
      AppendIsLonger(ParseValue(p).rest, q);
    } else {
      ValueTears(p, r, q);
    }
  }

  lemma AppendIsLonger(s: Text, t: Text)
    ensures Append(s, t) == End <==> s == End && t == End
  {
  }
}

/** Appending to a log that a crash has cut: the program reopens the file as it is, so new records may land
    behind half a line. */
module TornAppends {
  import opened Core
  import opened Records
  import opened Replay
  import opened Wal
  import opened Disks
  import opened Recovery
  import opened EventCodecs
  import opened JsonTears
  import opened Objects
  import opened TaskStores
  import opened FileTaskStores
  import Json

  /** Every record begins with the field of its version. */
  ghost predicate Versioned(c: Codec) {
    forall ev :: IsRecord(Json.Print(c.enc(ev), Json.End))
  }

  lemma EncodedIsVersioned(c: Codec)
    requires c.enc == EncEvent
    ensures Versioned(c)
  {
    forall ev ensures IsRecord(Json.Print(c.enc(ev), Json.End)) {
      EventIsRecord(ev);
    }
  }

  lemma EventIsRecord(ev: Event)
    ensures IsRecord(Json.Print(EncEvent(ev), Json.End))
  {
    StartsWithName(EncEvent(ev));
    Json.ValueParses(EncEvent(ev), Json.End);
  }

  lemma StartsWithName(j: Json.Json)
    requires j.Obj? && j.fields.Field? && j.fields.name.Cons? && j.fields.name.head == 'v'
    ensures
      var q := Json.Print(j, Json.End);
      && q.Cons? && q.head == '{' && q.tail.Cons? && q.tail.head == Json.QUOTE
      && q.tail.tail.Cons? && q.tail.tail.head == 'v'
  {
  }

  // ---------------------------------------------------------------- where a cut falls

  /** After n bytes of a log: j whole lines, and m bytes of the next one's text. */
  predicate CutAt(c: Codec, evs: seq<Event>, n: nat, j: nat, m: nat) {
    && n <= |EncodeAll(c, evs)| && j <= |evs| && (m > 0 ==> j < |evs| && m <= |Encode(c, evs[j])|)
    && EncodeAll(c, evs)[..n] == EncodeAll(c, evs[..j]) + if m > 0 then Encode(c, evs[j])[..m] else ""
  }

  lemma {:induction false} WhereCut(c: Codec, evs: seq<Event>, n: nat) returns (j: nat, m: nat)
    requires n <= |EncodeAll(c, evs)|
    ensures CutAt(c, evs, n, j, m)
    decreases |evs|
  {
    j, m := 0, n;
    assert evs[..0] == [];
    if evs != [] {
      var line, rest := Line(c, evs[0]), EncodeAll(c, evs[1..]);
      if n < |line| {
        assert EncodeAll(c, evs)[..n] == line[..n] == Encode(c, evs[0])[..n];
      } else {
        j, m := WhereCut(c, evs[1..], n - |line|);
        CutLater(c, evs, n, j, m);
        j := j + 1;
      }
    }
  }

  lemma CutLater(c: Codec, evs: seq<Event>, n: nat, j: nat, m: nat)
    requires evs != [] && |Line(c, evs[0])| <= n && CutAt(c, evs[1..], n - |Line(c, evs[0])|, j, m)
    ensures CutAt(c, evs, n, j + 1, m)
  {
    var line, k := Line(c, evs[0]), n - |Line(c, evs[0])|;
    var behind := if m > 0 then Encode(c, evs[1..][j])[..m] else "";
    assert EncodeAll(c, evs)[..n] == line + EncodeAll(c, evs[1..])[..k];
    assert evs[..j + 1][1..] == evs[1..][..j];
    assert line + (EncodeAll(c, evs[1..][..j]) + behind) == line + EncodeAll(c, evs[1..][..j]) + behind;
  }

  // ---------------------------------------------------------------- what is read then

  lemma EncodedText(c: Codec, ev: Event)
    ensures Json.FromString(Encode(c, ev)) == Json.Print(c.enc(ev), Json.End)
  {
    Json.FromToString(Json.Print(c.enc(ev), Json.End));
  }

  /** Half a line, or all of its text, with a record right behind it is a line that is not JSON. */
  lemma TornLineIsBad(c: Codec, ev: Event, m: nat, next: Event)
    requires Lossless(c) && Versioned(c) && 0 < m <= |Encode(c, ev)|
    ensures
      var bad := Encode(c, ev)[..m] + Encode(c, next);
      OneLine(bad) && bad[|bad| - 1] != '\r' && Json.ParseWhole(Json.FromString(bad)) == None
  {
    var e, f := Encode(c, ev), Encode(c, next);
    EncodedLine(c, ev);
    EncodedLine(c, next);
    EncodedText(c, ev);
    EncodedText(c, next);
    assert e[..m] + e[m..] == e;
    Json.FromStringConcat(e[..m], e[m..]);
    Json.FromStringConcat(e[..m], f);
    TornObjectAndRecord(c.enc(ev), Json.FromString(e[..m]), Json.FromString(e[m..]), Json.FromString(f));
  }

  /** What appending to a cut log comes to: behind whole lines the new records are read after them; behind part of
      a line, or behind a text without its line break, neither that line nor any later one is ever read again. */
  lemma AppendToCut(c: Codec, evs: seq<Event>, n: nat, j: nat, m: nat, more: seq<Event>)
    requires Lossless(c) && Versioned(c) && Fits(c, evs) && Fits(c, more) && more != [] && CutAt(c, evs, n, j, m)
    ensures
      ReadEvents(c, EncodeAll(c, evs)[..n] + EncodeAll(c, more))
      == if m == 0 then Success(evs[..j] + more)
         else if m + |Encode(c, more[0])| < MaxScanBufSize then Success(evs[..j])
         else Failure(LineTooLong)
  {
    var whole := EncodeAll(c, evs[..j]);
    assert forall i :: 0 <= i < j ==> evs[..j][i] == evs[i];
    if m == 0 {
      assert whole + "" == whole;
      ReadsOn(c, evs[..j], EncodeAll(c, more));
      ReadsBackIff(c, more);
    } else {
      AppendToTear(c, evs[..j], evs[j], m, more);
    }
  }

  lemma AppendToTear(c: Codec, evs: seq<Event>, ev: Event, m: nat, more: seq<Event>)
    requires Lossless(c) && Versioned(c) && Fits(c, evs) && more != [] && 0 < m <= |Encode(c, ev)|
    ensures
      ReadEvents(c, EncodeAll(c, evs) + Encode(c, ev)[..m] + EncodeAll(c, more))
      == if m + |Encode(c, more[0])| < MaxScanBufSize then Success(evs) else Failure(LineTooLong)
  {
    var torn, next, rest := Encode(c, ev)[..m], Encode(c, more[0]), EncodeAll(c, more[1..]);
    var bad := torn + next;
    TornLineIsBad(c, ev, m, more[0]);
    assert EncodeAll(c, evs) + torn + (next + "\n" + rest) == EncodeAll(c, evs) + (bad + "\n" + rest);
    if |bad| < MaxScanBufSize {
      BadLineEndsTheLog(c, evs, bad, rest);
    } else {
      ReadsOn(c, evs, bad + "\n" + rest);
      NextLine(c, bad, rest);
    }
  }

  /** So records appended after a crash are read back exactly if the crash left whole lines. */
  lemma AppendedIsReadIff(c: Codec, evs: seq<Event>, n: nat, more: seq<Event>)
    requires Lossless(c) && Versioned(c) && Fits(c, evs) && Fits(c, more) && more != [] && n <= |EncodeAll(c, evs)|
    ensures
      var text := EncodeAll(c, evs)[..n];
      (ReadEvents(c, text).Success?
       && ReadEvents(c, text + EncodeAll(c, more)) == Success(ReadEvents(c, text).value + more))
      <==> text == "" || text[|text| - 1] == '\n'
  {
    var j, m := WhereCut(c, evs, n);
    AppendToCut(c, evs, n, j, m, more);
    CutReads(c, evs, n, j, m);
    CutEndsWhole(c, evs, n, j, m);
  }

  /** What is read of a cut log before anything is appended. */
  lemma CutReads(c: Codec, evs: seq<Event>, n: nat, j: nat, m: nat)
    requires Lossless(c) && Fits(c, evs) && CutAt(c, evs, n, j, m)
    ensures
      ReadEvents(c, EncodeAll(c, evs)[..n])
      == Success(if m > 0 && m == |Encode(c, evs[j])| then evs[..j + 1] else evs[..j])
  {
    assert forall i :: 0 <= i < j ==> evs[..j][i] == evs[i];
    ReadsOn(c, evs[..j], if m > 0 then Encode(c, evs[j])[..m] else "");
    PrependNothing(Success([]), evs[..j]);
    if m > 0 {
      if m < |Encode(c, evs[j])| {
        TornRecordIsDropped(c, evs[j], m);
      } else {
        assert Encode(c, evs[j])[..m] == Encode(c, evs[j]);
        RecordReads(c, evs[j], "");
        assert evs[..j + 1] == evs[..j] + [evs[j]];
      }
    }
  }

  lemma CutEndsWhole(c: Codec, evs: seq<Event>, n: nat, j: nat, m: nat)
    requires Lossless(c) && CutAt(c, evs, n, j, m)
    ensures var text := EncodeAll(c, evs)[..n]; m == 0 <==> text == "" || text[|text| - 1] == '\n'
  {
    if m > 0 {
      EncodedLine(c, evs[j]);
    } else if j > 0 {
      assert evs[..j] == evs[..j - 1] + [evs[j - 1]];
      EncodeAllConcat(c, evs[..j - 1], [evs[j - 1]]);
      assert [evs[j - 1]][1..] == [] && EncodeAll(c, []) == "";
    } else {
      assert evs[..0] == [];
    }
  }

  /** The false promise after a crash inside a line: a new process goes on with the log as it is, a batch is
      acknowledged through it, and every later restart finds only what stood before that line. */
  lemma AcknowledgedAfterTearIsLost(c: Codec, p: Saved, q: Saved, evs: seq<Event>, n: nat, j: nat, m: nat, batch: seq<Event>)
    requires Lossless(c) && Versioned(c) && Fits(c, evs) && AllReadable(evs) && CutAt(c, evs, n, j, m) && m > 0
    requires Quiet(p) && p.disk.wal == Some(EncodeAll(c, evs)[..n])
    requires Wrote(c, p, q, batch, true) && batch != [] && Fits(c, batch)
    ensures
      Recover(c, q.disk)
      == if m + |Encode(c, batch[0])| < MaxScanBufSize then Success(Apply(SnapshotTasks(p.disk.snapshot), evs[..j]))
         else Failure(BadLog(LineTooLong))
  {
    var k: nat :| WroteN(c, p, q, batch, true, k);
    OkIsWhole(c, p, q, batch, k);
    AppendToCut(c, evs, n, j, m, batch);
  }

  ghost function LoadedTasks(c: Codec, d: DiskState): Tasks {
    if Recover(c, d).Success? then Recover(c, d).value else map[]
  }

  lemma CutIsLoaded(c: Codec, d: DiskState, evs: seq<Event>, n: nat, j: nat, m: nat)
    requires Lossless(c) && Fits(c, evs) && AllReadable(evs) && CutAt(c, evs, n, j, m) && LogText(d) == EncodeAll(c, evs)[..n]
    ensures Recover(c, d) == Success(LoadedTasks(c, d)) && LoadError(c, d, None) == None
  {
    CutReads(c, evs, n, j, m);
  }

  /** A new process over a log that a crash has cut. */
  method StartOver(c: Codec, disk: Disk, ghost evs: seq<Event>, ghost n: nat, ghost j: nat, ghost m: nat) returns (st: FileTaskStore)
    requires Lossless(c) && Fits(c, evs) && AllReadable(evs) && CutAt(c, evs, n, j, m)
    requires disk.Valid() && disk.room == None && disk.wal == Some(EncodeAll(c, evs)[..n])
    modifies disk`wal, disk`history
    ensures fresh(st) && st.Valid() && st.codec == c && st.disk == disk && fresh(st.log) && fresh(ObjectsOf(st.tasks))
    ensures st.View() == LoadedTasks(c, old(disk.State())) && Healthy(st.Durably()) && st.Durably().disk == old(disk.State())
  {
    CutIsLoaded(c, disk.State(), evs, n, j, m);
    st := new FileTaskStore(c, disk);
    var err, copies := st.LoadAll(true, None);
  }

  /** An update of a known task through a healthy log. */
  method UpdateHealthy(st: FileTaskStore, task: TaskObject, upd: seq<Event>) returns (acked: bool)
    requires st.Valid() && Healthy(st.Durably()) && task.Valid()
    modifies st`tasks, st`logged, st`safe, st.log, st.disk
    ensures acked <==> task.id in old(st.View())
    ensures acked ==> st.View() == old(st.View())[task.id := old(task.View())]
    ensures acked ==> Wrote(st.codec, old(st.Durably()), st.Durably(), upd, true)
  {
    ghost var p := st.Durably();
    var w := Weather(|upd|, true, true);
    var err := st.UpdateTask(task, upd, w);
    TriedIsWrote(st.codec, w, p, st.Durably(), if Unlogged(err) then [] else upd, err == None || Unlogged(err));
    acked := err == None;
  }

  /** The program does it: it starts over a log that a crash has cut inside a line, and acknowledges an update
      that the next restart does not find. */
  method ForgottenAfterTear(c: Codec, disk: Disk, task: TaskObject, upd: seq<Event>,
                            ghost evs: seq<Event>, ghost n: nat, ghost j: nat, ghost m: nat)
    returns (st: FileTaskStore, acked: bool)
    requires Lossless(c) && Versioned(c) && Fits(c, evs) && AllReadable(evs) && CutAt(c, evs, n, j, m) && m > 0
    requires disk.Valid() && disk.room == None && disk.wal == Some(EncodeAll(c, evs)[..n])
    requires task.Valid() && upd != [] && Fits(c, upd) && m + |Encode(c, upd[0])| < MaxScanBufSize
    modifies disk
    ensures st.disk == disk && (acked <==> task.id in LoadedTasks(c, old(disk.State())))
    ensures acked ==> st.View() == LoadedTasks(c, old(disk.State()))[task.id := old(task.View())]
    ensures acked ==> Recover(c, disk.State()) == Success(Apply(SnapshotTasks(old(disk.snapshot)), evs[..j]))
  {
    ghost var v := task.View();
    st := StartOver(c, disk, evs, n, j, m);
    assert task.View() == v;
    ghost var p := st.Durably();
    acked := UpdateHealthy(st, task, upd);
    if acked {
      AcknowledgedAfterTearIsLost(c, p, st.Durably(), evs, n, j, m, upd);
    }
  }
}
