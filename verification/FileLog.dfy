/** The two files on disk, with every state the disk has been in: a crash may fall in any of them. */
module Disks {
  import opened Core

  /** A decoded snapshot file. */
  datatype Snapshot = Snapshot(version: int, tasks: seq<Task>, createdAt: Time)

  /** What a restart finds: the snapshot file and the bytes of the log file, if they are there. */
  datatype DiskState = DiskState(snapshot: Option<Snapshot>, wal: Option<string>)

  ghost predicate LogBetween(d: DiskState, ss: Option<Snapshot>, low: string, high: string) {
    d.snapshot == ss && d.wal.Some? && low <= d.wal.value <= high
  }

  class Disk {
    var snapshot: Option<Snapshot>
    /** The snapshot's temporary file; None while it is missing or only partly written. */
    var tmp: Option<Snapshot>
    var wal: Option<string>
    /** How many more bytes the log file accepts before writes to it fail; None is no limit. The
        environment may change it at any time. */
    var room: Option<nat>
    ghost var history: seq<DiskState>

    ghost function State(): DiskState
      reads this
    {
      DiskState(snapshot, wal)
    }

    ghost predicate Valid()
      reads this
    {
      history != [] && history[|history| - 1] == State()
    }

    constructor ()
      ensures Valid() && snapshot == None && wal == None && room == None
    {
      snapshot, tmp, wal, room := None, None, None, None;
      history := [DiskState(None, None)];
    }

    /** Since the history was h and the log file held w, only the log file changed, and only grew. */
    ghost predicate GrewSince(h: seq<DiskState>, ss: Option<Snapshot>, w: string)
      reads this
    {
      && h <= history && wal.Some? && w <= wal.value && snapshot == ss
      && forall k :: |h| <= k < |history| ==> LogBetween(history[k], ss, w, wal.value)
    }

    lemma GrewTwice(h: seq<DiskState>, ss: Option<Snapshot>, w: string, h': seq<DiskState>, w': string)
      requires h <= h' && w <= w' && forall k :: |h| <= k < |h'| ==> LogBetween(h'[k], ss, w, w')
      requires GrewSince(h', ss, w')
      ensures GrewSince(h, ss, w)
    {
      forall k | |h| <= k < |history| ensures LogBetween(history[k], ss, w, wal.value) {
        if k < |h'| {
          assert history[k] == h'[k];
        }
      }
    }

    /** One write call on the log file: it appends as many bytes as the device takes. */
    method AppendWal(p: string) returns (n: nat)
      requires Valid() && wal.Some?
      modifies this`wal, this`room, this`history
      ensures Valid() && n <= |p| && wal == Some(old(wal.value) + p[..n])
      ensures (room.None? == old(room).None?) && (old(room) == None ==> n == |p|)
      ensures GrewSince(old(history), snapshot, old(wal.value))
    {
      ghost var h, w, ss := history, wal.value, snapshot;
      n := if room.Some? && room.value < |p| then room.value else |p|;
      if room.Some? {
        room := Some(room.value - n);
      }
      wal := Some(wal.value + p[..n]);
      history := h + seq(n + 1, k requires 0 <= k <= n => DiskState(ss, Some(w + p[..k])));
    }

    method WriteTmp(ss: Snapshot, whole: bool)
      requires Valid()
      modifies this`tmp
      ensures Valid() && tmp == if whole then Some(ss) else None
    {
      tmp := if whole then Some(ss) else None;
    }

    method RenameTmp()
      requires Valid() && tmp.Some?
      modifies this`tmp, this`snapshot, this`history
      ensures Valid() && snapshot == old(tmp) && history == old(history) + [State()]
    {
      snapshot, tmp := tmp, None;
      history := history + [DiskState(snapshot, wal)];
    }

    method RenameWalAway()
      requires Valid()
      modifies this`wal, this`history
      ensures Valid() && wal == None && history == old(history) + [State()]
    {
      wal := None;
      history := history + [DiskState(snapshot, wal)];
    }

    /** Opening the log file for appending creates it if it is missing and keeps it otherwise. */
    method OpenWal()
      requires Valid()
      modifies this`wal, this`history
      ensures Valid() && wal == Some(if old(wal).Some? then old(wal.value) else "")
      ensures history == old(history) + [State()]
    {
      wal := Some(if wal.Some? then wal.value else "");
      history := history + [DiskState(snapshot, wal)];
    }
  }
}

/** The append-only log file with its write buffer. */
module FileLogs {
  import opened Core
  import opened Records
  import opened Wal
  import opened Disks

  const DefaultBufSize: nat := 64 * 1024

  /** One attempted Append: the bytes it set out to write, how many of them were taken, and whether
      the store went on to acknowledge it. */
  datatype Batch = Batch(text: string, kept: nat, acked: bool)

  ghost predicate Whole(b: Batch) { b.kept == |b.text| }

  ghost function Kept(bs: seq<Batch>): string
    requires forall i :: 0 <= i < |bs| ==> bs[i].kept <= |bs[i].text|
    decreases |bs|
  {
    if bs == [] then ""
    else
      var b := bs[|bs| - 1];
      Kept(bs[..|bs| - 1]) + b.text[..b.kept]
  }

  /** The batches account for the stream that started at base and is on disk up to flushed: each
      acknowledged batch is whole and lies inside the flushed part. */
  ghost predicate Accounts(bs: seq<Batch>, base: string, stream: string, flushed: nat) {
    && (forall i :: 0 <= i < |bs| ==> bs[i].kept <= |bs[i].text|)
    && stream == base + Kept(bs)
    && forall i :: 0 <= i < |bs| && bs[i].acked ==> Whole(bs[i]) && |base| + |Kept(bs[..i + 1])| <= flushed
  }

  lemma AccountsMore(bs: seq<Batch>, base: string, stream: string, flushed: nat, flushed': nat)
    requires Accounts(bs, base, stream, flushed) && flushed <= flushed'
    ensures Accounts(bs, base, stream, flushed')
  {
  }

  lemma AccountsAppend(bs: seq<Batch>, base: string, stream: string, flushed: nat, b: Batch)
    requires Accounts(bs, base, stream, flushed) && b.kept <= |b.text| && !b.acked
    ensures Accounts(bs + [b], base, stream + b.text[..b.kept], flushed)
  {
    var r := bs + [b];
    assert r[..|r| - 1] == bs;
    assert base + Kept(bs) + b.text[..b.kept] == base + (Kept(bs) + b.text[..b.kept]);
    forall i | 0 <= i < |r| && r[i].acked ensures Whole(r[i]) && |base| + |Kept(r[..i + 1])| <= flushed {
      assert r[..i + 1] == bs[..i + 1];
    }
  }

  lemma AccountsAck(bs: seq<Batch>, base: string, stream: string)
    requires bs != [] && Accounts(bs, base, stream, |stream|) && Whole(bs[|bs| - 1])
    ensures Accounts(bs[|bs| - 1 := bs[|bs| - 1].(acked := true)], base, stream, |stream|)
  {
    var n := |bs| - 1;
    var r := bs[n := bs[n].(acked := true)];
    assert r[..n] == bs[..n];
    forall i | 0 <= i < |r| && r[i].acked ensures Whole(r[i]) && |base| + |Kept(r[..i + 1])| <= |stream| {
      if i < n {
        assert r[..i + 1] == bs[..i + 1];
      } else {
        assert r[..i + 1] == r;
      }
    }
  }

  function Least(a: nat, b: nat): nat { if a < b then a else b }

  class FileLog {
    const codec: Codec
    const disk: Disk
    var closed: bool
    /** The bufio writer: its unflushed bytes, and the error that sticks to it. */
    var buf: string
    var failed: bool
    ghost const base: string
    ghost var batches: seq<Batch>

    ghost predicate Sound()
      reads this, disk
    {
      disk.Valid() && |buf| <= DefaultBufSize && (!closed ==> disk.wal.Some?)
    }

    ghost predicate Valid()
      reads this, disk
    {
      && Sound()
      && (!closed ==> Accounts(batches, base, Stream(), |disk.wal.value|))
    }

    /** Everything sent to the log so far, on disk or still buffered. */
    ghost function Stream(): string
      requires disk.wal.Some?
      reads this, disk
    {
      disk.wal.value + buf
    }

    constructor (codec: Codec, disk: Disk)
      requires disk.Valid()
      modifies disk`wal, disk`history
      ensures Valid() && !closed && !failed && buf == "" && batches == []
      ensures this.codec == codec && this.disk == disk
      ensures disk.wal == Some(if old(disk.wal).Some? then old(disk.wal.value) else "")
      ensures disk.history == old(disk.history) + [disk.State()]
    {
      this.codec, this.disk := codec, disk;
      closed, buf, failed, batches := false, "", false, [];
      base := if disk.wal.Some? then disk.wal.value else "";
      new;
      disk.OpenWal();
      assert disk.wal.value + "" == base + "";
    }

    /** bufio.Writer.Flush. */
    method FlushBuffer() returns (ok: bool)
      requires Sound() && !closed
      modifies this`buf, this`failed, disk`wal, disk`room, disk`history
      ensures Sound() && Stream() == old(Stream())
      ensures ok == !failed && (ok ==> buf == "")
      ensures old(failed) ==> unchanged(this) && unchanged(disk)
      ensures old(failed) ==> failed
      ensures failed && !old(failed) ==> old(disk.room).Some?
      ensures disk.room.None? == old(disk.room).None?
      ensures old(buf) == "" ==> failed == old(failed) && disk.wal == old(disk.wal) && disk.history == old(disk.history)
      ensures |buf| <= |old(buf)|
      ensures disk.GrewSince(old(disk.history), disk.snapshot, old(disk.wal.value))
    {
      if failed {
        return false;
      }
      if |buf| == 0 {
        return true;
      }
      var n := disk.AppendWal(buf);
      assert buf == buf[..n] + buf[n..];
      assert old(disk.wal.value) + buf == old(disk.wal.value) + buf[..n] + buf[n..];
      if n < |buf| {
        failed := true;
      }
      buf := buf[n..];
      return !failed;
    }

    /** One turn of the loop in bufio.Writer.Write, for a text that does not fit: straight to the
        file if nothing is buffered, otherwise fill the buffer and flush it. */
    method WriteSome(q: string) returns (n: nat)
      requires Sound() && !closed && !failed && |q| > DefaultBufSize - |buf|
      modifies this`buf, this`failed, disk`wal, disk`room, disk`history
      ensures Sound() && n <= |q| && Stream() == old(Stream()) + q[..n]
      ensures failed || n > 0 || |buf| < |old(buf)|
      ensures failed ==> old(disk.room).Some?
      ensures disk.room.None? == old(disk.room).None?
      ensures disk.GrewSince(old(disk.history), disk.snapshot, old(disk.wal.value))
    {
      if |buf| == 0 {
        n := disk.AppendWal(q);
        assert old(disk.wal.value) + "" == old(disk.wal.value);
        if n < |q| {
          failed := true;
        }
      } else {
        n := DefaultBufSize - |buf|;
        assert disk.wal.value + (buf + q[..n]) == Stream() + q[..n];
        buf := buf + q[..n];
        var _ := FlushBuffer();
      }
    }

    /** bufio.Writer.Write: k is how many bytes of p were taken. */
    method WriteBuffer(p: string) returns (ok: bool, ghost k: nat)
      requires Sound() && !closed
      modifies this`buf, this`failed, disk`wal, disk`room, disk`history
      ensures Sound() && k <= |p| && Stream() == old(Stream()) + p[..k]
      ensures ok == !failed && (ok ==> k == |p|)
      ensures old(failed) ==> failed && k == 0
      ensures failed && !old(failed) ==> old(disk.room).Some?
      ensures disk.room.None? == old(disk.room).None?
      ensures disk.GrewSince(old(disk.history), disk.snapshot, old(disk.wal.value))
    {
      var q := p;
      k := 0;
      assert old(Stream()) + p[..0] == old(Stream());
      while |q| > DefaultBufSize - |buf| && !failed
        invariant Sound() && k <= |p| && q == p[k..] && Stream() == old(Stream()) + p[..k]
        invariant old(failed) ==> failed && k == 0
        invariant failed && !old(failed) ==> old(disk.room).Some?
        invariant disk.room.None? == old(disk.room).None?
        invariant disk.GrewSince(old(disk.history), disk.snapshot, old(disk.wal.value))
        invariant disk.snapshot == old(disk.snapshot)
        decreases !failed, |q|, |buf|
      {
        ghost var h, w := disk.history, disk.wal.value;
        var n := WriteSome(q);
        disk.GrewTwice(old(disk.history), disk.snapshot, old(disk.wal.value), h, w);
        TakeMore(old(Stream()), p, k, n);
        q, k := q[n..], k + n;
      }
      if failed {
        return false, k;
      }
      assert disk.wal.value + (buf + q) == Stream() + q;
      TakeMore(old(Stream()), p, k, |q|);
      buf := buf + q;
      k := |p|;
      return true, k;
    }

    /** One record: its text and then its line break, in two writes. */
    method WriteLine(text: string) returns (ok: bool, ghost k: nat)
      requires Sound() && !closed
      modifies this`buf, this`failed, disk`wal, disk`room, disk`history
      ensures Sound() && k <= |text| + 1 && Stream() == old(Stream()) + (text + "\n")[..k]
      ensures ok == !failed && (ok ==> k == |text| + 1)
      ensures old(failed) ==> failed && k == 0
      ensures failed && !old(failed) ==> old(disk.room).Some?
      ensures disk.room.None? == old(disk.room).None?
      ensures disk.GrewSince(old(disk.history), disk.snapshot, old(disk.wal.value))
    {
      ghost var start := Stream();
      ok, k := WriteBuffer(text);
      assert (text + "\n")[..k] == text[..k];
      if !ok {
        return;
      }
      ghost var h, w := disk.history, disk.wal.value;
      ghost var more;
      ok, more := WriteBuffer("\n");
      disk.GrewTwice(old(disk.history), disk.snapshot, old(disk.wal.value), h, w);
      assert start + text[..|text|] + "\n"[..more] == start + (text + "\n")[..|text| + more];
      k := |text| + more;
    }

    /** The loop of Append: kept is how many bytes of the batch were taken, n how many whole lines. */
    method WriteLines(evs: seq<Event>, cancelBefore: nat) returns (ok: bool, ghost kept: nat, ghost n: nat)
      requires Sound() && !closed && evs != []
      modifies this`buf, this`failed, disk`wal, disk`room, disk`history
      ensures Sound() && kept <= |EncodeAll(codec, evs)|
      ensures Stream() == old(Stream()) + EncodeAll(codec, evs)[..kept]
      ensures n <= |evs| && |EncodeAll(codec, evs[..n])| <= kept
      ensures !failed ==> kept == |EncodeAll(codec, evs[..n])|
      ensures ok ==> n == |evs| <= cancelBefore && !failed
      ensures cancelBefore == 0 || old(failed) ==> kept == 0 && n == 0 && !ok
      ensures old(failed) ==> failed
      ensures failed && !old(failed) ==> old(disk.room).Some?
      ensures disk.room.None? == old(disk.room).None?
      ensures disk.GrewSince(old(disk.history), disk.snapshot, old(disk.wal.value))
      ensures !old(failed) && old(disk.room) == None ==> ok == (cancelBefore >= |evs|) && n == Least(cancelBefore, |evs|)
    {
      ghost var text := EncodeAll(codec, evs);
      ghost var start := Stream();
      assert start + text[..0] == start;
      kept, n, ok := 0, 0, true;
      assert evs[..0] == [];
      var i := 0;
      while i < |evs|
        invariant n == i <= |evs| && kept <= |text| && ok
        invariant Sound() && Stream() == start + text[..kept]
        invariant kept == |EncodeAll(codec, evs[..n])| && (n > 0 ==> !failed)
        invariant n <= cancelBefore && (old(failed) ==> n == 0)
        invariant failed <==> old(failed)
        invariant disk.room.None? == old(disk.room).None?
        invariant disk.GrewSince(old(disk.history), disk.snapshot, old(disk.wal.value))
        invariant disk.snapshot == old(disk.snapshot)
      {
        if i == cancelBefore {
          return false, kept, n;
        }
        ghost var h, w := disk.history, disk.wal.value;
        EncodedSoFar(codec, evs, i);
        ghost var line := Line(codec, evs[i]);
        ghost var k;
        ok, k := WriteLine(Encode(codec, evs[i]));
        disk.GrewTwice(old(disk.history), disk.snapshot, old(disk.wal.value), h, w);
        PartOfLine(start, text, kept, line, k);
        kept := kept + k;
        if !ok {
          return ok, kept, n;
        }
        i := i + 1;
        n := i;
      }
      assert evs[..|evs|] == evs;
    }

    /** Buffers each event as a line. The context may be found cancelled before any of them
        (cancelBefore is which; past the last means never), or a write may fail. The first n events
        are then in the stream whole, and none of the others unless a write failed. */
    method Append(evs: seq<Event>, cancelBefore: nat) returns (ok: bool, ghost n: nat)
      requires Valid()
      modifies this`buf, this`failed, this`batches, disk`wal, disk`room, disk`history
      ensures Valid()
      ensures closed || evs == [] ==> ok && unchanged(this) && unchanged(disk)
      ensures !closed && evs != [] ==>
                && |batches| == |old(batches)| + 1 && old(batches) <= batches
                && var b := batches[|batches| - 1];
                && b.text == EncodeAll(codec, evs) && !b.acked && b.kept <= |b.text|
                && Stream() == old(Stream()) + b.text[..b.kept]
                && n <= |evs| && |EncodeAll(codec, evs[..n])| <= b.kept
                && (!failed ==> b.kept == |EncodeAll(codec, evs[..n])|)
                && (ok ==> n == |evs| <= cancelBefore && Whole(b) && !failed)
                && (cancelBefore == 0 || old(failed) ==> b.kept == 0 && n == 0 && !ok)
                && disk.GrewSince(old(disk.history), disk.snapshot, old(disk.wal.value))
      ensures old(failed) ==> failed
      ensures failed && !old(failed) ==> old(disk.room).Some?
      ensures disk.room.None? == old(disk.room).None?
      ensures !closed && evs != [] && !old(failed) && old(disk.room) == None ==>
                ok == (cancelBefore >= |evs|) && n == Least(cancelBefore, |evs|)
    {
      n := 0;
      if |evs| == 0 || closed {
        return true, 0;
      }
      ghost var start := Stream();
      ghost var kept;
      ok, kept, n := WriteLines(evs, cancelBefore);
      assert evs[..|evs|] == evs;
      ghost var b := Batch(EncodeAll(codec, evs), kept, false);
      AccountsAppend(batches, base, start, |old(disk.wal.value)|, b);
      AccountsMore(batches + [b], base, Stream(), |old(disk.wal.value)|, |disk.wal.value|);
      batches := batches + [b];
    }

    /** Writes the buffer out and syncs the file; live is false when the context is cancelled. */
    method Flush(live: bool, syncOk: bool) returns (ok: bool)
      requires Valid()
      modifies this`buf, this`failed, disk`wal, disk`room, disk`history
      ensures Valid()
      ensures closed ==> ok && unchanged(this) && unchanged(disk)
      ensures !closed ==> Stream() == old(Stream()) && (ok ==> buf == "" && !failed)
      ensures !closed ==> disk.GrewSince(old(disk.history), disk.snapshot, old(disk.wal.value))
      ensures old(buf) == "" ==> buf == "" && disk.wal == old(disk.wal) && disk.history == old(disk.history)
      ensures old(failed) ==> unchanged(this) && unchanged(disk)
      ensures !closed && ok ==> live && syncOk
      ensures !closed && !live ==> unchanged(this) && unchanged(disk)
      ensures old(failed) ==> failed
      ensures failed && !old(failed) ==> old(disk.room).Some?
      ensures disk.room.None? == old(disk.room).None?
      ensures live && syncOk && !old(failed) && old(disk.room) == None ==> ok
      ensures old(buf) == "" ==> failed == old(failed)
      ensures !closed && old(buf) == "" && !old(failed) ==> ok == (live && syncOk)
    {
      if closed {
        return true;
      }
      if !live {
        return false;
      }
      ok := FlushBuffer();
      AccountsMore(batches, base, Stream(), |old(disk.wal.value)|, |disk.wal.value|);
      return ok && syncOk;
    }

    /** Flushes, syncs and closes; whatever goes wrong, the log is closed afterwards. */
    method Close(syncOk: bool, closeOk: bool) returns (ok: bool)
      requires Valid()
      modifies this`buf, this`failed, this`closed, disk`wal, disk`room, disk`history
      ensures Valid() && closed
      ensures old(closed) ==> ok && unchanged(disk)
      ensures !old(closed) ==>
                && disk.GrewSince(old(disk.history), disk.snapshot, old(disk.wal.value))
                && disk.wal.value <= old(Stream())
      ensures !old(closed) && ok ==> disk.wal.value == old(Stream())
      ensures old(buf) == "" ==> disk.wal == old(disk.wal) && disk.history == old(disk.history)
      ensures old(buf) == "" && !old(failed) && !old(closed) ==> ok == (syncOk && closeOk)
      ensures !old(closed) && !old(failed) && old(disk.room) == None ==>
                ok == (syncOk && closeOk) && disk.wal.value == old(Stream())
      ensures disk.room.None? == old(disk.room).None?
    {
      if closed {
        return true;
      }
      ok := FlushBuffer();
      if ok {
        assert disk.wal.value + "" == disk.wal.value;
      }
      buf := "";
      closed := true;
      return ok && syncOk && closeOk;
    }

    /** The store tells its caller that the last batch is stored. */
    ghost method Acknowledge()
      requires Valid() && !closed && buf == "" && batches != [] && Whole(batches[|batches| - 1])
      modifies this`batches
      ensures Valid()
      ensures batches == old(batches)[|old(batches)| - 1 := old(batches)[|old(batches)| - 1].(acked := true)]
    {
      assert disk.wal.value + "" == disk.wal.value;
      AccountsAck(batches, base, Stream());
      batches := batches[|batches| - 1 := batches[|batches| - 1].(acked := true)];
    }
  }

  /** The next line of a batch stands right after the lines before it. */
  lemma EncodedSoFar(c: Codec, evs: seq<Event>, i: nat)
    requires i < |evs|
    ensures |EncodeAll(c, evs[..i])| + |Line(c, evs[i])| <= |EncodeAll(c, evs)|
    ensures EncodeAll(c, evs)[|EncodeAll(c, evs[..i])|..][..|Line(c, evs[i])|] == Line(c, evs[i])
    ensures |EncodeAll(c, evs[..i + 1])| == |EncodeAll(c, evs[..i])| + |Line(c, evs[i])|
    ensures |EncodeAll(c, evs[..0])| == 0
  {
    assert evs[..0] == [];
    EncodeAllConcat(c, evs[..i], evs[i..]);
    assert evs[..i] + evs[i..] == evs;
    assert evs[i..][1..] == evs[i + 1..];
    EncodeAllConcat(c, evs[..i], [evs[i]]);
    assert evs[..i] + [evs[i]] == evs[..i + 1];
    assert [evs[i]][1..] == [];
    assert EncodeAll(c, []) == "";
  }

  lemma PartOfLine(start: string, text: string, kept: nat, line: string, k: nat)
    requires kept + |line| <= |text| && text[kept..][..|line|] == line && k <= |line|
    ensures start + text[..kept] + line[..k] == start + text[..kept + k]
  {
    assert line[..k] == text[kept..][..k];
    TakeMore(start, text, kept, k);
  }

  lemma TakeMore(s: string, p: string, k: nat, n: nat)
    requires k + n <= |p|
    ensures s + p[..k] + p[k..][..n] == s + p[..k + n]
    ensures p[k..][n..] == p[k + n..]
  {
    assert p[..k + n] == p[..k] + p[k..][..n];
  }
}
