/** What a restart rebuilds after any mixture of attempts to log a batch and attempts to take a snapshot,
    whichever of them fail and however. */
module AnyFaults {
  import opened Core
  import opened Records
  import opened Replay
  import opened Wal
  import opened Disks
  import opened Recovery
  import opened SnapshotSteps

  datatype Op =
    | Try(batch: seq<Event>, ok: bool)
    | Snap(ss: Snapshot, o: SnapshotOutcome, faults: set<Step>)

  ghost predicate OpLeads(c: Codec, p: Saved, q: Saved, op: Op) {
    match op
    case Try(batch, ok) => Wrote(c, p, q, batch, ok) && Fits(c, batch) && AllReadable(batch)
    case Snap(ss, o, faults) => Snapped(p, q, ss, o, faults)
  }

  // ---------------------------------------------------------------- what is kept, on values

  /** The tasks of the last snapshot put in place, and the lines kept beside it. */
  datatype Book = Book(base: Tasks, log: seq<Event>)

  function BookOf(p: Saved): Book {
    Book(SnapshotTasks(p.disk.snapshot), p.logged)
  }

  predicate ClearsLog(o: SnapshotOutcome) {
    o.Done? || o == FailedAt(OpenLog)
  }

  /** An attempt adds the first kept events of its batch; a snapshot that is put in place is the new base,
      and the log starts afresh if its file was moved away. */
  function Keep(b: Book, op: Op, kept: nat): Book {
    match op
    case Try(batch, _) => if kept <= |batch| then b.(log := b.log + batch[..kept]) else b
    case Snap(ss, o, _) =>
      if !Placed(o) then b else Book(TasksOf(ss.tasks), if ClearsLog(o) then [] else b.log)
  }

  function KeepAll(b: Book, ops: seq<Op>, kept: seq<nat>): Book
    requires |kept| == |ops|
    decreases |ops|
  {
    if ops == [] then b
    else
      var n := |ops| - 1;
      Keep(KeepAll(b, ops[..n], kept[..n]), ops[n], kept[n])
  }

  /** How much of a batch is kept: all of it if it was acknowledged through an open log, none of it
      without a log or through a closed one. */
  predicate KeepsRight(log: LogState, op: Op, kept: nat) {
    op.Try? ==>
      && kept <= |op.batch|
      && (op.ok && !log.Shut? ==> kept == |op.batch|)
      && (log.Shut? || log.Missing? ==> kept == 0)
  }

  // ---------------------------------------------------------------- one operation

  lemma SnapTracks(c: Codec, p: Saved, q: Saved, ss: Snapshot, o: SnapshotOutcome, faults: set<Step>)
    requires Tracks(c, p) && Snapped(p, q, ss, o, faults)
    ensures Tracks(c, q)
  {
    var more :| TracksWith(c, p, more);
    if q != p {
      assert p.logged + [] == p.logged;
      if Placed(o) {
        PlacedTracks(c, p, ss, o);
      } else {
        assert TracksWith(c, q, []);
      }
    }
  }

  lemma PlacedTracks(c: Codec, p: Saved, ss: Snapshot, o: SnapshotOutcome)
    requires TracksWith(c, p, []) && (p.log.Open? || p.log.Shut?) && Placed(o)
    ensures Tracks(c, After(p, ss, o))
  {
    AfterPlaced(p, ss, o);
    if ClearsLog(o) {
      ClearedTracks(c, After(p, ss, o));
    } else {
      StillTracks(c, p, After(p, ss, o));
    }
  }

  lemma AfterPlaced(p: Saved, ss: Snapshot, o: SnapshotOutcome)
    requires (p.log.Open? || (p.log.Shut? && p.pending == "")) && Placed(o)
    ensures
      var q := After(p, ss, o);
      && q.pending == "" && !q.log.Broken?
      && (if ClearsLog(o) then LogText(q.disk) == "" && q.logged == [] && q.safe == 0
          else LogText(q.disk) == Stream(p) && q.logged == p.logged && q.safe == p.safe)
  {
    assert LogText(p.disk) + "" == LogText(p.disk);
  }

  lemma ClearedTracks(c: Codec, q: Saved)
    requires LogText(q.disk) == "" && q.pending == "" && q.logged == [] && q.safe == 0 && !q.log.Broken?
    ensures Tracks(c, q)
  {
    assert TracksWith(c, q, []);
  }

  lemma StillTracks(c: Codec, p: Saved, q: Saved)
    requires TracksWith(c, p, []) && !p.log.Broken? && q.logged == p.logged && q.safe == p.safe
    requires q.pending == "" && LogText(q.disk) == Stream(p) && !q.log.Broken?
    ensures Tracks(c, q)
  {
    assert Stream(q) == LogText(q.disk);
    assert TracksWith(c, q, []);
  }

  lemma OpKeeps(c: Codec, p: Saved, q: Saved, op: Op) returns (kept: nat)
    requires Tracks(c, p) && OpLeads(c, p, q, op)
    ensures Tracks(c, q) && BookOf(q) == Keep(BookOf(p), op, kept) && KeepsRight(p.log, op, kept)
  {
    match op
    case Snap(ss, o, faults) =>
      kept := 0;
      SnapTracks(c, p, q, ss, o, faults);
      SnapKeeps(p, q, ss, o, faults);
    case Try(batch, ok) =>
      WroteTracks(c, p, q, batch, ok);
      kept := TryKeeps(c, p, q, batch, ok);
  }

  lemma SnapKeeps(p: Saved, q: Saved, ss: Snapshot, o: SnapshotOutcome, faults: set<Step>)
    requires Snapped(p, q, ss, o, faults)
    ensures BookOf(q) == Keep(BookOf(p), Snap(ss, o, faults), 0)
  {
  }

  lemma TryKeeps(c: Codec, p: Saved, q: Saved, batch: seq<Event>, ok: bool) returns (kept: nat)
    requires Wrote(c, p, q, batch, ok)
    ensures kept <= |batch| && q.logged == p.logged + batch[..kept] && q.disk.snapshot == p.disk.snapshot
    ensures KeepsRight(p.log, Try(batch, ok), kept)
  {
    kept :| WroteN(c, p, q, batch, ok, kept);
    if batch == [] || p.log.Missing? || p.log.Shut? {
      kept := 0;
      assert p.logged + batch[..0] == p.logged;
    }
  }

  // ---------------------------------------------------------------- any mixture

  ghost predicate OpAt(c: Codec, ps: seq<Saved>, ops: seq<Op>, i: nat)
    requires i < |ops| && |ps| == |ops| + 1
  {
    OpLeads(c, ps[i], ps[i + 1], ops[i])
  }

  ghost predicate Leads(c: Codec, ps: seq<Saved>, ops: seq<Op>) {
    |ps| == |ops| + 1 && forall i: nat :: i < |ops| ==> OpAt(c, ps, ops, i)
  }

  ghost predicate KeptRight(ps: seq<Saved>, ops: seq<Op>, kept: seq<nat>) {
    |kept| == |ops| < |ps| && forall i: nat :: i < |ops| ==> KeepsRight(ps[i].log, ops[i], kept[i])
  }

  lemma LastOp(c: Codec, ps: seq<Saved>, ops: seq<Op>)
    requires Leads(c, ps, ops) && ops != []
    ensures
      var n := |ops| - 1;
      Leads(c, ps[..n + 1], ops[..n]) && OpLeads(c, ps[n], ps[n + 1], ops[n])
  {
    var n := |ops| - 1;
    assert OpAt(c, ps, ops, n);
    var (before, earlier) := (ps[..n + 1], ops[..n]);
    forall i: nat | i < n ensures OpAt(c, before, earlier, i) {
      assert OpAt(c, ps, ops, i);
    }
  }

  lemma KeptOneMore(ps: seq<Saved>, ops: seq<Op>, before: seq<nat>, k: nat, b: Book)
    requires ops != [] && |ps| == |ops| + 1 && KeptRight(ps[..|ops|], ops[..|ops| - 1], before)
    requires KeepsRight(ps[|ops| - 1].log, ops[|ops| - 1], k)
    ensures KeptRight(ps, ops, before + [k])
    ensures KeepAll(b, ops, before + [k]) == Keep(KeepAll(b, ops[..|ops| - 1], before), ops[|ops| - 1], k)
  {
    var n := |ops| - 1;
    assert (before + [k])[..n] == before;
    forall i: nat | i < |ops| ensures KeepsRight(ps[i].log, ops[i], (before + [k])[i]) {
      if i < n {
        assert ps[..n + 1][i] == ps[i] && ops[..n][i] == ops[i];
      }
    }
  }

  /** After any mixture of attempts and snapshots the disk and its buffer hold the last snapshot put in place
      and, since its log was started, a prefix of every attempted batch in order: all of each batch
      acknowledged through an open log, and none of those a closed one swallowed. A rejected call may so
      become durable later. */
  lemma {:induction false} EveryMixtureKeepsItsBook(c: Codec, ps: seq<Saved>, ops: seq<Op>) returns (kept: seq<nat>)
    requires Leads(c, ps, ops) && Tracks(c, ps[0])
    ensures KeptRight(ps, ops, kept) && Tracks(c, ps[|ops|])
    ensures BookOf(ps[|ops|]) == KeepAll(BookOf(ps[0]), ops, kept)
    decreases |ops|
  {
    if ops == [] {
      kept := [];
    } else {
      var n := |ops| - 1;
      LastOp(c, ps, ops);
      var before := EveryMixtureKeepsItsBook(c, ps[..n + 1], ops[..n]);
      var k := OpKeeps(c, ps[n], ps[n + 1], ops[n]);
      kept := before + [k];
      KeptOneMore(ps, ops, before, k, BookOf(ps[0]));
    }
  }

  /** What a restart rebuilds then: the last snapshot with the kept lines replayed. While a write error or a
      missed flush stands, the file may still lack the end of them, or hold some more of the batch that met
      the error; never less than what was acknowledged. */
  lemma AnyMixtureRecovers(c: Codec, ps: seq<Saved>, ops: seq<Op>) returns (kept: seq<nat>, more: seq<Event>, k: nat)
    requires Lossless(c) && Leads(c, ps, ops) && Tracks(c, ps[0])
    ensures KeptRight(ps, ops, kept)
    ensures
      var q, b := ps[|ops|], KeepAll(BookOf(ps[0]), ops, kept);
      && q.safe <= k <= |b.log + more| && (!q.log.Broken? ==> more == [])
      && Recover(c, q.disk) == Success(Apply(b.base, (b.log + more)[..k]))
      && (AllWritten(q) ==> Recover(c, q.disk) == Success(Apply(b.base, b.log)))
  {
    kept := EveryMixtureKeepsItsBook(c, ps, ops);
    var q := ps[|ops|];
    if AllWritten(q) {
      WrittenRecovers(c, q);
      more, k := [], |q.logged|;
      assert (q.logged + more)[..k] == q.logged;
    } else {
      TracksIsRead(c, q);
      more, k := TracksRecovers(c, q, q.safe, LogText(q.disk), q.disk);
    }
  }

  lemma TracksIsRead(c: Codec, q: Saved)
    requires Tracks(c, q)
    ensures q.safe <= |q.logged| && EncodeAll(c, q.logged[..q.safe]) <= LogText(q.disk)
  {
  }

  // ---------------------------------------------------------------- a crash inside an operation

  /** The states the disk may be in while an operation takes p to q: see LogBatch and FlushSnapshot of the
      file store. */
  ghost predicate Passes(p: Saved, q: Saved, op: Op, d: DiskState) {
    match op
    case Try(_, _) => LogBetween(d, p.disk.snapshot, LogText(p.disk), LogText(q.disk))
    case Snap(ss, o, _) =>
      || LogBetween(d, p.disk.snapshot, LogText(p.disk), Stream(p))
      || d in SnapshotTail(o, ss, Flushed(p))
  }

  /** A crash inside an operation: before a snapshot is in place a restart replays the kept lines as far as
      they had been written, and never misses an acknowledged one. From then on it finds the snapshot's
      tasks, or those with the whole log kept so far replayed over them, rejected calls included. */
  lemma CrashRecovers(c: Codec, p: Saved, q: Saved, op: Op, d: DiskState) returns (kept: nat, more: seq<Event>, k: nat)
    requires Lossless(c) && Tracks(c, p) && OpLeads(c, p, q, op) && Passes(p, q, op, d)
    ensures KeepsRight(p.log, op, kept) && BookOf(q) == Keep(BookOf(p), op, kept)
    ensures
      var b := if op.Try? then BookOf(q) else BookOf(p);
      || (p.safe <= k <= |b.log + more| && Recover(c, d) == Success(Apply(b.base, (b.log + more)[..k])))
      || (op.Snap? && d.wal == Flushed(p) && Recover(c, d) == Success(Apply(TasksOf(op.ss.tasks), p.logged)))
      || (op.Snap? && LogText(d) == "" && Recover(c, d) == Success(TasksOf(op.ss.tasks)))
  {
    kept := OpKeeps(c, p, q, op);
    TracksIsRead(c, p);
    if op.Try? {
      assert q.logged[..p.safe] == p.logged[..p.safe];
      more, k := TracksRecovers(c, q, p.safe, LogText(p.disk), d);
    } else if LogBetween(d, p.disk.snapshot, LogText(p.disk), Stream(p)) {
      more, k := TracksRecovers(c, p, p.safe, LogText(p.disk), d);
    } else {
      more, k := [], 0;
      TailRecovers(c, p, q, op.ss, op.o, op.faults, d);
    }
  }

  lemma TailRecovers(c: Codec, p: Saved, q: Saved, ss: Snapshot, o: SnapshotOutcome, faults: set<Step>, d: DiskState)
    requires Lossless(c) && Tracks(c, p) && Snapped(p, q, ss, o, faults) && d in SnapshotTail(o, ss, Flushed(p))
    ensures
      || (d.wal == Flushed(p) && Recover(c, d) == Success(Apply(TasksOf(ss.tasks), p.logged)))
      || (LogText(d) == "" && Recover(c, d) == Success(TasksOf(ss.tasks)))
  {
    if d == DiskState(Some(ss), Flushed(p)) {
      assert p.log.Open? || p.log.Shut?;
      LogOverSnapshot(c, p, ss);
    } else {
      NothingToReplay(TasksOf(ss.tasks));
    }
  }

  lemma LogOverSnapshot(c: Codec, p: Saved, ss: Snapshot)
    requires Lossless(c) && Tracks(c, p) && (p.log.Open? || p.log.Shut?)
    ensures Recover(c, DiskState(Some(ss), Flushed(p))) == Success(Apply(TasksOf(ss.tasks), p.logged))
  {
    var more :| TracksWith(c, p, more);
    PlacedTracks(c, p, ss, FailedAt(CloseLog));
    WrittenRecovers(c, After(p, ss, FailedAt(CloseLog)));
  }

  /** So a rejected call can come back: its lines are buffered and the flush fails, the tasks go into a
      snapshot without it, and the process dies before the log file is moved away. */
  lemma RejectedCallComesBack(c: Codec, base: Option<Snapshot>, ss: Snapshot, ev: Event)
    returns (ps: seq<Saved>, ops: seq<Op>, crash: DiskState)
    requires Lossless(c) && Fits(c, [ev]) && AllReadable([ev])
    ensures Leads(c, ps, ops) && Tracks(c, ps[0]) && ps[0].disk == DiskState(base, Some("")) && Quiet(ps[0])
    ensures ops == [Try([ev], false), Snap(ss, Done, {})]
    ensures Passes(ps[1], ps[2], ops[1], crash) && Recover(c, crash) == Success(ApplyEvent(TasksOf(ss.tasks), ev))
  {
    var p := Saved(Open, true, DiskState(base, Some("")), "", [], 0);
    var q := p.(pending := EncodeAll(c, [ev]), logged := [ev]);
    var r := After(q, ss, Done);
    ps, ops := [p, q, r], [Try([ev], false), Snap(ss, Done, {})];
    crash := DiskState(Some(ss), Flushed(q));
    BufferedAndRejected(c, p, q, ev);
    FirstFaultMisses({});
    assert OpAt(c, ps, ops, 0) && OpAt(c, ps, ops, 1);
    ClearedTracks(c, p);
    OneLineOverSnapshot(c, ss, ev);
    assert "" + EncodeAll(c, [ev]) == EncodeAll(c, [ev]);
  }

  lemma OneLineOverSnapshot(c: Codec, ss: Snapshot, ev: Event)
    requires Lossless(c) && Fits(c, [ev]) && AllReadable([ev])
    ensures Recover(c, DiskState(Some(ss), Some(EncodeAll(c, [ev])))) == Success(ApplyEvent(TasksOf(ss.tasks), ev))
  {
    ReadsBackIff(c, [ev]);
    ApplyOne(TasksOf(ss.tasks), ev);
  }

  lemma BufferedAndRejected(c: Codec, p: Saved, q: Saved, ev: Event)
    requires p.log.Open? && p.roomy && p.disk.wal == Some("") && p.pending == "" && p.logged == [] && p.safe == 0
    requires q == p.(pending := EncodeAll(c, [ev]), logged := [ev])
    ensures Wrote(c, p, q, [ev], false)
  {
    assert [ev][..1] == [ev] && [] + [ev] == [ev];
    assert "" + EncodeAll(c, [ev]) == EncodeAll(c, [ev]);
    assert WroteN(c, p, q, [ev], false, 1);
  }
}
