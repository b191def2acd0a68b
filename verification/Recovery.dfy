/** What a restart rebuilds from the disk, and the states of the disk that rebuild a given map. */
module Recovery {
  import opened Core
  import opened Records
  import opened Replay
  import opened Wal
  import opened Disks

  datatype RecoverError = BadLog(why: ReadError) | BadEvent

  function SnapshotTasks(ss: Option<Snapshot>): Tasks {
    TasksOf(if ss.Some? then ss.value.tasks else [])
  }

  function LogText(d: DiskState): string {
    if d.wal.Some? then d.wal.value else ""
  }

  function Recover(c: Codec, d: DiskState): Result<Tasks, RecoverError> {
    match ReadEvents(c, LogText(d))
    case Failure(e) => Failure(BadLog(e))
    case Success(evs) =>
      if AllReadable(evs) then Success(Apply(SnapshotTasks(d.snapshot), evs)) else Failure(BadEvent)
  }

  /** If the disk holds a snapshot and the whole log evs, and replaying them once or again gives the
      same tasks, those tasks. */
  ghost function Held(c: Codec, d: DiskState, evs: seq<Event>): Option<Tasks> {
    if Fits(c, evs) && AllReadable(evs) && LogText(d) == EncodeAll(c, evs) && ReplaySafe(SnapshotTasks(d.snapshot), evs)
    then Some(Apply(SnapshotTasks(d.snapshot), evs))
    else None
  }

  ghost predicate Holds(c: Codec, d: DiskState, evs: seq<Event>, m: Tasks) {
    Held(c, d, evs) == Some(m)
  }

  /** Loading what the disk holds gives exactly the held map, and the held events are those read. */
  lemma HeldIsReloaded(c: Codec, d: DiskState, evs: seq<Event>, m: Tasks)
    requires Lossless(c) && Holds(c, d, evs, m)
    ensures Recover(c, d) == Success(m) && ReadEvents(c, LogText(d)) == Success(evs)
  {
    ReadsBackIff(c, evs);
  }

  /** A log the service wrote can be loaded exactly if every line is within the scan limit. */
  lemma LogReloadsIff(c: Codec, d: DiskState, evs: seq<Event>)
    requires Lossless(c) && Clean(c, evs) && AllReadable(evs) && LogText(d) == EncodeAll(c, evs)
    ensures
      Recover(c, d)
      == if Short(c, evs) then Success(Apply(SnapshotTasks(d.snapshot), evs)) else Failure(BadLog(LineTooLong))
  {
    ReadsBackIff(c, evs);
  }

  /** A snapshot of what the disk holds may take the place of the old snapshot at any time: with the
      whole log still in place it is replayed a second time, without it not at all. */
  lemma SnapshotReplacesBase(c: Codec, d: DiskState, evs: seq<Event>, m: Tasks, ss: Snapshot)
    requires Holds(c, d, evs, m) && TasksOf(ss.tasks) == m
    ensures Holds(c, DiskState(Some(ss), d.wal), evs, m)
    ensures Holds(c, DiskState(Some(ss), None), [], m)
    ensures Holds(c, DiskState(Some(ss), Some("")), [], m)
  {
    DoubleReplay(SnapshotTasks(d.snapshot), evs);
    NothingToReplay(m);
  }

  lemma NothingToReplay(m: Tasks)
    ensures ReplaySafe(m, []) && Apply(m, []) == m
  {
  }

  // ---------------------------------------------------------------- adding a batch

  /** Nothing on the disk is later than now. */
  ghost predicate NothingAfter(ss: Option<Snapshot>, evs: seq<Event>, now: Time) {
    && AllNotAfter(SnapshotTasks(ss), now)
    && forall k :: 0 <= k < |evs| ==> evs[k].createdAt <= now
  }

  predicate AllAt(evs: seq<Event>, now: Time) {
    forall k :: 0 <= k < |evs| ==> evs[k].createdAt == now
  }

  lemma {:induction false} SettledWithBatch(t: Task, id: string, evs: seq<Event>, batch: seq<Event>, now: Time)
    requires Settled(t, id, evs)
    requires forall k :: 0 <= k < |batch| && Concerns(batch[k], id) ==> batch[k].createdAt == now && NotAfter(t.updatedAt, now)
    ensures Settled(t, id, evs + batch)
    decreases |batch|
  {
    var all := evs + batch;
    if batch == [] {
      assert all == evs;
    } else if Creates(id, evs) {
      var k :| 0 <= k < |evs| && IsCreation(evs[k], id);
      assert IsCreation(all[k], id);
    } else {
      var n := |batch| - 1;
      assert all[..|all| - 1] == evs + batch[..n];
      SettledWithBatch(t, id, evs, batch[..n], now);
      if Creates(id, evs + batch[..n]) {
        var k :| 0 <= k < |evs + batch[..n]| && IsCreation((evs + batch[..n])[k], id);
        assert IsCreation(all[k], id);
      }
    }
  }

  lemma ReplaySafeGrows(base: Tasks, evs: seq<Event>, batch: seq<Event>, now: Time)
    requires ReplaySafe(base, evs) && AllNotAfter(base, now) && AllAt(batch, now)
    requires forall k :: 0 <= k < |evs| ==> evs[k].createdAt <= now
    ensures ReplaySafe(base, evs + batch)
  {
    MonotoneAppend(evs, batch, now);
    forall id | id in base ensures Settled(base[id], id, evs + batch) {
      SettledWithBatch(base[id], id, evs, batch, now);
    }
  }

  /** A batch about one task may be stamped earlier than events about others. */
  lemma ReplaySafeGrowsLate(base: Tasks, evs: seq<Event>, batch: seq<Event>, id: string, now: Time)
    requires ReplaySafe(base, evs) && (id in base ==> NotAfter(base[id].updatedAt, now)) && AllAt(batch, now)
    requires forall k :: 0 <= k < |evs| && Concerns(evs[k], id) ==> evs[k].createdAt <= now
    requires forall k, other :: 0 <= k < |batch| && Concerns(batch[k], other) ==> other == id
    ensures ReplaySafe(base, evs + batch)
  {
    forall other ensures InOrder(other, evs + batch) {
      assert InOrder(other, evs);
    }
    forall other | other in base ensures Settled(base[other], other, evs + batch) {
      SettledWithBatch(base[other], other, evs, batch, now);
    }
  }

  /** Appending a batch stamped now keeps the disk recoverable. */
  lemma BatchIsHeld(c: Codec, d: DiskState, evs: seq<Event>, m: Tasks, batch: seq<Event>, now: Time)
    requires Holds(c, d, evs, m) && NothingAfter(d.snapshot, evs, now)
    requires Fits(c, batch) && AllReadable(batch) && AllAt(batch, now)
    ensures Holds(c, DiskState(d.snapshot, Some(LogText(d) + EncodeAll(c, batch))), evs + batch, Apply(m, batch))
    ensures NothingAfter(d.snapshot, evs + batch, now)
  {
    EncodeAllConcat(c, evs, batch);
    FitsConcat(c, evs, batch);
    ApplyConcat(SnapshotTasks(d.snapshot), evs, batch);
    ReplaySafeGrows(SnapshotTasks(d.snapshot), evs, batch, now);
  }

  lemma FitsConcat(c: Codec, a: seq<Event>, b: seq<Event>)
    ensures Fits(c, a + b) && AllReadable(a + b) <==> Fits(c, a) && AllReadable(a) && Fits(c, b) && AllReadable(b)
  {
    var all := a + b;
    assert forall i :: 0 <= i < |a| ==> all[i] == a[i];
    assert forall i :: 0 <= i < |b| ==> all[|a| + i] == b[i];
  }

  /** A crash while a batch is being written recovers some of its events, in order. */
  ghost predicate RecoversPart(c: Codec, d: DiskState, m: Tasks, batch: seq<Event>) {
    exists j :: 0 <= j <= |batch| && Recover(c, d) == Success(Apply(m, batch[..j]))
  }

  /** A log cut inside its last batch reads back as everything before and a prefix of the batch. */
  lemma CutBatchReads(c: Codec, evs: seq<Event>, batch: seq<Event>, text: string) returns (j: nat)
    requires Lossless(c) && Fits(c, evs + batch)
    requires EncodeAll(c, evs) <= text <= EncodeAll(c, evs + batch)
    ensures j <= |batch| && ReadEvents(c, text) == Success(evs + batch[..j])
  {
    var all := evs + batch;
    assert text == EncodeAll(c, all)[..|text|];
    var k := TornTail(c, all, |text|);
    assert all[..|evs|] == evs;
    if k < |evs| {
      // The first |evs| lines are whole, so a cut cannot reach into them.
      LinesBefore(c, all, k, |evs|);
      assert false;
    }
    j := k - |evs|;
    assert all[..k] == evs + batch[..j];
  }

  lemma CrashInBatch(c: Codec, d: DiskState, evs: seq<Event>, m: Tasks, batch: seq<Event>, cut: DiskState)
    requires Lossless(c) && Holds(c, d, evs, m)
    requires Fits(c, batch) && AllReadable(batch)
    requires cut.snapshot == d.snapshot && cut.wal.Some?
    requires LogText(d) <= cut.wal.value <= LogText(d) + EncodeAll(c, batch)
    ensures RecoversPart(c, cut, m, batch)
  {
    EncodeAllConcat(c, evs, batch);
    FitsConcat(c, evs, batch);
    var j := CutBatchReads(c, evs, batch, cut.wal.value);
    FitsConcat(c, batch[..j], batch[j..]);
    assert batch[..j] + batch[j..] == batch;
    FitsConcat(c, evs, batch[..j]);
    ApplyConcat(SnapshotTasks(d.snapshot), evs, batch[..j]);
    assert Recover(c, cut) == Success(Apply(m, batch[..j]));
  }

  lemma LinesBefore(c: Codec, evs: seq<Event>, k: nat, n: nat)
    requires k < n <= |evs|
    ensures |EncodeAll(c, evs[..k])| + |Encode(c, evs[k])| < |EncodeAll(c, evs[..n])|
  {
    assert evs[..n] == evs[..k] + ([evs[k]] + evs[k + 1..n]);
    EncodeAllConcat(c, evs[..k], [evs[k]] + evs[k + 1..n]);
    EncodeAllConcat(c, [evs[k]], evs[k + 1..n]);
    assert [evs[k]][1..] == [];
    assert EncodeAll(c, []) == "";
  }

  // ---------------------------------------------------------------- a store and its faults

  /** The log of a store is not there, closed, stuck with a write error, or open. */
  datatype LogState = Missing | Shut | Broken | Open

  /** The durable side of a store at one moment. pending is buffered and not yet written; logged lists
      the events whose lines are whole in file and buffer together, and the first safe of them were
      acknowledged; roomy says that no write fails for want of space. */
  datatype Saved = Saved(log: LogState, roomy: bool, disk: DiskState, pending: string, logged: seq<Event>, safe: nat)

  function Stream(p: Saved): string {
    LogText(p.disk) + p.pending
  }

  predicate Quiet(p: Saved) {
    p.log.Open? && p.pending == ""
  }

  predicate Healthy(p: Saved) {
    Quiet(p) && p.roomy
  }

  /** What a restart would rebuild, if the log is in order and the store can go on. */
  ghost function Rebuilds(c: Codec, p: Saved): Option<Tasks> {
    if Quiet(p) then Held(c, p.disk, p.logged) else None
  }

  ghost predicate Early(p: Saved, now: Time) {
    NothingAfter(p.disk.snapshot, p.logged, now)
  }

  predicate Storable(c: Codec, batch: seq<Event>, now: Time) {
    Fits(c, batch) && AllReadable(batch) && AllAt(batch, now)
  }

  /** How the outside world treats one flushAppend: before which event the context is found
      cancelled, whether it still lives at the flush, and whether the sync succeeds. */
  datatype Weather = Weather(cancelBefore: nat, live: bool, syncOk: bool)

  /** Nothing goes wrong while n events are appended and flushed. */
  predicate Fine(w: Weather, n: nat) {
    n <= w.cancelBefore && w.live && w.syncOk
  }

  /** How many of n events are taken before the context is found cancelled. */
  function KeptBy(w: Weather, n: nat): nat {
    if w.cancelBefore < n then w.cancelBefore else n
  }

  /** An attempt to log a batch took p to q and kept the lines of its first n events; ok says that the
      batch was acknowledged. Without a log nothing is acknowledged, through a closed one everything
      is, and neither stores anything. */
  ghost predicate WroteN(c: Codec, p: Saved, q: Saved, batch: seq<Event>, ok: bool, n: nat) {
    && n <= |batch| && q.roomy == p.roomy
    && if batch == [] then q == p && ok
       else
         match p.log
         case Missing => q == p && !ok && n == 0
         case Shut => q == p && ok && n == 0
         case _ =>
           && q.disk.snapshot == p.disk.snapshot && q.disk.wal.Some? && LogText(p.disk) <= LogText(q.disk)
           && q.logged == p.logged + batch[..n] && q.safe == (if ok then |q.logged| else p.safe)
           && (q.log.Open? || q.log.Broken?) && (p.log.Broken? ==> q.log.Broken? && n == 0)
           && Stream(p) + EncodeAll(c, batch[..n]) <= Stream(q)
           && Stream(q) <= Stream(p) + EncodeAll(c, if p.log.Broken? then [] else batch)
           && (q.log.Open? ==> Stream(q) == Stream(p) + EncodeAll(c, batch[..n]))
           && (ok ==> n == |batch| && Quiet(q))
           && (p.log.Open? && p.roomy ==> q.log.Open?)
  }

  /** The same after the lines were buffered and before they were flushed; ok says all were taken. */
  ghost predicate Lined(c: Codec, p: Saved, q: Saved, batch: seq<Event>, ok: bool, n: nat) {
    && n <= |batch| && q.roomy == p.roomy && q.safe == p.safe && q.logged == p.logged + batch[..n]
    && q.disk.snapshot == p.disk.snapshot && q.disk.wal.Some? && LogText(p.disk) <= LogText(q.disk)
    && (q.log.Open? || q.log.Broken?) && (p.log.Broken? ==> q.log.Broken? && n == 0 && Stream(q) == Stream(p))
    && (p.log.Open? && p.roomy ==> q.log.Open?)
    && Stream(p) + EncodeAll(c, batch[..n]) <= Stream(q) <= Stream(p) + EncodeAll(c, batch)
    && (q.log.Open? ==> Stream(q) == Stream(p) + EncodeAll(c, batch[..n]))
    && (ok ==> n == |batch| && q.log.Open?)
  }

  lemma LinedWithoutFlush(c: Codec, p: Saved, q: Saved, batch: seq<Event>, n: nat)
    requires Lined(c, p, q, batch, false, n) && batch != [] && (p.log.Open? || p.log.Broken?)
    ensures WroteN(c, p, q, batch, false, n)
  {
    if p.log.Broken? {
      assert batch[..0] == [] && EncodeAll(c, []) == "" && Stream(p) + "" == Stream(p);
    }
  }

  lemma LinedAndFlushed(c: Codec, p: Saved, r: Saved, q: Saved, batch: seq<Event>, n: nat, ok: bool)
    requires Lined(c, p, r, batch, true, n) && batch != [] && p.log.Open?
    requires q == r.(log := q.log, disk := q.disk, pending := q.pending, safe := if ok then |r.logged| else r.safe) && HalfFlushed(r, q)
    requires ok ==> Quiet(q)
    ensures WroteN(c, p, q, batch, ok, n)
  {
    assert batch[..|batch|] == batch;
  }

  /** Part of what was pending has been written, or all. */
  predicate HalfFlushed(p: Saved, q: Saved) {
    && q.disk.snapshot == p.disk.snapshot && q.disk.wal.Some? && LogText(p.disk) <= LogText(q.disk) && Stream(q) == Stream(p)
    && (q.log.Open? || q.log.Broken?) && (p.log.Open? && p.roomy ==> q.log.Open?)
  }

  /** How many events an attempt that took p to q kept, if it was one. */
  ghost function Kept(c: Codec, p: Saved, q: Saved, batch: seq<Event>, ok: bool): Option<nat> {
    if n: nat :| WroteN(c, p, q, batch, ok, n) then Some(n) else None
  }

  ghost predicate Wrote(c: Codec, p: Saved, q: Saved, batch: seq<Event>, ok: bool) {
    Kept(c, p, q, batch, ok).Some?
  }

  /** The same under a weather, which decides everything while the log is open and the device has room. */
  ghost predicate TriedN(c: Codec, w: Weather, p: Saved, q: Saved, batch: seq<Event>, ok: bool, n: nat) {
    && WroteN(c, p, q, batch, ok, n)
    && (p.log.Open? && p.roomy && batch != [] ==> n == KeptBy(w, |batch|) && ok == Fine(w, |batch|))
  }

  ghost function Trying(c: Codec, w: Weather, p: Saved, q: Saved, batch: seq<Event>, ok: bool): Option<nat> {
    if n: nat :| TriedN(c, w, p, q, batch, ok, n) then Some(n) else None
  }

  ghost predicate Tried(c: Codec, w: Weather, p: Saved, q: Saved, batch: seq<Event>, ok: bool) {
    Trying(c, w, p, q, batch, ok).Some?
  }

  lemma TriedIsWrote(c: Codec, w: Weather, p: Saved, q: Saved, batch: seq<Event>, ok: bool)
    requires Tried(c, w, p, q, batch, ok)
    ensures Wrote(c, p, q, batch, ok) && (Healthy(p) && Fine(w, |batch|) ==> ok)
  {
    var n: nat :| TriedN(c, w, p, q, batch, ok, n);
    assert WroteN(c, p, q, batch, ok, n);
  }

  lemma TriedNothing(c: Codec, w: Weather, p: Saved)
    ensures Tried(c, w, p, p, [], true)
  {
    assert TriedN(c, w, p, p, [], true, 0);
  }


  lemma EncodesNothing(c: Codec, evs: seq<Event>)
    ensures EncodeAll(c, evs) == "" <==> evs == []
  {
  }

  /** What an attempt means when the disk held m before: acknowledged, the batch is applied; rejected
      without a trace in the log, nothing has changed. */
  lemma WroteRebuilds(c: Codec, p: Saved, q: Saved, batch: seq<Event>, ok: bool, now: Time)
    requires Wrote(c, p, q, batch, ok) && Rebuilds(c, p).Some?
    ensures
      ok && Storable(c, batch, now) && Early(p, now) ==>
        Rebuilds(c, q) == Some(Apply(Rebuilds(c, p).value, batch)) && Early(q, now)
    ensures !ok && Quiet(q) && q.disk.wal == p.disk.wal ==> q.disk == p.disk && q.logged == p.logged
  {
    var n: nat :| WroteN(c, p, q, batch, ok, n);
    assert batch[..|batch|] == batch;
    if batch == [] {
      assert Rebuilds(c, q) == Some(Apply(Rebuilds(c, p).value, batch));
    } else if ok {
      OkIsWhole(c, p, q, batch, n);
      if Storable(c, batch, now) && Early(p, now) {
        BatchIsHeld(c, p.disk, p.logged, Rebuilds(c, p).value, batch, now);
      }
    } else if Quiet(q) && q.disk.wal == p.disk.wal {
      assert LogText(p.disk) + EncodeAll(c, batch[..n]) == LogText(p.disk);
      EncodesNothing(c, batch[..n]);
    }
  }

  lemma StreamBound(c: Codec, p: Saved, q: Saved, batch: seq<Event>, ok: bool)
    requires Wrote(c, p, q, batch, ok) && Quiet(p) && p.disk.wal.Some?
    ensures q.disk.wal.Some? && q.disk.wal.value <= p.disk.wal.value + EncodeAll(c, batch)
  {
    assert LogText(p.disk) + "" == LogText(p.disk);
  }

  /** A batch acknowledged through a quiet log stands on disk after everything before it. */
  lemma OkIsWhole(c: Codec, p: Saved, q: Saved, batch: seq<Event>, n: nat)
    requires WroteN(c, p, q, batch, true, n) && batch != [] && Quiet(p)
    ensures q.disk == DiskState(p.disk.snapshot, Some(LogText(p.disk) + EncodeAll(c, batch))) && q.logged == p.logged + batch
    ensures Quiet(q)
  {
    assert batch[..|batch|] == batch;
    assert LogText(p.disk) + "" == LogText(p.disk);
    assert LogText(q.disk) + "" == LogText(q.disk);
  }

  // ---------------------------------------------------------------- recovery over any faults

  /** The file accounts for the logged events, the acknowledged ones being on disk: what is in file and
      buffer are their lines, after a write error perhaps followed by part of the batch that met it. */
  ghost predicate TracksWith(c: Codec, p: Saved, more: seq<Event>) {
    && p.safe <= |p.logged| && EncodeAll(c, p.logged[..p.safe]) <= LogText(p.disk)
    && Fits(c, p.logged + more) && AllReadable(p.logged + more)
    && Stream(p) <= EncodeAll(c, p.logged + more)
    && (!p.log.Broken? ==> more == [] && Stream(p) == EncodeAll(c, p.logged))
    && (p.log.Shut? || p.log.Missing? ==> p.pending == "")
  }

  ghost predicate Tracks(c: Codec, p: Saved) {
    exists more :: TracksWith(c, p, more)
  }

  /** Every attempt keeps it so, whatever fails. */
  lemma WroteTracks(c: Codec, p: Saved, q: Saved, batch: seq<Event>, ok: bool)
    requires Tracks(c, p) && Wrote(c, p, q, batch, ok) && Fits(c, batch) && AllReadable(batch)
    ensures Tracks(c, q)
  {
    var n: nat :| WroteN(c, p, q, batch, ok, n);
    var more :| TracksWith(c, p, more);
    if q == p {
    } else if p.log.Broken? {
      assert p.logged + batch[..0] == p.logged;
      assert EncodeAll(c, batch[..0]) == "" && Stream(p) + "" == Stream(p);
      assert TracksWith(c, q, more);
    } else {
      WroteTracksOpen(c, p, q, batch, ok, n);
    }
  }

  lemma WroteTracksOpen(c: Codec, p: Saved, q: Saved, batch: seq<Event>, ok: bool, n: nat)
    requires TracksWith(c, p, []) && p.log.Open? && batch != [] && WroteN(c, p, q, batch, ok, n)
    requires Fits(c, batch) && AllReadable(batch)
    ensures Tracks(c, q)
  {
    var rest := batch[n..];
    assert p.logged + [] == p.logged && q.logged + [] == q.logged;
    assert batch[..n] + rest == batch && q.logged + rest == p.logged + batch;
    assert q.logged[..p.safe] == p.logged[..p.safe];
    EncodeAllConcat(c, p.logged, batch);
    EncodeAllConcat(c, p.logged, batch[..n]);
    FitsConcat(c, p.logged, batch);
    FitsConcat(c, q.logged, rest);
    assert q.logged[..|q.logged|] == q.logged && LogText(q.disk) + "" == LogText(q.disk);
    assert TracksWith(c, q, if q.log.Open? then [] else rest);
  }

  /** All kept lines are on the disk. */
  predicate AllWritten(p: Saved) {
    p.log.Shut? || p.log.Missing? || Quiet(p)
  }

  /** A restart replays the kept lines, as far as they had been written: every acknowledged event, and
      after a write error perhaps some more of the batch that met it. So it does on a disk whose log file
      grew from low to what q has, while at least the acknowledged lines of q were in low. */
  lemma TracksRecovers(c: Codec, q: Saved, safe: nat, low: string, d: DiskState) returns (more: seq<Event>, k: nat)
    requires Lossless(c) && Tracks(c, q) && d.snapshot == q.disk.snapshot && low <= LogText(d) <= Stream(q)
    requires safe <= |q.logged| && EncodeAll(c, q.logged[..safe]) <= low
    ensures safe <= k <= |q.logged + more| && (!q.log.Broken? ==> more == [])
    ensures Recover(c, d) == Success(Apply(SnapshotTasks(q.disk.snapshot), (q.logged + more)[..k]))
  {
    more :| TracksWith(c, q, more);
    var all := q.logged + more;
    var n := |LogText(d)|;
    assert LogText(d) == EncodeAll(c, all)[..n];
    k := TornTail(c, all, n);
    assert all[..safe] == q.logged[..safe];
    if k < safe {
      LinesBefore(c, all, k, safe);
      assert false;
    }
  }

  /** Once all is written it replays exactly the kept lines. */
  lemma WrittenRecovers(c: Codec, p: Saved)
    requires Lossless(c) && Tracks(c, p) && AllWritten(p)
    ensures Recover(c, p.disk) == Success(Apply(SnapshotTasks(p.disk.snapshot), p.logged))
  {
    var more :| TracksWith(c, p, more);
    assert p.logged + [] == p.logged && LogText(p.disk) + "" == LogText(p.disk);
    LogReloadsIff(c, p.disk, p.logged);
  }
}
