/** The steps of a snapshot, and what an attempt leaves behind when one of them fails. */
module SnapshotSteps {
  import opened Core
  import opened Records
  import opened Replay
  import opened Wal
  import opened Disks
  import opened Recovery

  /** The steps of a snapshot that can fail, in the order they are taken. */
  datatype Step =
    | FlushLog | SyncLog
    | CheckContext | MakeDir | OpenTmp | EncodeTmp | SyncTmp | CloseTmp | RenameTmp
    | CloseLog | MakeOldDir | RenameLog | OpenLog

  /** The snapshot is in place before any of these steps. */
  predicate InReset(step: Step) {
    step.CloseLog? || step.MakeOldDir? || step.RenameLog? || step.OpenLog?
  }

  function FlushFault(faults: set<Step>): Option<Step> {
    if FlushLog in faults then Some(FlushLog) else if SyncLog in faults then Some(SyncLog) else None
  }

  function WriteFault(faults: set<Step>): Option<Step> {
    if CheckContext in faults then Some(CheckContext)
    else if MakeDir in faults then Some(MakeDir)
    else if OpenTmp in faults then Some(OpenTmp)
    else if EncodeTmp in faults then Some(EncodeTmp)
    else if SyncTmp in faults then Some(SyncTmp)
    else if CloseTmp in faults then Some(CloseTmp)
    else if RenameTmp in faults then Some(RenameTmp)
    else None
  }

  function MoveFault(faults: set<Step>): Option<Step> {
    if MakeOldDir in faults then Some(MakeOldDir)
    else if RenameLog in faults then Some(RenameLog)
    else if OpenLog in faults then Some(OpenLog)
    else None
  }

  function Either(a: Option<Step>, b: Option<Step>): Option<Step> {
    if a.Some? then a else b
  }

  /** A log that is closed already is not closed again. */
  function ResetFault(closed: bool, faults: set<Step>): Option<Step> {
    if !closed && CloseLog in faults then Some(CloseLog) else MoveFault(faults)
  }

  /** The first step of a snapshot that fails; flushing a closed log never does. */
  function FirstFault(closed: bool, faults: set<Step>): Option<Step> {
    Either(Either(if closed then None else FlushFault(faults), WriteFault(faults)), ResetFault(closed, faults))
  }

  /** A snapshot runs to its end exactly when no step fails. */
  lemma FirstFaultMisses(faults: set<Step>)
    ensures FirstFault(false, faults) == None <==> faults == {}
    ensures FirstFault(false, faults).Some? ==> FirstFault(false, faults).value in faults
  {
    if FirstFault(false, faults) == None {
      forall s: Step ensures s !in faults {
        match s
        case FlushLog => case SyncLog => case CheckContext => case MakeDir => case OpenTmp => case EncodeTmp =>
        case SyncTmp => case CloseTmp => case RenameTmp => case CloseLog => case MakeOldDir => case RenameLog => case OpenLog =>
      }
    }
  }

  /** The steps in the order in which they are taken. */
  const StepOrder := [FlushLog, SyncLog, CheckContext, MakeDir, OpenTmp, EncodeTmp, SyncTmp, CloseTmp, RenameTmp,
                    CloseLog, MakeOldDir, RenameLog, OpenLog]

  /** A closed log is neither flushed nor closed. */
  predicate IsTaken(closed: bool, step: Step) {
    !closed || step !in {FlushLog, SyncLog, CloseLog}
  }

  /** A snapshot stops at the first step in this order that is taken and fails. */
  lemma FirstFaultIsFirst(closed: bool, faults: set<Step>)
    ensures
      match FirstFault(closed, faults)
      case None => forall k :: 0 <= k < |StepOrder| && IsTaken(closed, StepOrder[k]) ==> StepOrder[k] !in faults
      case Some(step) =>
        step in faults && IsTaken(closed, step)
        && exists n :: 0 <= n < |StepOrder| && StepOrder[n] == step
                       && forall k :: 0 <= k < n && IsTaken(closed, StepOrder[k]) ==> StepOrder[k] !in faults
  {
    if FirstFault(closed, faults).Some? {
      var n := PlaceOf(FirstFault(closed, faults).value);
    }
  }

  lemma PlaceOf(step: Step) returns (n: nat)
    ensures n < |StepOrder| && StepOrder[n] == step
  {
    match step
    case FlushLog => n := 0; case SyncLog => n := 1; case CheckContext => n := 2; case MakeDir => n := 3;
    case OpenTmp => n := 4; case EncodeTmp => n := 5; case SyncTmp => n := 6; case CloseTmp => n := 7;
    case RenameTmp => n := 8; case CloseLog => n := 9; case MakeOldDir => n := 10; case RenameLog => n := 11;
    case OpenLog => n := 12;
  }

  datatype SnapshotOutcome = Done | LogMissing | FailedAt(step: Step)

  function OutcomeOf(fault: Option<Step>): SnapshotOutcome {
    if fault == None then Done else FailedAt(fault.value)
  }

  /** The snapshot was put in place. */
  predicate Placed(o: SnapshotOutcome) {
    o.Done? || (o.FailedAt? && InReset(o.step))
  }

  /** The log file when the snapshot is put in place: an open log has been flushed. */
  function Flushed(p: Saved): Option<string> {
    if p.log.Open? then Some(Stream(p)) else p.disk.wal
  }

  /** What an attempt that put the snapshot in place leaves. */
  function After(p: Saved, ss: Snapshot, o: SnapshotOutcome): Saved
    requires Placed(o)
  {
    var kept := DiskState(Some(ss), Flushed(p));
    match o
    case Done => Saved(Open, p.roomy, DiskState(Some(ss), Some("")), "", [], 0)
    case FailedAt(step) =>
      if step.CloseLog? then Saved(Shut, p.roomy, kept, "", p.logged, p.safe)
      else if step.OpenLog? then Saved(Missing, p.roomy, DiskState(Some(ss), None), "", [], 0)
      else Saved(Missing, p.roomy, kept, "", p.logged, p.safe)
  }

  ghost function SnapVerdict(p: Saved, q: Saved, ss: Snapshot, o: SnapshotOutcome, faults: set<Step>): Verdict {
    if && (o.LogMissing? <==> p.log.Missing?)
       && (Placed(o) ==> q == After(p, ss, o))
       && (o.LogMissing? ==> q == p)
       && (o.FailedAt? && !InReset(o.step) ==>
             if p.log.Open? && p.pending != "" then q == p.(log := q.log, disk := q.disk, pending := q.pending) && HalfFlushed(p, q) else q == p)
       && (FlushIsDecided(p) ==> o == OutcomeOf(FirstFault(p.log.Shut?, faults)))
       && (p.log.Broken? ==> o == FailedAt(FlushLog))
    then Sound else Unsound
  }

  /** A snapshot attempt took p to q. One through a stuck log fails at once. One that fails before the snapshot is in place has at most
      flushed the log. */
  ghost predicate Snapped(p: Saved, q: Saved, ss: Snapshot, o: SnapshotOutcome, faults: set<Step>) {
    SnapVerdict(p, q, ss, o, faults) == Sound
  }

  /** The states the disk goes through from a log file wal on, up to where the attempt ends. */
  function SnapshotTail(o: SnapshotOutcome, ss: Snapshot, wal: Option<string>): seq<DiskState> {
    var kept := DiskState(Some(ss), wal);
    match o
    case Done => [kept, DiskState(Some(ss), None), DiskState(Some(ss), Some(""))]
    case LogMissing => []
    case FailedAt(step) =>
      if !InReset(step) then []
      else if step == OpenLog then [kept, DiskState(Some(ss), None)]
      else [kept]
  }

  /** The disk's history went on from h to h2: first more of what was pending got into the log file, and
      then it went through the states of tail. */
  ghost predicate Passed(p: Saved, h: seq<DiskState>, h2: seq<DiskState>, tail: seq<DiskState>) {
    PassVerdict(p, h, h2, tail) == Sound
  }

  ghost function PassVerdict(p: Saved, h: seq<DiskState>, h2: seq<DiskState>, tail: seq<DiskState>): Verdict {
    if && h <= h2 && |h| + |tail| <= |h2| && h2[|h2| - |tail|..] == tail
       && forall k :: |h| <= k < |h2| - |tail| ==> LogBetween(h2[k], p.disk.snapshot, LogText(p.disk), Stream(p))
    then Sound else Unsound
  }

  lemma PassedMore(p: Saved, h: seq<DiskState>, h1: seq<DiskState>, t1: seq<DiskState>, t2: seq<DiskState>)
    requires Passed(p, h, h1, t1)
    ensures Passed(p, h, h1 + t2, t1 + t2)
  {
    var n := |h1| - |t1|;
    assert (h1 + t2)[n..] == h1[n..] + t2;
    assert forall k :: |h| <= k < n ==> (h1 + t2)[k] == h1[k];
  }

  /** What the store knows of its log decides how a flush ends. */
  predicate FlushIsDecided(p: Saved) {
    p.log.Shut? || Quiet(p) || (p.log.Open? && p.roomy)
  }

  /** A flush took p to q and the disk's history from h to h2: on success everything is written. */
  ghost predicate WasFlushed(p: Saved, q: Saved, fault: Option<Step>, faults: set<Step>, h: seq<DiskState>, h2: seq<DiskState>) {
    FlushVerdict(p, q, fault, faults, h, h2) == Sound
  }

  ghost function FlushVerdict(p: Saved, q: Saved, fault: Option<Step>, faults: set<Step>, h: seq<DiskState>, h2: seq<DiskState>): Verdict {
    if && Passed(p, h, h2, [])
       && (fault == None ==> (p.log.Shut? || p.log.Open?) && q == p.(disk := p.disk.(wal := Flushed(p)), pending := ""))
       && (fault.Some? ==> fault.value.FlushLog? || fault.value.SyncLog?)
       && (if p.log.Open? && p.pending != ""
           then q == p.(log := q.log, disk := q.disk, pending := q.pending) && HalfFlushed(p, q)
           else q == p && h2 == h)
       && (FlushIsDecided(p) ==> fault == if p.log.Shut? then None else FlushFault(faults))
       && (p.log.Broken? ==> fault == Some(FlushLog))
    then Sound else Unsound
  }

  /** The same for the flush and the writing of the snapshot file. */
  ghost predicate WasPut(p: Saved, q: Saved, ss: Snapshot, fault: Option<Step>, faults: set<Step>, h: seq<DiskState>, h2: seq<DiskState>) {
    PutVerdict(p, q, ss, fault, faults, h, h2) == Sound
  }

  ghost function PutVerdict(p: Saved, q: Saved, ss: Snapshot, fault: Option<Step>, faults: set<Step>, h: seq<DiskState>, h2: seq<DiskState>): Verdict {
    if && Passed(p, h, h2, if fault == None then [q.disk] else [])
       && (fault == None ==>
             && (p.log.Shut? || p.log.Open?) && q == p.(disk := DiskState(Some(ss), Flushed(p)), pending := "")
             && (p.log.Shut? || Quiet(p) ==> h2 == h + [q.disk]))
       && (fault.Some? ==>
             && !InReset(fault.value)
             && (if p.log.Open? && p.pending != ""
                 then q == p.(log := q.log, disk := q.disk, pending := q.pending) && HalfFlushed(p, q)
                 else q == p && h2 == h))
       && (FlushIsDecided(p) ==> fault == Either(if p.log.Shut? then None else FlushFault(faults), WriteFault(faults)))
       && (p.log.Broken? ==> fault == Some(FlushLog))
    then Sound else Unsound
  }

  lemma FlushFails(p: Saved, q: Saved, ss: Snapshot, fault: Option<Step>, faults: set<Step>, h: seq<DiskState>, h2: seq<DiskState>)
    requires WasFlushed(p, q, fault, faults, h, h2) && fault.Some?
    ensures WasPut(p, q, ss, fault, faults, h, h2)
  {
  }

  lemma FlushedThenPut(p: Saved, r: Saved, q: Saved, ss: Snapshot, faults: set<Step>,
                       h: seq<DiskState>, h1: seq<DiskState>, h2: seq<DiskState>)
    requires WasFlushed(p, r, None, faults, h, h1)
    requires WriteFault(faults).Some? ==> q == r && h2 == h1
    requires WriteFault(faults) == None ==> q == r.(disk := r.disk.(snapshot := Some(ss))) && h2 == h1 + [q.disk]
    ensures WasPut(p, q, ss, WriteFault(faults), faults, h, h2)
  {
    if WriteFault(faults) == None {
      PassedMore(p, h, h1, [], [q.disk]);
      assert [] + [q.disk] == [q.disk];
    }
  }

  /** An attempt that fails before the snapshot is in place. */
  lemma EarlyAttempt(p: Saved, q: Saved, ss: Snapshot, step: Step, faults: set<Step>, h: seq<DiskState>, h2: seq<DiskState>)
    requires !p.log.Missing? && WasPut(p, q, ss, Some(step), faults, h, h2)
    ensures Snapped(p, q, ss, FailedAt(step), faults) && Passed(p, h, h2, SnapshotTail(FailedAt(step), ss, Flushed(p)))
    ensures p.log.Shut? || Quiet(p) ==> h2 == h + SnapshotTail(FailedAt(step), ss, Flushed(p))
  {
    assert h + [] == h;
  }

  /** Closing the log, moving its file away and opening a new one took p to q and the disk's history from h
      to h2. */
  ghost predicate WasReset(p: Saved, q: Saved, fault: Option<Step>, h: seq<DiskState>, h2: seq<DiskState>) {
    ResetVerdict(p, q, fault, h, h2) == Sound
  }

  ghost function ResetVerdict(p: Saved, q: Saved, fault: Option<Step>, h: seq<DiskState>, h2: seq<DiskState>): Verdict {
    var gone, anew := p.disk.(wal := None), p.disk.(wal := Some(""));
    if match fault
       case None => q == Saved(Open, p.roomy, anew, "", [], 0) && h2 == h + [gone, anew]
       case Some(CloseLog) => q == Saved(Shut, p.roomy, p.disk, "", p.logged, p.safe) && h2 == h
       case Some(OpenLog) => q == Saved(Missing, p.roomy, gone, "", [], 0) && h2 == h + [gone]
       case Some(_) => q == Saved(Missing, p.roomy, p.disk, "", p.logged, p.safe) && h2 == h
    then Sound else Unsound
  }

  /** An attempt whose snapshot was put in place, from its beginning at h to its end at h2. */
  lemma LateAttempt(p: Saved, r: Saved, q: Saved, ss: Snapshot, fault: Option<Step>, faults: set<Step>,
                    h: seq<DiskState>, h1: seq<DiskState>, h2: seq<DiskState>)
    requires WasPut(p, r, ss, None, faults, h, h1) && WasReset(r, q, fault, h1, h2) && fault == ResetFault(p.log.Shut?, faults)
    ensures
      var tail := SnapshotTail(OutcomeOf(fault), ss, Flushed(p));
      && Snapped(p, q, ss, OutcomeOf(fault), faults) && Passed(p, h, h2, tail)
      && (p.log.Shut? || Quiet(p) ==> h2 == h + tail)
  {
    var tail := SnapshotTail(OutcomeOf(fault), ss, Flushed(p));
    LateTail(p, r, q, ss, fault, h1, h2);
    PassedMore(p, h, h1, [r.disk], tail[1..]);
    assert h + [r.disk] + tail[1..] == h + ([r.disk] + tail[1..]);
  }

  lemma LateTail(p: Saved, r: Saved, q: Saved, ss: Snapshot, fault: Option<Step>, h1: seq<DiskState>, h2: seq<DiskState>)
    requires r == p.(disk := DiskState(Some(ss), Flushed(p)), pending := "") && WasReset(r, q, fault, h1, h2)
    requires fault.Some? ==> InReset(fault.value)
    ensures
      var tail := SnapshotTail(OutcomeOf(fault), ss, Flushed(p));
      q == After(p, ss, OutcomeOf(fault)) && tail != [] && [r.disk] + tail[1..] == tail && h1 + tail[1..] == h2
  {
    var tail := SnapshotTail(OutcomeOf(fault), ss, Flushed(p));
    assert tail[..1] + tail[1..] == tail && tail[..1] == [r.disk];
  }

  ghost predicate AllHold(c: Codec, states: seq<DiskState>, evs: seq<Event>, m: Tasks) {
    forall k :: 0 <= k < |states| ==> Holds(c, states[k], evs, m) || Holds(c, states[k], [], m)
  }

  lemma TailHolds(c: Codec, wal: Option<string>, evs: seq<Event>, m: Tasks, ss: Snapshot, o: SnapshotOutcome)
    requires Holds(c, DiskState(Some(ss), wal), evs, m)
    requires Holds(c, DiskState(Some(ss), None), [], m) && Holds(c, DiskState(Some(ss), Some("")), [], m)
    ensures AllHold(c, SnapshotTail(o, ss, wal), evs, m)
  {
  }

  /** A snapshot of what the disk holds, wherever the attempt ends or a crash interrupts it, leaves the
      disk holding it. */
  lemma SnapshotKeepsMap(c: Codec, p: Saved, q: Saved, m: Tasks, ss: Snapshot, o: SnapshotOutcome, faults: set<Step>)
    requires Rebuilds(c, p) == Some(m) && p.disk.wal.Some? && TasksOf(ss.tasks) == m && Snapped(p, q, ss, o, faults)
    ensures Holds(c, q.disk, q.logged, m) && (Quiet(q) ==> Rebuilds(c, q) == Some(m))
    ensures AllHold(c, SnapshotTail(o, ss, p.disk.wal), p.logged, m)
  {
    SnapshotReplacesBase(c, p.disk, p.logged, m, ss);
    TailHolds(c, p.disk.wal, p.logged, m, ss, o);
    assert Flushed(p) == p.disk.wal by {
      assert LogText(p.disk) + "" == LogText(p.disk);
    }
  }

  /** A snapshot that is done leaves the disk holding exactly its tasks, whatever went before. */
  lemma DoneHolds(c: Codec, p: Saved, q: Saved, ss: Snapshot, faults: set<Step>)
    requires Snapped(p, q, ss, Done, faults)
    ensures Rebuilds(c, q) == Some(TasksOf(ss.tasks)) && q.logged == []
  {
    NothingToReplay(TasksOf(ss.tasks));
  }
}
