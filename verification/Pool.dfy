/** The worker pool: a bounded queue, workers that Start spawns one by one, submitters, and Stop. */
module Pools {

  datatype Job = Job(taskId: string, url: string, fileIndex: int)

  datatype Worker = Waiting | Handling(job: Job) | Exited

  /** How far Stop has come: the closed flag is set, the done channel closed, the job channel closed,
      and every worker waited for. */
  datatype StopPhase = NotStopped | Flagged | DoneClosed | JobsClosed | Returned

  /** unspawned counts the workers Start has yet to spawn; submitting holds the submissions that
      found the pool started and not closed; accepted and taken list, since the beginning, the jobs the
      channel took and those workers got from it, each in order; handled counts those done. */
  datatype Pool = Pool(
    size: nat,
    capacity: nat,
    queue: seq<Job>,
    started: bool,
    unspawned: nat,
    crew: seq<Worker>,
    stop: StopPhase,
    submitting: map<nat, Job>,
    accepted: seq<Job>,
    taken: seq<Job>,
    handled: multiset<Job>)

  /** A queue size that is not positive means four places a worker. */
  function NewPool(workers: nat, queueSize: int): Pool {
    Pool(workers, if queueSize <= 0 then workers * 4 else queueSize, [], false, 0, [], NotStopped, map[],
         [], [], multiset{})
  }

  predicate ChannelClosed(s: Pool) {
    s.stop.JobsClosed? || s.stop.Returned?
  }

  // ---------------------------------------------------------------- steps

  predicate Start(s: Pool, s': Pool) {
    !s.started && s' == s.(started := true, unspawned := s.size)
  }

  predicate Spawn(s: Pool, s': Pool) {
    s.unspawned > 0 && s' == s.(unspawned := s.unspawned - 1, crew := s.crew + [Waiting])
  }

  /** A submission that finds the pool not started, or closed, ends there; one that does not goes on. */
  predicate BeginSubmit(s: Pool, s': Pool, i: nat, job: Job) {
    && i !in s.submitting && s.started && s.stop.NotStopped?
    && s' == s.(submitting := s.submitting[i := job])
  }

  /** The send is chosen: only while the job channel is open and has room. */
  predicate Accept(s: Pool, s': Pool, i: nat) {
    && i in s.submitting && !ChannelClosed(s) && |s.queue| < s.capacity
    && s' == s.(queue := s.queue + [s.submitting[i]], accepted := s.accepted + [s.submitting[i]],
                submitting := s.submitting - {i})
  }

  /** The context ended, the pool is closed (also when the send panics), or the queue is full. */
  predicate Refuse(s: Pool, s': Pool, i: nat) {
    i in s.submitting && s' == s.(submitting := s.submitting - {i})
  }

  predicate Take(s: Pool, s': Pool, w: nat) {
    && w < |s.crew| && s.crew[w].Waiting? && s.queue != []
    && s' == s.(queue := s.queue[1..], taken := s.taken + [s.queue[0]], crew := s.crew[w := Handling(s.queue[0])])
  }

  predicate Finish(s: Pool, s': Pool, w: nat) {
    && w < |s.crew| && s.crew[w].Handling?
    && s' == s.(crew := s.crew[w := Waiting], handled := s.handled + multiset{s.crew[w].job})
  }

  /** A worker's loop ends once the channel is closed and drained. */
  predicate Exit(s: Pool, s': Pool, w: nat) {
    && w < |s.crew| && s.crew[w].Waiting? && s.queue == [] && ChannelClosed(s)
    && s' == s.(crew := s.crew[w := Exited])
  }

  predicate StopStep(s: Pool, s': Pool) {
    match s.stop
    case NotStopped => s' == s.(stop := Flagged)
    case Flagged => s' == s.(stop := DoneClosed)
    case DoneClosed => s' == s.(stop := JobsClosed)
    case JobsClosed => AllExited(s) && s' == s.(stop := Returned)
    case Returned => false
  }

  /** The wait group is at zero: every worker spawned so far has exited. */
  predicate AllExited(s: Pool) {
    forall w :: 0 <= w < |s.crew| ==> s.crew[w].Exited?
  }

  /** What the pool's own workers, and Start, do. */
  ghost predicate WorkStep(s: Pool, s': Pool) {
    || Spawn(s, s')
    || (exists w: nat :: Take(s, s', w))
    || (exists w: nat :: Finish(s, s', w))
    || (exists w: nat :: Exit(s, s', w))
  }

  ghost predicate Next(s: Pool, s': Pool) {
    || Start(s, s') || WorkStep(s, s') || StopStep(s, s')
    || (exists i: nat, job :: BeginSubmit(s, s', i, job))
    || (exists i: nat :: Accept(s, s', i))
    || (exists i: nat :: Refuse(s, s', i))
  }

  // ---------------------------------------------------------------- invariants

  function JobOf(w: Worker): multiset<Job> {
    if w.Handling? then multiset{w.job} else multiset{}
  }

  function Running(crew: seq<Worker>): multiset<Job>
    decreases |crew|
  {
    if crew == [] then multiset{} else Running(crew[..|crew| - 1]) + JobOf(crew[|crew| - 1])
  }

  function Alive(crew: seq<Worker>): nat
    decreases |crew|
  {
    if crew == [] then 0
    else Alive(crew[..|crew| - 1]) + (if crew[|crew| - 1].Exited? then 0 else 1)
  }

  /** What the others run. */
  function Others(crew: seq<Worker>, w: nat): multiset<Job>
    requires w < |crew|
    decreases |crew|
  {
    var n := |crew| - 1;
    if w == n then Running(crew[..n]) else Others(crew[..n], w) + JobOf(crew[n])
  }

  lemma AddInAnyOrder(r: multiset<Job>, a: multiset<Job>, b: multiset<Job>)
    ensures r + a + b == r + b + a
  {
  }

  lemma {:induction false} RunningSplits(crew: seq<Worker>, w: nat)
    requires w < |crew|
    ensures Running(crew) == Others(crew, w) + JobOf(crew[w])
    decreases |crew|
  {
    var n := |crew| - 1;
    if w < n {
      RunningSplits(crew[..n], w);
      AddInAnyOrder(Others(crew[..n], w), JobOf(crew[w]), JobOf(crew[n]));
    }
  }

  lemma {:induction false} OthersStay(crew: seq<Worker>, w: nat, v: Worker)
    requires w < |crew|
    ensures Others(crew[w := v], w) == Others(crew, w)
    decreases |crew|
  {
    var n := |crew| - 1;
    if w == n {
      assert crew[w := v][..n] == crew[..n];
    } else {
      assert crew[w := v][..n] == crew[..n][w := v];
      OthersStay(crew[..n], w, v);
    }
  }

  /** One worker changes; rest is what the others run. */
  lemma CrewChange(crew: seq<Worker>, w: nat, v: Worker) returns (rest: multiset<Job>)
    requires w < |crew|
    ensures Running(crew) == rest + JobOf(crew[w]) && Running(crew[w := v]) == rest + JobOf(v)
  {
    rest := Others(crew, w);
    RunningSplits(crew, w);
    RunningSplits(crew[w := v], w);
    OthersStay(crew, w, v);
  }

  lemma {:induction false} AliveChange(crew: seq<Worker>, w: nat, v: Worker)
    requires w < |crew|
    ensures Alive(crew[w := v]) + (if crew[w].Exited? then 0 else 1) == Alive(crew) + (if v.Exited? then 0 else 1)
    decreases |crew|
  {
    var n := |crew| - 1;
    if w == n {
      assert crew[w := v][..n] == crew[..n];
    } else {
      assert crew[w := v][..n] == crew[..n][w := v];
      AliveChange(crew[..n], w, v);
    }
  }

  lemma CrewGrows(crew: seq<Worker>)
    ensures Running(crew + [Waiting]) == Running(crew) && Alive(crew + [Waiting]) == Alive(crew) + 1
  {
    assert (crew + [Waiting])[..|crew|] == crew;
  }

  lemma {:induction false} RunningIsBounded(crew: seq<Worker>)
    ensures |Running(crew)| <= Alive(crew) <= |crew|
    decreases |crew|
  {
    if crew != [] {
      RunningIsBounded(crew[..|crew| - 1]);
    }
  }

  lemma {:induction false} NobodyRuns(crew: seq<Worker>)
    requires forall w :: 0 <= w < |crew| ==> crew[w].Exited?
    ensures Running(crew) == multiset{} && Alive(crew) == 0
    decreases |crew|
  {
    if crew != [] {
      NobodyRuns(crew[..|crew| - 1]);
    }
  }

  predicate AnyExited(crew: seq<Worker>) {
    exists w :: 0 <= w < |crew| && crew[w].Exited?
  }

  /** The accepted jobs are those taken and then those queued, in order; every taken job is running or handled,
      and is so exactly once. */
  ghost predicate Inv(s: Pool) {
    && s.accepted == s.taken + s.queue
    && multiset(s.taken) == Running(s.crew) + s.handled
    && |s.queue| <= s.capacity
    && |s.crew| + s.unspawned == (if s.started then s.size else 0)
    && (!s.started ==> s.submitting == map[] && s.accepted == [])
    && (s.crew == [] ==> s.handled == multiset{})
    && (AnyExited(s.crew) ==> ChannelClosed(s) && s.queue == [])
  }

  lemma NewPoolHolds(workers: nat, queueSize: int)
    ensures Inv(NewPool(workers, queueSize))
  {
  }

  lemma TakeHolds(s: Pool, s': Pool, w: nat)
    requires Inv(s) && Take(s, s', w)
    ensures Inv(s')
  {
    var rest := CrewChange(s.crew, w, Handling(s.queue[0]));
    assert s.queue == [s.queue[0]] + s.queue[1..];
    assert s.taken + s.queue == s'.taken + s'.queue;
    assert multiset(s'.taken) == multiset(s.taken) + multiset{s.queue[0]};
    assert !AnyExited(s.crew);
  }

  lemma FinishHolds(s: Pool, s': Pool, w: nat)
    requires Inv(s) && Finish(s, s', w)
    ensures Inv(s')
  {
    var rest := CrewChange(s.crew, w, Waiting);
    assert Running(s.crew) + s.handled == Running(s'.crew) + s'.handled;
    if AnyExited(s'.crew) {
      var v :| 0 <= v < |s'.crew| && s'.crew[v].Exited?;
      assert s.crew[v].Exited?;
    }
  }

  lemma ExitHolds(s: Pool, s': Pool, w: nat)
    requires Inv(s) && Exit(s, s', w)
    ensures Inv(s')
  {
    var rest := CrewChange(s.crew, w, Exited);
    assert Running(s.crew) == Running(s'.crew);
  }

  lemma SpawnHolds(s: Pool, s': Pool)
    requires Inv(s) && Spawn(s, s')
    ensures Inv(s')
  {
    CrewGrows(s.crew);
    if AnyExited(s'.crew) {
      var v :| 0 <= v < |s'.crew| && s'.crew[v].Exited?;
      assert s.crew[v].Exited?;
    }
  }

  lemma AcceptHolds(s: Pool, s': Pool, i: nat)
    requires Inv(s) && Accept(s, s', i)
    ensures Inv(s')
  {
    assert s.taken + s'.queue == s.taken + s.queue + [s.submitting[i]];
  }

  /** Steps that move no job. */
  lemma QuietHolds(s: Pool, s': Pool)
    requires Inv(s) && s'.size == s.size && s'.capacity == s.capacity
    requires s'.queue == s.queue && s'.crew == s.crew && s'.accepted == s.accepted && s'.taken == s.taken
    requires s'.handled == s.handled
    requires ChannelClosed(s) ==> ChannelClosed(s')
    requires |s'.crew| + s'.unspawned == (if s'.started then s'.size else 0)
    requires !s'.started ==> s'.submitting == map[] && s'.accepted == []
    ensures Inv(s')
  {
  }

  lemma StopHolds(s: Pool, s': Pool)
    requires Inv(s) && StopStep(s, s')
    ensures Inv(s')
  {
  }

  lemma NextHolds(s: Pool, s': Pool)
    requires Inv(s) && Next(s, s')
    ensures Inv(s')
  {
    if Spawn(s, s') { SpawnHolds(s, s'); }
    else if w: nat :| Take(s, s', w) { TakeHolds(s, s', w); }
    else if w: nat :| Finish(s, s', w) { FinishHolds(s, s', w); }
    else if w: nat :| Exit(s, s', w) { ExitHolds(s, s', w); }
    else if i: nat :| Accept(s, s', i) { AcceptHolds(s, s', i); }
    else if Start(s, s') { QuietHolds(s, s'); }
    else if StopStep(s, s') { StopHolds(s, s'); }
    else if i: nat, job :| BeginSubmit(s, s', i, job) { QuietHolds(s, s'); }
    else { var i: nat :| Refuse(s, s', i); QuietHolds(s, s'); }
  }

  lemma SizesStay(s: Pool, s': Pool)
    requires Next(s, s')
    ensures s'.size == s.size && s'.capacity == s.capacity
  {
  }

  ghost predicate StepAt(states: seq<Pool>, k: nat)
    requires k + 1 < |states|
  {
    Next(states[k], states[k + 1])
  }

  ghost predicate StepAll(states: seq<Pool>) {
    forall k: nat :: k + 1 < |states| ==> StepAt(states, k)
  }

  lemma StepLast(states: seq<Pool>)
    requires |states| > 1 && StepAll(states)
    ensures StepAll(states[..|states| - 1]) && Next(states[|states| - 2], states[|states| - 1])
  {
    assert StepAt(states, |states| - 2);
    var prefix := states[..|states| - 1];
    forall k: nat | k + 1 < |prefix| ensures StepAt(prefix, k) {
      assert StepAt(states, k);
    }
  }

  ghost predicate IsRun(states: seq<Pool>, workers: nat, queueSize: int) {
    && states != [] && states[0] == NewPool(workers, queueSize)
    && StepAll(states)
  }

  /** In every reachable state the accepted jobs are those taken and then those queued, in order, and exactly
      those queued, running and handled; the queue is within its capacity and no more jobs run than there are workers. */
  lemma {:induction false} EveryStateIsAccountedFor(states: seq<Pool>, workers: nat, queueSize: int)
    requires IsRun(states, workers, queueSize)
    ensures
      var s := states[|states| - 1];
      && Inv(s) && multiset(s.accepted) == multiset(s.queue) + Running(s.crew) + s.handled && |Running(s.crew)| <= workers
      && s.size == workers && s.capacity == (if queueSize <= 0 then workers * 4 else queueSize)
    decreases |states|
  {
    var n := |states| - 1;
    if n == 0 {
      NewPoolHolds(workers, queueSize);
    } else {
      StepLast(states);
      EveryStateIsAccountedFor(states[..n], workers, queueSize);
      NextHolds(states[n - 1], states[n]);
      SizesStay(states[n - 1], states[n]);
    }
    RunningIsBounded(states[n].crew);
    NoJobIsLost(states[n]);
  }

  /** Every accepted job is queued, running or handled, and is so exactly once. */
  lemma NoJobIsLost(s: Pool)
    requires Inv(s)
    ensures multiset(s.accepted) == multiset(s.queue) + Running(s.crew) + s.handled
  {
    assert multiset(s.accepted) == multiset(s.taken) + multiset(s.queue);
  }

  // ---------------------------------------------------------------- first in, first out

  lemma ListsGrow(s: Pool, s': Pool)
    requires Next(s, s')
    ensures s.accepted <= s'.accepted && s.taken <= s'.taken
  {
  }

  lemma {:induction false} ListsOnlyGrow(states: seq<Pool>, i: nat, j: nat)
    requires StepAll(states) && i <= j < |states|
    ensures states[i].accepted <= states[j].accepted && states[i].taken <= states[j].taken
    decreases j
  {
    if i < j {
      ListsOnlyGrow(states, i, j - 1);
      assert StepAt(states, j - 1);
      ListsGrow(states[j - 1], states[j]);
    }
  }

  /** In every run the worker that takes the next job gets the first accepted one that nobody has taken yet. */
  lemma NextInLine(states: seq<Pool>, workers: nat, queueSize: int, i: nat, w: nat) returns (k: nat)
    requires IsRun(states, workers, queueSize) && i + 1 < |states| && Take(states[i], states[i + 1], w)
    ensures k == |states[i].taken| && k + 1 == |states[i + 1].taken|
    ensures var last := states[|states| - 1]; k < |last.accepted| && states[i + 1].crew[w] == Handling(last.accepted[k])
  {
    k := |states[i].taken|;
    var before := states[..i + 1];
    forall j: nat | j + 1 < |before| ensures StepAt(before, j) {
      assert StepAt(states, j);
    }
    EveryStateIsAccountedFor(before, workers, queueSize);
    assert states[i].accepted[k] == states[i].queue[0];
    ListsOnlyGrow(states, i, |states| - 1);
  }

  /** So of two jobs the one taken earlier was accepted earlier. */
  lemma FirstInFirstOut(states: seq<Pool>, workers: nat, queueSize: int, i: nat, v: nat, j: nat, w: nat) returns (a: nat, b: nat)
    requires IsRun(states, workers, queueSize) && i < j && j + 1 < |states|
    requires Take(states[i], states[i + 1], v) && Take(states[j], states[j + 1], w)
    ensures a < b < |states[|states| - 1].accepted|
    ensures states[i + 1].crew[v] == Handling(states[|states| - 1].accepted[a])
    ensures states[j + 1].crew[w] == Handling(states[|states| - 1].accepted[b])
  {
    a := NextInLine(states, workers, queueSize, i, v);
    b := NextInLine(states, workers, queueSize, j, w);
    ListsOnlyGrow(states, i + 1, j);
  }

  // ---------------------------------------------------------------- stopping

  /** When Stop returns, everything accepted has been handled, exactly once, if and only if Start had
      spawned a worker by then or nothing was accepted: a Stop that overtakes Start waits for nobody. */
  lemma StopReturnsWhenDrained(s: Pool, s': Pool)
    requires Inv(s) && s.stop.JobsClosed? && StopStep(s, s')
    ensures s'.handled == multiset(s'.accepted) && s'.queue == [] <==> s.crew != [] || s.accepted == []
  {
    NobodyRuns(s.crew);
    if s.crew != [] {
      assert s.crew[0].Exited?;
      assert s.taken + [] == s.taken;
    } else {
      assert |multiset(s.taken)| == |s.taken|;
    }
  }

  /** That race is real: a job accepted before the first worker is spawned is still queued when Stop
      returns. */
  lemma StopCanOvertakeStart(job: Job) returns (states: seq<Pool>)
    ensures IsRun(states, 1, 1)
    ensures var s := states[|states| - 1]; s.stop.Returned? && s.accepted == [job] && s.handled == multiset{}
  {
    var s0 := NewPool(1, 1);
    var s1 := s0.(started := true, unspawned := 1);
    var s2 := s1.(submitting := map[0 := job]);
    var s3 := s2.(queue := [job], accepted := [job], submitting := map[]);
    var s4 := s3.(stop := Flagged);
    var s5 := s4.(stop := DoneClosed);
    var s6 := s5.(stop := JobsClosed);
    var s7 := s6.(stop := Returned);
    states := [s0, s1, s2, s3, s4, s5, s6, s7];
    assert Start(s0, s1);
    assert BeginSubmit(s1, s2, 0, job);
    assert [] + [job] == [job];
    assert Accept(s2, s3, 0);
    assert StopStep(s3, s4) && StopStep(s4, s5) && StopStep(s5, s6) && StopStep(s6, s7);
  }

  /** A Start that has returned has spawned every worker. */
  lemma StartedPoolHasWorkers(s: Pool)
    requires Inv(s) && s.started && s.unspawned == 0 && s.size > 0
    ensures s.crew != []
  {
  }

  lemma ClosedStaysClosed(s: Pool, s': Pool)
    requires ChannelClosed(s) && Next(s, s')
    ensures ChannelClosed(s') && s'.accepted == s.accepted && s.handled <= s'.handled
  {
  }

  ghost predicate Drained(s: Pool, accepted: seq<Job>) {
    Inv(s) && ChannelClosed(s) && s.handled == multiset(s.accepted) && s.accepted == accepted
  }

  /** Once Stop has returned from a drained pool, it stays drained and accepts nothing. */
  lemma {:induction false} StoppedStaysDrained(states: seq<Pool>, i: nat, accepted: seq<Job>)
    requires i < |states| && StepAll(states)
    requires Drained(states[i], accepted)
    ensures Drained(states[|states| - 1], accepted)
    decreases |states|
  {
    var n := |states| - 1;
    if i < n {
      StepLast(states);
      StoppedStaysDrained(states[..n], i, accepted);
      DrainedStaysDrained(states[n - 1], states[n], accepted);
    }
  }

  lemma DrainedStaysDrained(s: Pool, s': Pool, accepted: seq<Job>)
    requires Drained(s, accepted) && Next(s, s')
    ensures Drained(s', accepted)
  {
    NextHolds(s, s');
    ClosedStaysClosed(s, s');
    HandledIsAccepted(s');
  }

  lemma HandledIsAccepted(s: Pool)
    requires Inv(s)
    ensures s.handled <= multiset(s.accepted)
  {
    assert multiset(s.accepted) == multiset(s.taken) + multiset(s.queue);
  }

  function Measure(s: Pool): nat {
    2 * |s.queue| + |Running(s.crew)| + Alive(s.crew) + 2 * s.unspawned
  }

  /** After the channel is closed every step of Start and the workers brings the end nearer. */
  lemma DrainDecreases(s: Pool, s': Pool)
    requires ChannelClosed(s) && WorkStep(s, s')
    ensures Measure(s') < Measure(s)
  {
    if Spawn(s, s') {
      CrewGrows(s.crew);
    } else if w: nat :| Take(s, s', w) {
      var rest := CrewChange(s.crew, w, Handling(s.queue[0]));
      AliveChange(s.crew, w, Handling(s.queue[0]));
    } else if w: nat :| Finish(s, s', w) {
      var rest := CrewChange(s.crew, w, Waiting);
      AliveChange(s.crew, w, Waiting);
    } else {
      var w: nat :| Exit(s, s', w);
      var rest := CrewChange(s.crew, w, Exited);
      AliveChange(s.crew, w, Exited);
    }
  }

  /** And one is possible as long as a worker is there or still to come, if every handler call ends. */
  lemma DrainIsNeverStuck(s: Pool) returns (s': Pool)
    requires Inv(s) && ChannelClosed(s) && !(AllExited(s) && s.unspawned == 0)
    ensures WorkStep(s, s')
  {
    if s.unspawned > 0 {
      s' := s.(unspawned := s.unspawned - 1, crew := s.crew + [Waiting]);
    } else {
      var w: nat :| w < |s.crew| && !s.crew[w].Exited?;
      if s.crew[w].Handling? {
        s' := s.(crew := s.crew[w := Waiting], handled := s.handled + multiset{s.crew[w].job});
        assert Finish(s, s', w);
      } else if s.queue != [] {
        s' := s.(queue := s.queue[1..], taken := s.taken + [s.queue[0]], crew := s.crew[w := Handling(s.queue[0])]);
        assert Take(s, s', w);
      } else {
        s' := s.(crew := s.crew[w := Exited]);
        assert Exit(s, s', w);
      }
    }
  }
}
