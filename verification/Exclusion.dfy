/**
 * Timed mutual exclusion. Nothing interrupts a worker whose heartbeat has failed, so one
 * worker per project is a matter of clock arithmetic alone: heartbeat period plus delays
 * against the lock's time to live.
 */
module Exclusion {
  import opened Tasks
  import opened Locks
  import opened Protocol
  import opened Conservation

  /** At most one worker per project runs with a heartbeat. */
  predicate BeatingExclusive(s: System) {
    forall v, w | v in s.workers && w in s.workers && Beats(s.workers[v]) && Beats(s.workers[w]) ::
      s.workers[v].hold.project == s.workers[w].hold.project ==> v == w
  }

  /** At most one worker per project is between acquire and release. */
  predicate HoldingExclusive(s: System) {
    forall v, w | v in s.workers && w in s.workers && Holding(s.workers[v]) && Holding(s.workers[w]) ::
      s.workers[v].hold.project == s.workers[w].hold.project ==> v == w
  }

  predicate HeartbeatsFast(c: Config) {
    c.heartbeat + c.delay < c.ttl
  }

  predicate ReleasesFast(c: Config) {
    c.heartbeat + c.delay + c.releaseDelay < c.ttl
  }

  // ---- the invariant ---------------------------------------------------------

  /** The lease in Redis is the one this worker last confirmed. */
  predicate Leased(c: Config, s: System, h: Hold) {
    h.project in s.locks && s.locks[h.project] == Lease(h.token, h.refreshed + c.ttl)
  }

  predicate HoldOk(c: Config, s: System, a: Worker) {
    && (Holding(a) ==> a.hold.token < s.nextToken)
    && (Beats(a) ==>
          a.hold.beating && s.now <= a.hold.refreshed + c.heartbeat + c.delay && Leased(c, s, a.hold))
    && (a.Releasing? && ReleasesFast(c) ==>
          && a.since <= a.hold.refreshed + c.heartbeat + c.delay
          && s.now <= a.since + c.releaseDelay
          && Leased(c, s, a.hold))
  }

  predicate TokensDiffer(s: System) {
    forall v, w | v in s.workers && w in s.workers && v != w && Holding(s.workers[v]) && Holding(s.workers[w]) ::
      s.workers[v].hold.token != s.workers[w].hold.token
  }

  predicate Timed(c: Config, s: System) {
    TokensDiffer(s) && forall w | w in s.workers :: HoldOk(c, s, s.workers[w])
  }

  /** A worker with a confirmed lease keeps everyone else out. */
  lemma ConfirmedIsLive(c: Config, s: System, a: Worker)
    requires Sane(c) && HeartbeatsFast(c) && HoldOk(c, s, a)
    requires Beats(a) || (a.Releasing? && ReleasesFast(c))
    ensures Owned(s.locks, a.hold.project, a.hold.token, s.now)
  {}

  // ---- preservation ----------------------------------------------------------

  lemma TimedAcquire(c: Config, s: System, w: nat)
    requires Sane(c) && HeartbeatsFast(c) && Timed(c, s) && w in s.workers && s.workers[w].Got?
    ensures Timed(c, AcquireStep(c, s, w))
  {
    var s' := AcquireStep(c, s, w);
    forall v | v in s'.workers
      ensures HoldOk(c, s', s'.workers[v])
    {
      assert HoldOk(c, s, s.workers[v]);
    }
    forall v, u | v in s'.workers && u in s'.workers && v != u && Holding(s'.workers[v]) && Holding(s'.workers[u])
      ensures s'.workers[v].hold.token != s'.workers[u].hold.token
    {
      assert HoldOk(c, s, s.workers[v]) && HoldOk(c, s, s.workers[u]);
    }
  }

  lemma TimedAsked(c: Config, s: System, project: string)
    requires Sane(c) && HeartbeatsFast(c) && Timed(c, s)
    ensures Timed(c, Asked(c, s, project))
  {
    var s' := Asked(c, s, project);
    forall v | v in s'.workers
      ensures HoldOk(c, s', s'.workers[v])
    {
      assert HoldOk(c, s, s.workers[v]);
    }
  }

  lemma TimedAbandon(c: Config, s: System, w: nat)
    requires Sane(c) && HeartbeatsFast(c) && Timed(c, s) && Enabled(c, s, Abandon(w))
    ensures Timed(c, AbandonStep(c, s, w))
  {
    var b, a := AbandonDrops(c, s, w);
    if s.workers[w].Got? {
      TimedAsked(c, s, s.workers[w].task.project);
    }
    TimedKept(c, b, Drop(b, w, a));
  }

  lemma TimedRelease(c: Config, s: System, w: nat)
    requires Sane(c) && HeartbeatsFast(c) && Timed(c, s) && Enabled(c, s, Release(w))
    ensures Timed(c, Next(c, s, Release(w)))
  {
    var s' := Next(c, s, Release(w));
    forall v | v in s'.workers
      ensures HoldOk(c, s', s'.workers[v])
    {
      assert HoldOk(c, s, s.workers[v]);
      assert v != w && Holding(s.workers[v]) ==> s.workers[v].hold.token != s.workers[w].hold.token;
    }
  }

  lemma TimedRefresh(c: Config, s: System, w: nat)
    requires Sane(c) && HeartbeatsFast(c) && Timed(c, s) && w in s.workers && Beats(s.workers[w])
    ensures Timed(c, RefreshStep(c, s, w))
  {
    var s' := RefreshStep(c, s, w);
    assert HoldOk(c, s, s.workers[w]);
    ConfirmedIsLive(c, s, s.workers[w]);
    forall v | v in s'.workers
      ensures HoldOk(c, s', s'.workers[v])
    {
      assert HoldOk(c, s, s.workers[v]);
      assert v != w && Holding(s.workers[v]) ==> s.workers[v].hold.token != s.workers[w].hold.token;
    }
  }

  /** A step of other parts of the system: holds are kept, or given up. */
  lemma TimedKept(c: Config, s: System, s': System)
    requires Timed(c, s)
    requires s'.now == s.now && s'.nextToken == s.nextToken && s'.locks == s.locks
    requires s'.workers.Keys == s.workers.Keys
    requires forall w | w in s.workers :: Yields(s.workers[w], s'.workers[w])
    ensures Timed(c, s')
  {
    forall w | w in s'.workers
      ensures HoldOk(c, s', s'.workers[w])
    {
      assert HoldOk(c, s, s.workers[w]) && Yields(s.workers[w], s'.workers[w]);
    }
    forall v, w | v in s'.workers && w in s'.workers && v != w && Holding(s'.workers[v]) && Holding(s'.workers[w])
      ensures s'.workers[v].hold.token != s'.workers[w].hold.token
    {
      assert Yields(s.workers[v], s'.workers[v]) && Yields(s.workers[w], s'.workers[w]);
    }
  }

  predicate Yields(a: Worker, a': Worker) {
    Holding(a') ==>
      && Holding(a) && a'.hold == a.hold
      && (Beats(a') <==> Beats(a))
      && (a'.Releasing? ==> a'.since == a.since)
  }

  lemma TimedWorkerStep(c: Config, s: System, l: Label)
    requires Timed(c, s) && Enabled(c, s, l)
    requires Writes(s, l) || l.Cancel?
    ensures Timed(c, Next(c, s, l))
  {
    if Writes(s, l) {
      var t, a := WriterStep(c, s, l);
      assert Yields(s.workers[l.w], a);
      TimedKept(c, s, Write(s, l.w, t, a));
    } else {
      var a := CancelDrops(c, s, l.w);
      TimedKept(c, s, Drop(s, l.w, a));
    }
  }

  lemma TimedOther(c: Config, s: System, l: Label)
    requires Timed(c, s) && Enabled(c, s, l)
    requires || l.Create? || l.EnqueueNew? || l.Dequeue? || l.Requeue? || l.RetryEnqueue? || l.Crash?
             || l.CrashHandler? || l.LoseQueue? || l.Recover?
    ensures Timed(c, Next(c, s, l))
  {
    TimedKept(c, s, Next(c, s, l));
  }

  lemma TimedClock(c: Config, s: System, l: Label)
    requires Sane(c) && Timed(c, s) && Enabled(c, s, l) && (l.Tick? || l.StopHeartbeat?)
    ensures Timed(c, Next(c, s, l))
  {
    var s' := Next(c, s, l);
    forall v | v in s'.workers
      ensures HoldOk(c, s', s'.workers[v])
    {
      assert HoldOk(c, s, s.workers[v]);
      assert l.Tick? ==> InTime(c, s.workers[v], s.now + l.d);
    }
  }

  lemma TimedStep(c: Config, s: System, l: Label)
    requires Sane(c) && HeartbeatsFast(c) && Timed(c, s) && Enabled(c, s, l)
    ensures Timed(c, Next(c, s, l))
  {
    if Writes(s, l) || l.Cancel? {
      TimedWorkerStep(c, s, l);
    } else if l.Abandon? {
      TimedAbandon(c, s, l.w);
    } else if l.Tick? || l.StopHeartbeat? {
      TimedClock(c, s, l);
    } else if l.Acquire? {
      TimedAcquire(c, s, l.w);
    } else if l.Release? {
      TimedRelease(c, s, l.w);
    } else if l.Refresh? {
      TimedRefresh(c, s, l.w);
    } else {
      TimedOther(c, s, l);
    }
  }

  lemma {:induction false} TimedRun(c: Config, s: System, ls: seq<Label>)
    requires Sane(c) && HeartbeatsFast(c) && Timed(c, s) && CanRun(c, s, ls)
    ensures Timed(c, Run(c, s, ls))
    decreases |ls|
  {
    if ls != [] {
      TimedStep(c, s, ls[0]);
      TimedRun(c, Next(c, s, ls[0]), ls[1..]);
    }
  }

  // ---- exclusion -------------------------------------------------------------

  lemma TimedExcludes(c: Config, s: System)
    requires Timed(c, s)
    ensures BeatingExclusive(s)
    ensures ReleasesFast(c) ==> HoldingExclusive(s)
  {
    forall v, w | && v in s.workers && w in s.workers && Holding(s.workers[v]) && Holding(s.workers[w])
                  && s.workers[v].hold.project == s.workers[w].hold.project
                  && ((Beats(s.workers[v]) && Beats(s.workers[w])) || ReleasesFast(c))
      ensures v == w
    {
      assert HoldOk(c, s, s.workers[v]) && HoldOk(c, s, s.workers[w]);
    }
  }

  /**
   * With fast heartbeats, in every reachable state, crashes and recoveries included, at most
   * one worker per project runs under a heartbeat and its next refresh succeeds; with fast
   * releases the exclusion extends from the acquire to the release.
   */
  lemma MutualExclusion(c: Config, workers: set<nat>, ls: seq<Label>)
    requires Sane(c) && HeartbeatsFast(c) && CanRun(c, Init(workers), ls)
    ensures var s := Run(c, Init(workers), ls);
            && BeatingExclusive(s)
            && (ReleasesFast(c) ==> HoldingExclusive(s))
            && forall w | w in s.workers && Beats(s.workers[w]) ::
                 Owned(s.locks, s.workers[w].hold.project, s.workers[w].hold.token, s.now)
  {
    TimedRun(c, Init(workers), ls);
    var s := Run(c, Init(workers), ls);
    TimedExcludes(c, s);
    forall w | w in s.workers && Beats(s.workers[w])
      ensures Owned(s.locks, s.workers[w].hold.project, s.workers[w].hold.token, s.now)
    {
      assert HoldOk(c, s, s.workers[w]);
      ConfirmedIsLive(c, s, s.workers[w]);
    }
  }

  // ---- what exclusion means for the store ------------------------------------

  predicate RunningHere(s: System, id: TaskId) {
    RunningIn(s, id) && id in s.place && !s.place[id].Stranded?
  }

  /** Of a project's stored tasks, at most one is RUNNING and not stranded. */
  ghost predicate OneRunner(s: System) {
    forall i, j | RunningHere(s, i) && RunningHere(s, j) ::
      s.store.records[i].project == s.store.records[j].project ==> i == j
  }

  lemma RunningIsStreamed(s: System, id: TaskId) returns (w: nat)
    requires Core(s) && RunningHere(s, id)
    ensures w in s.workers && s.workers[w].Streaming? && s.workers[w].task == s.store.records[id]
    ensures s.workers[w].hold.project == s.store.records[id].project
  {
    assert Present(s, id);
    QueueMembers(s);
    assert s.place[id].InHand?;
    w := s.place[id].worker;
    assert HandOk(s, w);
  }

  ghost predicate NoneStrandedRunning(s: System) {
    forall id | RunningIn(s, id) :: !IsStranded(s, id)
  }

  /** A crash, or a cancellation between a retriable failure and its record, hits a streaming worker. */
  predicate AbandonsStream(s: System, l: Label) {
    (l.Crash? || l.Abandon?) && l.w in s.workers && s.workers[l.w].Streaming?
  }

  lemma AbandonedIsRunning(c: Config, s: System, l: Label)
    requires Core(s) && Enabled(c, s, l) && AbandonsStream(s, l)
    ensures !NoneStrandedRunning(Next(c, s, l))
  {
    var s' := Next(c, s, l);
    var id := s.workers[l.w].task.id;
    assert HandOk(s, l.w);
    assert RunningIn(s', id) && IsStranded(s', id);
  }

  lemma AttendedWrite(c: Config, s: System, w: nat, t: Task, a: Worker)
    requires Core(s) && NoneStrandedRunning(s) && w in s.workers && Produces(c, s.workers[w], t, a)
    ensures NoneStrandedRunning(Write(s, w, t, a))
  {
    assert HandOk(s, w);
    ProducesOnward(c, s.workers[w], t, a);
    WriteSetsRecord(s.store, t);
    var s' := Write(s, w, t, a);
    forall id | RunningIn(s', id)
      ensures !IsStranded(s', id)
    {
      assert id != t.id ==> RunningIn(s, id);
    }
  }

  /** Without a write or an abandoned stream, only tasks that are not RUNNING get lost. */
  lemma AttendedOther(c: Config, s: System, l: Label)
    requires Core(s) && NoneStrandedRunning(s) && Enabled(c, s, l) && !AbandonsStream(s, l)
    requires !Writes(s, l) && !l.Create? && !l.Recover?
    ensures NoneStrandedRunning(Next(c, s, l))
  {
    var s' := Next(c, s, l);
    OthersKeepTheStore(c, s, l);
    forall id | RunningIn(s', id)
      ensures !IsStranded(s', id)
    {
      assert RunningIn(s, id);
      StrandedStep(c, s, l, id);
      if Loses(s, l, id) {
        LosesNoRunner(c, s, l, id);
      }
    }
  }

  lemma LosesNoRunner(c: Config, s: System, l: Label, id: TaskId)
    requires Core(s) && Enabled(c, s, l) && Loses(s, l, id) && !AbandonsStream(s, l) && !Writes(s, l)
    ensures !RunningIn(s, id)
  {
    if l.CrashHandler? {
      assert Placed(s, s.handlers[id], AtHandler);
    } else if l.LoseQueue? {
      QueueMembers(s);
      var i :| 0 <= i < |s.queue| && s.queue[i].id == id;
      assert s.queue[i] in s.queue;
    } else {
      assert HandOk(s, l.w);
    }
  }

  /** RUNNING records stay attended in a step iff it abandons no stream. */
  lemma AttendedStep(c: Config, s: System, l: Label)
    requires Core(s) && NoneStrandedRunning(s) && Enabled(c, s, l)
    ensures NoneStrandedRunning(Next(c, s, l)) <==> !AbandonsStream(s, l)
  {
    if AbandonsStream(s, l) {
      AbandonedIsRunning(c, s, l);
    } else if Writes(s, l) {
      var t, a := WriterStep(c, s, l);
      AttendedWrite(c, s, l.w, t, a);
    } else if l.Create? {
      AttendedCreate(s, Fresh(l.id, l.project, l.requirement, l.workDir, l.configJson));
    } else if !l.Recover? {
      AttendedOther(c, s, l);
    }
  }

  lemma AttendedCreate(s: System, t: Task)
    requires NoneStrandedRunning(s) && t.status.Pending?
    ensures NoneStrandedRunning(CreateStep(s, t))
  {
    SaveSetsRecord(s.store, t);
    var s' := CreateStep(s, t);
    forall id | RunningIn(s', id)
      ensures !IsStranded(s', id)
    {
      assert RunningIn(s, id);
    }
  }

  /** No step of the run abandons a stream. */
  ghost predicate Attended(c: Config, s: System, ls: seq<Label>)
    requires CanRun(c, s, ls)
    decreases |ls|
  {
    ls == [] || (!AbandonsStream(s, ls[0]) && Attended(c, Next(c, s, ls[0]), ls[1..]))
  }

  lemma {:induction false} AttendedRun(c: Config, s: System, ls: seq<Label>)
    requires Core(s) && NoneStrandedRunning(s) && OrderlyRun(c, s, ls) && CanRun(c, s, ls) && Attended(c, s, ls)
    ensures NoneStrandedRunning(Run(c, s, ls))
    decreases |ls|
  {
    if ls != [] {
      CoreStep(c, s, ls[0]);
      AttendedStep(c, s, ls[0]);
      AttendedRun(c, Next(c, s, ls[0]), ls[1..]);
    }
  }

  lemma OneRunnerTimed(c: Config, s: System)
    requires Core(s) && BeatingExclusive(s)
    ensures OneRunner(s)
  {
    forall i, j | RunningHere(s, i) && RunningHere(s, j) && s.store.records[i].project == s.store.records[j].project
      ensures i == j
    {
      var v := RunningIsStreamed(s, i);
      var w := RunningIsStreamed(s, j);
      assert Beats(s.workers[v]) && Beats(s.workers[w]);
    }
  }

  /**
   * In orderly runs at most one stored task per project is RUNNING, of those that no crash or cancellation has
   * taken from their worker since the last recovery; and of all of them, when no stream was
   * abandoned in the run.
   */
  lemma OneRunningPerProject(c: Config, workers: set<nat>, ls: seq<Label>)
    requires Sane(c) && HeartbeatsFast(c) && OrderlyRun(c, Init(workers), ls)
    ensures CanRun(c, Init(workers), ls)
    ensures var s := Run(c, Init(workers), ls);
            && OneRunner(s)
            && (forall i | RunningIn(s, i) :: RunningHere(s, i) <==> !Lost(c, Init(workers), ls, i))
            && (Attended(c, Init(workers), ls) ==> forall i | RunningIn(s, i) :: RunningHere(s, i))
  {
    CoreInit(workers);
    CoreRun(c, Init(workers), ls);
    MutualExclusion(c, workers, ls);
    var s := Run(c, Init(workers), ls);
    OneRunnerTimed(c, s);
    if Attended(c, Init(workers), ls) {
      AttendedRun(c, Init(workers), ls);
    }
    forall i | RunningIn(s, i)
      ensures RunningHere(s, i) <==> !Lost(c, Init(workers), ls, i)
      ensures i in s.place
    {
      StrandedRun(c, Init(workers), ls, i);
      assert i in s.place <==> Stores.Active(s.store, i);
    }
  }
}
