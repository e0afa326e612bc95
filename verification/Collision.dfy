/**
 * The timing bounds of `Exclusion` are exact: as soon as one fails, there is a run in which
 * two workers are at work on the same project.
 */
module Collision {
  import opened Tasks
  import opened Stores
  import opened Locks
  import opened Scheduling
  import opened Recovery
  import opened Protocol
  import opened Exclusion

  const FIRST := TaskId("1")
  const SECOND := TaskId("2")
  const PROJECT := "p"

  function Job(id: TaskId): Task {
    Fresh(id, PROJECT, "", "", "")
  }

  function Start0(): System {
    Init({0, 1})
  }

  ghost predicate CrashFree(ls: seq<Label>) {
    forall l | l in ls :: !l.Crash? && !l.CrashHandler?
  }

  /** All runs built here are orderly, and nothing crashes in them. */
  ghost predicate Reaches(c: Config, ls: seq<Label>, s: System) {
    Leads(c, Start0(), ls, s) && OrderlyRun(c, Start0(), ls) && CrashFree(ls)
  }

  lemma Go(c: Config, ls: seq<Label>, s: System, l: Label) returns (ls': seq<Label>, s': System)
    requires Reaches(c, ls, s) && Enabled(c, s, l) && QueueLost(s, l) && !l.Crash? && !l.CrashHandler?
    ensures s' == Next(c, s, l) && Reaches(c, ls', s')
  {
    ls', s' := Do(c, Start0(), ls, s, l);
  }

  function Begun(t: Task): Task {
    t.(mode := Resume, status := Status.Running)
  }

  lemma DoStart(c: Config, ls: seq<Label>, s: System, w: nat) returns (ls': seq<Label>, s': System)
    requires Reaches(c, ls, s) && w in s.workers && s.workers[w].Locked? && s.workers[w].task.requirement == ""
    ensures Reaches(c, ls', s')
    ensures var Locked(t, h) := s.workers[w];
            var u := Begun(t);
            && s'.workers == s.workers[w := Streaming(u, h)]
            && s'.store == SetRecord(s.store, u)
            && s'.place == s.place[t.id := InHand(w)]
            && s'.queue == s.queue && s'.handlers == s.handlers && s'.locks == s.locks
            && s'.now == s.now && s'.nextToken == s.nextToken
  {
    ls', s' := Go(c, ls, s, Start(w, CHECKPOINT));
    assert Started(s.workers[w].task, CHECKPOINT) == Begun(s.workers[w].task);
  }

  lemma DoCancelStream(c: Config, ls: seq<Label>, s: System, w: nat) returns (ls': seq<Label>, s': System)
    requires Reaches(c, ls, s) && w in s.workers && s.workers[w].Streaming?
    ensures Reaches(c, ls', s')
    ensures var Streaming(t, h) := s.workers[w];
            && s'.workers == s.workers[w := Leaving(h, true)]
            && s'.store == SetRecord(s.store, t.(status := Interrupted))
            && s'.queue == s.queue && s'.handlers == s.handlers && s'.locks == s.locks
            && s'.now == s.now && s'.nextToken == s.nextToken
  {
    ls', s' := Go(c, ls, s, Cancel(w));
  }

  lemma DoRecover(c: Config, ls: seq<Label>, s: System, order: seq<TaskId>)
    returns (ls': seq<Label>, s': System)
    requires Reaches(c, ls, s) && CanRecover(s, order) && s.queue == []
    ensures Reaches(c, ls', s')
    ensures s'.store == RecoveredStore(s.store) && s'.queue == Payloads(s.store, order)
    ensures s'.workers == (map w | w in s.workers :: Idle)
    ensures s'.handlers == s.handlers && s'.locks == s.locks && s'.now == s.now
  {
    ls', s' := Go(c, ls, s, Recover(order));
  }

  const HALTED: Task := Begun(Job(FIRST)).(status := Interrupted)

  // ---- both tasks queued by a recovery ---------------------------------------

  /** The first task was cancelled in mid-stream and its worker is gone. */
  predicate FirstHalted(s: System) {
    && s.now == 0.0 && s.queue == [] && s.handlers == map[] && s.locks == map[]
    && s.store.digests == map[] && s.store.records == map[FIRST := HALTED]
    && s.workers == map[0 := Stopped, 1 := Idle]
  }

  predicate FirstLocked(c: Config, s: System) {
    && s.now == 0.0 && s.nextToken == 1 && s.queue == [] && s.handlers == map[]
    && s.store.digests == map[] && s.store.records == map[FIRST := Job(FIRST)]
    && s.workers == map[0 := Locked(Job(FIRST), Hold(PROJECT, 0, 0.0, true)), 1 := Idle]
    && s.locks == map[PROJECT := Lease(0, c.ttl)]
  }

  predicate BothQueued(s: System) {
    && s.now == 0.0 && s.queue == [HALTED, Job(SECOND)] && s.locks == map[]
    && s.store.records == map[FIRST := HALTED, SECOND := Job(SECOND)]
    && s.workers == map[0 := Idle, 1 := Idle]
  }

  lemma ReachFirstQueued(c: Config) returns (ls: seq<Label>, s: System)
    ensures Reaches(c, ls, s)
    ensures s.now == 0.0 && s.nextToken == 0 && s.queue == [Job(FIRST)] && s.handlers == map[] && s.locks == map[]
    ensures s.store.digests == map[] && s.store.records == map[FIRST := Job(FIRST)]
    ensures s.workers == map[0 := Idle, 1 := Idle]
  {
    ls, s := Go(c, [], Start0(), Create(FIRST, PROJECT, "", "", ""));
    assert s.handlers == map[FIRST := Job(FIRST)];
    ls, s := Go(c, ls, s, EnqueueNew(FIRST));
  }

  lemma ReachFirstGot(c: Config) returns (ls: seq<Label>, s: System)
    ensures Reaches(c, ls, s)
    ensures s.now == 0.0 && s.nextToken == 0 && s.queue == [] && s.handlers == map[] && s.locks == map[]
    ensures s.store.digests == map[] && s.store.records == map[FIRST := Job(FIRST)]
    ensures s.workers == map[0 := Got(Job(FIRST)), 1 := Idle]
  {
    ls, s := ReachFirstQueued(c);
    ls, s := Go(c, ls, s, Dequeue(0));
  }

  lemma ReachFirstLocked(c: Config) returns (ls: seq<Label>, s: System)
    requires Sane(c)
    ensures Reaches(c, ls, s) && FirstLocked(c, s)
  {
    ls, s := ReachFirstGot(c);
    ls, s := Go(c, ls, s, Acquire(0));
  }

  lemma ReachStreaming(c: Config) returns (ls: seq<Label>, s: System)
    requires Sane(c)
    ensures Reaches(c, ls, s)
    ensures s.now == 0.0 && s.queue == [] && s.handlers == map[]
    ensures s.store.digests == map[] && s.store.records == map[FIRST := Begun(Job(FIRST))]
    ensures s.workers == map[0 := Streaming(Begun(Job(FIRST)), Hold(PROJECT, 0, 0.0, true)), 1 := Idle]
    ensures s.locks == map[PROJECT := Lease(0, c.ttl)]
  {
    ls, s := ReachFirstLocked(c);
    ls, s := DoStart(c, ls, s, 0);
  }

  lemma ReachCancelled(c: Config) returns (ls: seq<Label>, s: System)
    requires Sane(c)
    ensures Reaches(c, ls, s)
    ensures s.now == 0.0 && s.queue == [] && s.handlers == map[]
    ensures s.store.digests == map[] && s.store.records == map[FIRST := HALTED]
    ensures s.workers == map[0 := Leaving(Hold(PROJECT, 0, 0.0, true), true), 1 := Idle]
    ensures s.locks == map[PROJECT := Lease(0, c.ttl)]
  {
    ls, s := ReachStreaming(c);
    ls, s := DoCancelStream(c, ls, s, 0);
  }

  lemma ReachFirstHalted(c: Config) returns (ls: seq<Label>, s: System)
    requires Sane(c)
    ensures Reaches(c, ls, s) && FirstHalted(s)
  {
    ls, s := ReachCancelled(c);
    ls, s := DoLeave(c, Start0(), ls, s, 0);
  }

  /** A restart has queued the interrupted task again. */
  lemma ReachRecovered(c: Config) returns (ls: seq<Label>, s: System)
    requires Sane(c)
    ensures Reaches(c, ls, s)
    ensures s.now == 0.0 && s.queue == [HALTED] && s.handlers == map[] && s.locks == map[]
    ensures s.store.digests == map[] && s.store.records == map[FIRST := HALTED]
    ensures s.workers == map[0 := Idle, 1 := Idle]
  {
    ls, s := ReachFirstHalted(c);
    ls, s := Go(c, ls, s, Cancel(1));
    PayloadOfOne(s.store);
    ls, s := DoRecover(c, ls, s, [FIRST]);
  }

  lemma PayloadOfOne(s: Store)
    requires s.records == map[FIRST := HALTED]
    ensures Enumerates([FIRST], s) && Payloads(s, [FIRST]) == [HALTED]
    ensures RecoveredStore(s).records == s.records
  {
    assert [FIRST][0] == FIRST && forall id :: id in [FIRST] <==> id == FIRST;
    assert Payloads(s, [FIRST]) == [HALTED] + Payloads(s, [FIRST][1..]);
  }

  lemma ReachBothQueued(c: Config) returns (ls: seq<Label>, s: System)
    requires Sane(c)
    ensures Reaches(c, ls, s) && BothQueued(s)
  {
    ls, s := ReachRecovered(c);
    ls, s := Go(c, ls, s, Create(SECOND, PROJECT, "", "", ""));
    assert s.handlers == map[SECOND := Job(SECOND)];
    ls, s := Go(c, ls, s, EnqueueNew(SECOND));
  }

  /** Worker 0 has the lock for the first task; worker 1 is about to ask for it for the second. */
  predicate BothTaken(c: Config, s: System, token: Token) {
    && s.now == 0.0
    && s.store.records == map[FIRST := HALTED, SECOND := Job(SECOND)]
    && s.locks == map[PROJECT := Lease(token, c.ttl)]
    && s.workers == map[0 := Locked(HALTED, Hold(PROJECT, token, 0.0, true)), 1 := Got(Job(SECOND))]
  }

  lemma ReachBothGot(c: Config) returns (ls: seq<Label>, s: System)
    requires Sane(c)
    ensures Reaches(c, ls, s) && s.now == 0.0 && s.locks == map[]
    ensures s.store.records == map[FIRST := HALTED, SECOND := Job(SECOND)]
    ensures s.workers == map[0 := Got(HALTED), 1 := Got(Job(SECOND))]
  {
    ls, s := ReachBothQueued(c);
    ls, s := Go(c, ls, s, Dequeue(0));
    ls, s := Go(c, ls, s, Dequeue(1));
  }

  lemma ReachBothTaken(c: Config) returns (ls: seq<Label>, s: System, token: Token)
    requires Sane(c)
    ensures Reaches(c, ls, s) && BothTaken(c, s, token)
  {
    ls, s := ReachBothGot(c);
    token := s.nextToken;
    ls, s := Go(c, ls, s, Acquire(0));
  }

  // ---- the two collisions ----------------------------------------------------

  /** Two workers stream tasks of one project, and both tasks are stored as RUNNING. */
  predicate TwoRunners(s: System) {
    && s.workers.Keys == {0, 1} && s.workers[0].Streaming? && s.workers[1].Streaming?
    && s.workers[0].hold.project == s.workers[1].hold.project
    && RunningHere(s, FIRST) && RunningHere(s, SECOND)
    && s.store.records[FIRST].project == s.store.records[SECOND].project
  }

  /** At `now`, worker 0 streams the first task and worker 1 still asks for the lock. */
  predicate SlowStream(c: Config, s: System, token: Token, now: real) {
    && s.now == now && s.locks == map[PROJECT := Lease(token, c.ttl)]
    && s.workers == map[0 := Streaming(Begun(HALTED), Hold(PROJECT, token, 0.0, true)), 1 := Got(Job(SECOND))]
    && s.store.records == map[FIRST := Begun(HALTED), SECOND := Job(SECOND)]
    && FIRST in s.place && s.place[FIRST] == InHand(0)
  }

  lemma ReachSlowStream(c: Config) returns (ls: seq<Label>, s: System, token: Token)
    requires Sane(c)
    ensures Reaches(c, ls, s) && SlowStream(c, s, token, 0.0)
  {
    ls, s, token := ReachBothTaken(c);
    ls, s := DoStart(c, ls, s, 0);
  }

  lemma ReachLateStream(c: Config) returns (ls: seq<Label>, s: System, token: Token)
    requires Sane(c)
    ensures Reaches(c, ls, s) && SlowStream(c, s, token, c.heartbeat + c.delay)
  {
    ls, s, token := ReachSlowStream(c);
    ls, s := Go(c, ls, s, Tick(c.heartbeat + c.delay));
  }

  lemma ReachSecondLocked(c: Config) returns (ls: seq<Label>, s: System)
    requires Sane(c) && !HeartbeatsFast(c)
    ensures Reaches(c, ls, s) && s.workers.Keys == {0, 1}
    ensures s.workers[0].Streaming? && s.workers[0].hold.project == PROJECT
    ensures s.workers[1].Locked? && s.workers[1].hold.project == PROJECT && s.workers[1].task == Job(SECOND)
    ensures s.store.records == map[FIRST := Begun(HALTED), SECOND := Job(SECOND)]
    ensures FIRST in s.place && s.place[FIRST] == InHand(0)
  {
    var token;
    ls, s, token := ReachLateStream(c);
    ls, s := Go(c, ls, s, Acquire(1));
  }

  /** A heartbeat may come as late as interval + delay; by then the lease has run out. */
  lemma SlowHeartbeatsCollide(c: Config) returns (ls: seq<Label>, s: System)
    requires Sane(c) && !HeartbeatsFast(c)
    ensures Reaches(c, ls, s) && TwoRunners(s)
  {
    ls, s := ReachSecondLocked(c);
    ls, s := DoStart(c, ls, s, 1);
  }

  lemma ReachSlowFailure(c: Config) returns (ls: seq<Label>, s: System, token: Token)
    requires Sane(c)
    ensures Reaches(c, ls, s) && s.now == 0.0 && s.locks == map[PROJECT := Lease(token, c.ttl)]
    ensures s.workers == map[0 := Leaving(Hold(PROJECT, token, 0.0, true), false), 1 := Got(Job(SECOND))]
  {
    ls, s, token := ReachBothTaken(c);
    ls, s := Go(c, ls, s, EngineFail(0));
  }

  lemma WaitLong(c: Config) returns (ls: seq<Label>, s: System, token: Token)
    requires Sane(c)
    ensures Reaches(c, ls, s) && s.now == c.heartbeat + c.delay && s.locks == map[PROJECT := Lease(token, c.ttl)]
    ensures s.workers == map[0 := Releasing(Hold(PROJECT, token, 0.0, true), s.now, false), 1 := Got(Job(SECOND))]
  {
    ls, s, token := ReachSlowFailure(c);
    ls, s := Go(c, ls, s, Tick(c.heartbeat + c.delay));
    ls, s := Go(c, ls, s, StopHeartbeat(0));
  }

  lemma SlowReleasesCollide(c: Config) returns (ls: seq<Label>, s: System)
    requires Sane(c) && !ReleasesFast(c)
    ensures Reaches(c, ls, s) && !HoldingExclusive(s)
  {
    var token;
    ls, s, token := WaitLong(c);
    ls, s := Go(c, ls, s, Tick(c.releaseDelay));
    ls, s := Go(c, ls, s, Acquire(1));
    assert Holding(s.workers[0]) && Holding(s.workers[1]);
    assert s.workers[0].hold.project == s.workers[1].hold.project;
  }

  // ---- an abandoned stream ---------------------------------------------------

  lemma ReachLeft(c: Config) returns (ls: seq<Label>, s: System, token: Token)
    requires Sane(c)
    ensures Reaches(c, ls, s) && s.now == 0.0 && s.locks == map[PROJECT := Lease(token, c.ttl)]
    ensures s.store.records == map[FIRST := Begun(HALTED), SECOND := Job(SECOND)]
    ensures s.workers == map[0 := Leaving(Hold(PROJECT, token, 0.0, true), true), 1 := Got(Job(SECOND))]
  {
    ls, s, token := ReachSlowStream(c);
    ls, s := Go(c, ls, s, Abandon(0));
  }

  lemma ReachAbandoned(c: Config) returns (ls: seq<Label>, s: System)
    requires Sane(c)
    ensures Reaches(c, ls, s) && s.now == 0.0 && s.locks == map[]
    ensures s.store.records == map[FIRST := Begun(HALTED), SECOND := Job(SECOND)]
    ensures s.workers == map[0 := Stopped, 1 := Got(Job(SECOND))]
  {
    var token;
    ls, s, token := ReachLeft(c);
    ls, s := DoLeave(c, Start0(), ls, s, 0);
  }

  lemma ReachTakenOver(c: Config) returns (ls: seq<Label>, s: System)
    requires Sane(c)
    ensures Reaches(c, ls, s)
    ensures 1 in s.workers && s.workers[1].Locked? && s.workers[1].task == Job(SECOND)
    ensures s.store.records == map[FIRST := Begun(HALTED), SECOND := Job(SECOND)]
  {
    ls, s := ReachAbandoned(c);
    ls, s := Go(c, ls, s, Acquire(1));
  }

  /**
   * However generous the timing: a stream abandoned between its retriable failure and the
   * record of it leaves two RUNNING records of one project, though nothing crashed.
   */
  lemma AbandonedStreamsCollide(c: Config) returns (ls: seq<Label>, s: System)
    requires Sane(c)
    ensures Reaches(c, ls, s)
    ensures RunningIn(s, FIRST) && RunningIn(s, SECOND)
    ensures s.store.records[FIRST].project == s.store.records[SECOND].project
  {
    ls, s := ReachTakenOver(c);
    ls, s := DoStart(c, ls, s, 1);
  }

  // ---- the exact conditions --------------------------------------------------

  ghost predicate AlwaysOneRunner(c: Config) {
    forall workers: set<nat>, ls: seq<Label> | OrderlyRun(c, Init(workers), ls) ::
      CanRun(c, Init(workers), ls) && OneRunner(Run(c, Init(workers), ls))
  }

  ghost predicate AlwaysBeatingExclusive(c: Config) {
    forall workers: set<nat>, ls: seq<Label> | CanRun(c, Init(workers), ls) ::
      BeatingExclusive(Run(c, Init(workers), ls))
  }

  ghost predicate AlwaysHoldingExclusive(c: Config) {
    forall workers: set<nat>, ls: seq<Label> | CanRun(c, Init(workers), ls) ::
      HoldingExclusive(Run(c, Init(workers), ls))
  }

  /**
   * The settings under which exclusion holds in all runs, exactly. One RUNNING task per
   * project, and one worker per project under a heartbeat: iff interval + delay < TTL.
   * One worker per project from acquire to release: iff also the release delay fits in.
   */
  lemma ExclusionIffTimely(c: Config)
    requires Sane(c)
    ensures AlwaysOneRunner(c) <==> c.heartbeat + c.delay < c.ttl
    ensures AlwaysBeatingExclusive(c) <==> c.heartbeat + c.delay < c.ttl
    ensures AlwaysHoldingExclusive(c) <==> c.heartbeat + c.delay + c.releaseDelay < c.ttl
  {
    if HeartbeatsFast(c) {
      TimelyExcludes(c);
    } else {
      var ls, s := SlowHeartbeatsCollide(c);
      assert OrderlyRun(c, Init({0, 1}), ls) && CanRun(c, Init({0, 1}), ls);
      assert Beats(s.workers[0]) && Beats(s.workers[1]);
      assert !OneRunner(s) && !BeatingExclusive(s);
    }
    if !ReleasesFast(c) {
      var ls, s := SlowReleasesCollide(c);
      assert CanRun(c, Init({0, 1}), ls);
    }
  }

  lemma TimelyExcludes(c: Config)
    requires Sane(c) && HeartbeatsFast(c)
    ensures AlwaysOneRunner(c) && AlwaysBeatingExclusive(c)
    ensures ReleasesFast(c) ==> AlwaysHoldingExclusive(c)
  {
    forall workers: set<nat>, ls: seq<Label> | CanRun(c, Init(workers), ls)
      ensures BeatingExclusive(Run(c, Init(workers), ls))
      ensures ReleasesFast(c) ==> HoldingExclusive(Run(c, Init(workers), ls))
    {
      MutualExclusion(c, workers, ls);
    }
    forall workers: set<nat>, ls: seq<Label> | OrderlyRun(c, Init(workers), ls)
      ensures CanRun(c, Init(workers), ls) && OneRunner(Run(c, Init(workers), ls))
    {
      OneRunningPerProject(c, workers, ls);
    }
  }
}
