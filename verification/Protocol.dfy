/**
 * The task protocol as a labelled transition system. Any number of API handlers and a fixed
 * set of workers share the store, the queue and the timed locks; a label is one step of one
 * of them, at the granularity of one store, queue or lock operation.
 */
module Protocol {
  import opened Wrappers
  import opened Tasks
  import opened Stores
  import opened Locks
  import opened Scheduling
  import opened Recovery

  /** Settings, and the two bounds the timing results depend on. */
  datatype Config = Config(
    maxRetries: int,
    ttl: real,
    heartbeat: real,
    delay: real,         // how late a due heartbeat may reach Redis
    releaseDelay: real)  // how long a release may take once the heartbeat is cancelled

  predicate Sane(c: Config) {
    0.0 < c.ttl && 0.0 <= c.heartbeat && 0.0 <= c.delay && 0.0 <= c.releaseDelay
  }

  /** A worker's belief about its lock: its token and when Redis last confirmed it. */
  datatype Hold = Hold(project: string, token: Token, refreshed: real, beating: bool)

  datatype Worker =
    | Idle
    | Got(task: Task)                  // dequeued
    | Refused(task: Task)              // the project was locked; about to re-queue
    | Locked(task: Task, hold: Hold)   // lock acquired, not started
    | Streaming(task: Task, hold: Hold)
    | Retrying(task: Task, hold: Hold) // stored as INTERRUPTED, about to re-queue
    | Leaving(hold: Hold, stop: bool)  // task dealt with, heartbeat not yet cancelled
    | Releasing(hold: Hold, since: real, stop: bool)
    | Stopped

  /** Auxiliary: where the one carrier of an unfinished task is. */
  datatype Place = AtHandler | InQueue | InHand(worker: nat) | Stranded

  datatype System = System(
    now: real,
    nextToken: Token,
    store: Store,
    queue: seq<Task>,
    locks: Table,
    workers: map<nat, Worker>,
    handlers: map<TaskId, Task>,  // API handlers between save and enqueue
    place: map<TaskId, Place>,
    attempts: map<TaskId, nat>,   // how often a task entered RUNNING
    recoveries: map<TaskId, nat>) // how often recovery re-queued it

  datatype Outcome = Completed | Fatal | Retriable | Cancelled | Unexpected

  datatype Label =
    | Create(id: TaskId, project: string, requirement: string, workDir: string, configJson: string)
    | EnqueueNew(id: TaskId)
    | Dequeue(w: nat)
    | Acquire(w: nat)
    | Requeue(w: nat)
    | EngineFail(w: nat)
    | Start(w: nat, probe: Probe)
    | Finish(w: nat, outcome: Outcome)
    | RetryEnqueue(w: nat)
    | StopHeartbeat(w: nat)
    | Release(w: nat)
    | Refresh(w: nat)
    | Tick(d: real)
    | Cancel(w: nat)
    | Abandon(w: nat) // a cancellation at an await after which nothing tidies up
    | Crash(w: nat)
    | CrashHandler(id: TaskId)
    | LoseQueue(kept: set<TaskId>) // Redis loses all queue entries but these
    | Recover(order: seq<TaskId>)

  // ---- workers ---------------------------------------------------------------

  function Carried(a: Worker): Option<Task> {
    match a
    case Got(t) => Some(t)
    case Refused(t) => Some(t)
    case Locked(t, _) => Some(t)
    case Streaming(t, _) => Some(t)
    case Retrying(t, _) => Some(t)
    case _ => None
  }

  /** The heartbeat coroutine exists. */
  predicate Beats(a: Worker) {
    a.Locked? || a.Streaming? || a.Retrying? || a.Leaving?
  }

  /** Between a successful acquire and the release. */
  predicate Holding(a: Worker) {
    Beats(a) || a.Releasing?
  }

  predicate InTime(c: Config, a: Worker, time: real) {
    && (Beats(a) && a.hold.beating ==> time <= a.hold.refreshed + c.heartbeat + c.delay)
    && (a.Releasing? ==> time <= a.since + c.releaseDelay)
  }

  /** No retries are left over from a negative setting. */
  function RetryLimit(maxRetries: int): nat {
    if maxRetries < 0 then 0 else maxRetries
  }

  /** How a RUNNING task leaves the stream, retry rule included. */
  function AfterStream(maxRetries: int, t: Task, outcome: Outcome): Task {
    match outcome
    case Completed => t.(status := Success)
    case Cancelled => t.(status := Interrupted)
    case Retriable =>
      if t.retryCount < maxRetries then t.(status := Interrupted, retryCount := t.retryCount + 1)
      else t.(status := Failed)
    case _ => t.(status := Failed)
  }

  /** How a locked task starts: with the decided mode, or failed when the scheduler refuses. */
  function Started(t: Task, probe: Probe): Task {
    match Decide(t.requirement, probe)
    case Some(mode) => t.(mode := mode, status := Status.Running)
    case None => t.(status := Failed)
  }

  // ---- effects ---------------------------------------------------------------

  function Count(m: map<TaskId, nat>, id: TaskId): nat {
    if id in m then m[id] else 0
  }

  /** Worker `w` stores `t` and becomes `a`. */
  function Write(s: System, w: nat, t: Task, a: Worker): System {
    s.(store := Updated(s.store, t),
       workers := s.workers[w := a],
       place := if t.IsTerminal() then s.place - {t.id}
                else s.place[t.id := if Carried(a) == Some(t) then InHand(w) else Stranded],
       attempts := if t.status.Running? then s.attempts[t.id := Count(s.attempts, t.id) + 1] else s.attempts)
  }

  /** Worker `w` pushes `t` and becomes `a`. */
  function Push(s: System, w: nat, t: Task, a: Worker): System {
    s.(queue := s.queue + [t], workers := s.workers[w := a], place := s.place[t.id := InQueue])
  }

  /** Worker `w` becomes `a` and loses what it carried. */
  function Drop(s: System, w: nat, a: Worker): System
    requires w in s.workers
  {
    s.(workers := s.workers[w := a],
       place := match Carried(s.workers[w])
                case Some(t) => s.place[t.id := Stranded]
                case None => s.place)
  }

  function WithHold(a: Worker, h: Hold): Worker
    requires Beats(a)
  {
    match a
    case Locked(t, _) => Locked(t, h)
    case Streaming(t, _) => Streaming(t, h)
    case Retrying(t, _) => Retrying(t, h)
    case Leaving(_, stop) => Leaving(h, stop)
  }

  function FinishStep(c: Config, s: System, w: nat, outcome: Outcome): System
    requires w in s.workers && s.workers[w].Streaming?
  {
    var Streaming(t, h) := s.workers[w];
    var t' := AfterStream(c.maxRetries, t, outcome);
    Write(s, w, t', if outcome.Retriable? && !t'.IsTerminal() then Retrying(t', h) else Leaving(h, outcome.Cancelled?))
  }

  /** SET NX EX with a fresh token. */
  function Asked(c: Config, s: System, project: string): System {
    s.(nextToken := s.nextToken + 1, locks := Acquired(s.locks, project, s.nextToken, c.ttl, s.now))
  }

  function AcquireStep(c: Config, s: System, w: nat): System
    requires w in s.workers && s.workers[w].Got?
  {
    var t := s.workers[w].task;
    var token := s.nextToken;
    Asked(c, s, t.project).(
       workers := s.workers[w := if Live(s.locks, t.project, s.now) then Refused(t)
                                 else Locked(t, Hold(t.project, token, s.now, true))])
  }

  function RefreshStep(c: Config, s: System, w: nat): System
    requires w in s.workers && Beats(s.workers[w])
  {
    var h := s.workers[w].hold;
    var held := Owned(s.locks, h.project, h.token, s.now);
    s.(locks := Refreshed(s.locks, h.project, h.token, c.ttl, s.now),
       workers := s.workers[w := WithHold(s.workers[w],
                                          if held then h.(refreshed := s.now) else h.(beating := false))])
  }

  function CancelStep(c: Config, s: System, w: nat): System
    requires w in s.workers
  {
    match s.workers[w]
    case Streaming(_, _) => FinishStep(c, s, w, Cancelled)
    case Locked(_, h) => Drop(s, w, Leaving(h, true))
    case Retrying(_, h) => Drop(s, w, Leaving(h, true))
    case Leaving(h, _) => Drop(s, w, Leaving(h, true))
    case Releasing(h, since, _) => Drop(s, w, Releasing(h, since, true))
    case _ => Drop(s, w, Stopped)
  }

  /**
   * Cancelled at one of three awaits: the lock was set but its answer never read; the stream
   * failed in a retriable way and its record is still RUNNING; the release was not sent. (A
   * cancellation that arrives while the heartbeat is awaited is swallowed and changes nothing.)
   */
  function AbandonStep(c: Config, s: System, w: nat): System
    requires w in s.workers
  {
    match s.workers[w]
    case Got(t) => Drop(Asked(c, s, t.project), w, Stopped)
    case Streaming(_, h) => Drop(s, w, Leaving(h, true))
    case _ => Drop(s, w, Stopped)
  }

  function CreateStep(s: System, t: Task): System {
    s.(store := SaveNew(s.store, t),
       handlers := s.handlers[t.id := t],
       place := s.place[t.id := AtHandler],
       attempts := s.attempts[t.id := 0],
       recoveries := s.recoveries[t.id := 0])
  }

  function Surviving(q: seq<Task>, kept: set<TaskId>): seq<Task> {
    if q == [] then [] else (if q[0].id in kept then [q[0]] else []) + Surviving(q[1..], kept)
  }

  function LoseStep(s: System, kept: set<TaskId>): System {
    s.(queue := Surviving(s.queue, kept),
       place := map id | id in s.place :: if s.place[id].InQueue? && id !in kept then Stranded else s.place[id])
  }

  function RecoverStep(s: System, order: seq<TaskId>): System {
    s.(store := RecoveredStore(s.store),
       queue := s.queue + Payloads(s.store, order),
       workers := map w | w in s.workers :: Idle,
       place := map id | id in s.place :: InQueue,
       recoveries := map id | id in s.recoveries ::
         s.recoveries[id] + if Active(s.store, id) then 1 else 0)
  }

  // ---- steps -----------------------------------------------------------------

  predicate At(s: System, w: nat) {
    w in s.workers
  }

  /** Recovery runs at startup, when no handler and no worker is left of the last run. */
  ghost predicate CanRecover(s: System, order: seq<TaskId>) {
    s.handlers == map[] && (forall w | At(s, w) :: s.workers[w].Stopped?) && Enumerates(order, s.store)
  }

  ghost predicate Enabled(c: Config, s: System, l: Label) {
    match l
    case Create(id, p, r, _, _) =>
      id !in s.store.records && !HasIncomplete(s.store, p) && FindByDigest(s.store, p, r).None?
    case EnqueueNew(id) => id in s.handlers
    case Dequeue(w) => At(s, w) && s.workers[w].Idle? && s.queue != []
    case Acquire(w) => At(s, w) && s.workers[w].Got?
    case Requeue(w) => At(s, w) && s.workers[w].Refused?
    case EngineFail(w) => At(s, w) && s.workers[w].Locked?
    case Start(w, _) => At(s, w) && s.workers[w].Locked?
    case Finish(w, _) => At(s, w) && s.workers[w].Streaming?
    case RetryEnqueue(w) => At(s, w) && s.workers[w].Retrying?
    case StopHeartbeat(w) => At(s, w) && s.workers[w].Leaving?
    case Release(w) => At(s, w) && s.workers[w].Releasing?
    case Refresh(w) =>
      && At(s, w) && Beats(s.workers[w]) && s.workers[w].hold.beating
      && s.workers[w].hold.refreshed + c.heartbeat <= s.now
    case Tick(d) => 0.0 <= d && forall w | At(s, w) :: InTime(c, s.workers[w], s.now + d)
    case Cancel(w) => At(s, w) && !s.workers[w].Stopped?
    case Abandon(w) => At(s, w) && (s.workers[w].Got? || s.workers[w].Streaming? || s.workers[w].Releasing?)
    case Crash(w) => At(s, w) && !s.workers[w].Stopped?
    case CrashHandler(id) => id in s.handlers
    case LoseQueue(_) => true
    case Recover(order) => CanRecover(s, order)
  }

  function Next(c: Config, s: System, l: Label): System
    requires Enabled(c, s, l)
  {
    match l
    case Create(id, p, r, wd, cj) => CreateStep(s, Fresh(id, p, r, wd, cj))
    case EnqueueNew(id) =>
      s.(queue := s.queue + [s.handlers[id]], handlers := s.handlers - {id}, place := s.place[id := InQueue])
    case Dequeue(w) =>
      s.(queue := s.queue[1..],
         workers := s.workers[w := Got(s.queue[0])],
         place := s.place[s.queue[0].id := InHand(w)])
    case Acquire(w) => AcquireStep(c, s, w)
    case Requeue(w) => Push(s, w, s.workers[w].task, Idle)
    case EngineFail(w) => Write(s, w, s.workers[w].task.(status := Failed), Leaving(s.workers[w].hold, false))
    case Start(w, probe) =>
      var Locked(t, h) := s.workers[w];
      var t' := Started(t, probe);
      Write(s, w, t', if t'.IsTerminal() then Leaving(h, false) else Streaming(t', h))
    case Finish(w, outcome) => FinishStep(c, s, w, outcome)
    case RetryEnqueue(w) => Push(s, w, s.workers[w].task, Leaving(s.workers[w].hold, false))
    case StopHeartbeat(w) =>
      s.(workers := s.workers[w := Releasing(s.workers[w].hold, s.now, s.workers[w].stop)])
    case Release(w) =>
      var h := s.workers[w].hold;
      s.(locks := Released(s.locks, h.project, h.token, s.now),
         workers := s.workers[w := if s.workers[w].stop then Stopped else Idle])
    case Refresh(w) => RefreshStep(c, s, w)
    case Tick(d) => s.(now := s.now + d)
    case Cancel(w) => CancelStep(c, s, w)
    case Abandon(w) => AbandonStep(c, s, w)
    case Crash(w) => Drop(s, w, Stopped)
    case CrashHandler(id) => s.(handlers := s.handlers - {id}, place := s.place[id := Stranded])
    case LoseQueue(kept) => LoseStep(s, kept)
    case Recover(order) => RecoverStep(s, order)
  }

  function Init(workers: set<nat>): System {
    System(0.0, 0, EMPTY, [], map[], map w | w in workers :: Idle, map[], map[], map[], map[])
  }

  predicate RunningIn(s: System, id: TaskId) {
    id in s.store.records && s.store.records[id].status.Running?
  }

  // ---- runs ------------------------------------------------------------------

  ghost predicate CanRun(c: Config, s: System, ls: seq<Label>)
    decreases |ls|
  {
    ls == [] || (Enabled(c, s, ls[0]) && CanRun(c, Next(c, s, ls[0]), ls[1..]))
  }

  ghost function Run(c: Config, s: System, ls: seq<Label>): System
    requires CanRun(c, s, ls)
    decreases |ls|
  {
    if ls == [] then s else Run(c, Next(c, s, ls[0]), ls[1..])
  }

  /** A recovery that starts from an empty queue, drained or lost, as the README assumes of a restart. */
  predicate QueueLost(s: System, l: Label) {
    l.Recover? ==> s.queue == []
  }

  /** A run in which every recovery finds the queue empty. What was in it may have been lost before. */
  ghost predicate OrderlyRun(c: Config, s: System, ls: seq<Label>)
    decreases |ls|
  {
    || ls == []
    || (&& Enabled(c, s, ls[0])
        && QueueLost(s, ls[0])
        && OrderlyRun(c, Next(c, s, ls[0]), ls[1..]))
  }

  lemma {:induction false} OrderlyRunsRun(c: Config, s: System, ls: seq<Label>)
    requires OrderlyRun(c, s, ls)
    ensures CanRun(c, s, ls)
    decreases |ls|
  {
    if ls != [] {
      OrderlyRunsRun(c, Next(c, s, ls[0]), ls[1..]);
    }
  }

  /** `ls` is a run from `s` to `t`. */
  ghost predicate Leads(c: Config, s: System, ls: seq<Label>, t: System) {
    CanRun(c, s, ls) && Run(c, s, ls) == t
  }

  lemma {:induction false} Extend(c: Config, s: System, ls: seq<Label>, t: System, l: Label)
    requires Leads(c, s, ls, t) && Enabled(c, t, l)
    ensures Leads(c, s, ls + [l], Next(c, t, l))
    ensures OrderlyRun(c, s, ls) && QueueLost(t, l) ==> OrderlyRun(c, s, ls + [l])
    decreases |ls|
  {
    if ls == [] {
      assert [l][1..] == [];
    } else {
      Extend(c, Next(c, s, ls[0]), ls[1..], t, l);
      assert (ls + [l])[1..] == ls[1..] + [l];
    }
  }

  /** Takes one more step at the end of a run. */
  lemma Do(c: Config, s0: System, ls: seq<Label>, s: System, l: Label) returns (ls': seq<Label>, s': System)
    requires Leads(c, s0, ls, s) && Enabled(c, s, l)
    ensures ls' == ls + [l] && s' == Next(c, s, l) && Leads(c, s0, ls', s')
    ensures OrderlyRun(c, s0, ls) && QueueLost(s, l) ==> OrderlyRun(c, s0, ls')
  {
    Extend(c, s0, ls, s, l);
    ls', s' := ls + [l], Next(c, s, l);
  }

  /** Worker `w`, whose task is dealt with, has given its lock back. */
  function Left(s: System, w: nat): System
    requires w in s.workers && s.workers[w].Leaving?
  {
    var Leaving(h, stop) := s.workers[w];
    s.(locks := Released(s.locks, h.project, h.token, s.now),
       workers := s.workers[w := if stop then Stopped else Idle])
  }

  lemma DoLeave(c: Config, s0: System, ls: seq<Label>, s: System, w: nat) returns (ls': seq<Label>, s': System)
    requires Leads(c, s0, ls, s) && w in s.workers && s.workers[w].Leaving?
    ensures ls' == ls + [StopHeartbeat(w)] + [Release(w)] && Leads(c, s0, ls', s')
    ensures OrderlyRun(c, s0, ls) ==> OrderlyRun(c, s0, ls')
    ensures s' == Left(s, w)
  {
    ls', s' := Do(c, s0, ls, s, StopHeartbeat(w));
    ls', s' := Do(c, s0, ls', s', Release(w));
    assert s'.workers == Left(s, w).workers;
  }

  lemma RunPrepend(c: Config, s: System, l: Label, ls: seq<Label>)
    requires Enabled(c, s, l) && CanRun(c, Next(c, s, l), ls)
    ensures CanRun(c, s, [l] + ls) && Run(c, s, [l] + ls) == Run(c, Next(c, s, l), ls)
  {
    assert ([l] + ls)[0] == l && ([l] + ls)[1..] == ls;
  }

  lemma RunOfOne(c: Config, s: System, l: Label)
    requires Enabled(c, s, l)
    ensures CanRun(c, s, [l]) && Run(c, s, [l]) == Next(c, s, l)
  {
    RunPrepend(c, s, l, []);
    assert [l] + [] == [l];
  }

  lemma ConcatAssociates(a: seq<Label>, b: seq<Label>, d: seq<Label>)
    ensures a + (b + d) == a + b + d
  {}

  lemma {:induction false} RunConcat(c: Config, s: System, ls: seq<Label>, ms: seq<Label>)
    requires CanRun(c, s, ls) && CanRun(c, Run(c, s, ls), ms)
    ensures CanRun(c, s, ls + ms) && Run(c, s, ls + ms) == Run(c, Run(c, s, ls), ms)
    decreases |ls|
  {
    if ls == [] {
      assert ls + ms == ms;
    } else {
      var s' := Next(c, s, ls[0]);
      assert Run(c, s, ls) == Run(c, s', ls[1..]);
      RunConcat(c, s', ls[1..], ms);
      RunPrepend(c, s, ls[0], ls[1..] + ms);
      ConcatAssociates([ls[0]], ls[1..], ms);
      assert ls == [ls[0]] + ls[1..];
    }
  }
}
