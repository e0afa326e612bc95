/**
 * The worker: executing one dequeued task under the project lock, retrying it, and the loop
 * that drains the queue. The outside world (engine, scheduler checks, stream, clock) is an
 * oracle, one `Env` per execution.
 */
module Workers {
  import opened Wrappers
  import opened Tasks
  import opened Stores
  import opened Queues
  import opened Locks
  import opened Scheduling
  import opened Recovery
  import opened Events
  import opened Protocol
  import opened Conservation
  import opened Dedup

  datatype Env = Env(
    acquireAt: real,
    engineOk: bool,                      // the factory returned an engine
    probe: Probe,                        // what the scheduler's checks answer
    progress: seq<(string, string)>,     // the events the stream publishes
    outcome: Outcome,                    // how the stream ends
    beats: seq<real>,                    // when the heartbeat refreshes the lock
    releaseAt: real)

  // ---- what one execution does -----------------------------------------------

  /** The stream is reached. */
  predicate Begins(t: Task, env: Env) {
    env.engineOk && Decide(t.requirement, env.probe).Some?
  }

  /** The task as it is finally stored. */
  function Ended(maxRetries: int, t: Task, env: Env): Task {
    if Begins(t, env) then AfterStream(maxRetries, Started(t, env.probe), env.outcome)
    else t.(status := Failed)
  }

  predicate Retries(maxRetries: int, t: Task, env: Env) {
    Begins(t, env) && env.outcome.Retriable? && t.retryCount < maxRetries
  }

  function StoreAfter(s: Store, maxRetries: int, t: Task, env: Env): Store {
    Updated(if Begins(t, env) then Updated(s, Started(t, env.probe)) else s, Ended(maxRetries, t, env))
  }

  function Requeued(maxRetries: int, t: Task, env: Env): seq<Task> {
    if Retries(maxRetries, t, env) then [Ended(maxRetries, t, env)] else []
  }

  /** The records it writes, in order. */
  function Wrote(maxRetries: int, t: Task, env: Env): seq<Task> {
    (if Begins(t, env) then [Started(t, env.probe)] else []) + [Ended(maxRetries, t, env)]
  }

  function Announced(id: TaskId, progress: seq<(string, string)>): seq<Posted> {
    seq(|progress|, i requires 0 <= i < |progress| => Posted(id, Event(progress[i].0, progress[i].1)))
  }

  /** A task that runs out of retries is closed twice, every other one once. */
  function Said(maxRetries: int, t: Task, env: Env): seq<Posted> {
    (if Begins(t, env) then Announced(t.id, env.progress) else [])
    + [Posted(t.id, Done)]
    + (if Begins(t, env) && env.outcome.Retriable? && !Retries(maxRetries, t, env) then [Posted(t.id, Done)] else [])
  }

  // ---- the same, status by status --------------------------------------------

  /** The engine is there, and there is a requirement or a checkpoint to resume from. */
  predicate Starts(t: Task, env: Env) {
    env.engineOk && (t.requirement != "" || env.probe.checkpointExists == Some(true))
  }

  /** The stream failed in a way that may be retried, and retries are left. */
  predicate GoesAgain(maxRetries: int, t: Task, env: Env) {
    Starts(t, env) && env.outcome.Retriable? && t.retryCount < maxRetries
  }

  /** The record `t` of an execution ends as `u`. */
  predicate EndsAs(maxRetries: int, t: Task, u: Task, env: Env) {
    var begun, again := Starts(t, env), GoesAgain(maxRetries, t, env);
    && u.id == t.id && u.project == t.project && u.requirement == t.requirement
    && u.workDir == t.workDir && u.configJson == t.configJson
    && (u.status.Success? <==> begun && env.outcome.Completed?)
    && (u.status.Interrupted? <==> begun && (env.outcome.Cancelled? || again))
    && (u.status.Failed? <==> !u.status.Success? && !u.status.Interrupted?)
    && u.retryCount == t.retryCount + (if again then 1 else 0)
    && (if begun then Tabled(t.requirement, env.probe, Some(u.mode)) else u.mode == t.mode)
  }

  /** `log'` is `log` with the events, in order, and then `dones` DONEs, all on the channel of `id`. */
  predicate Spoke(log: seq<Posted>, log': seq<Posted>, id: TaskId, events: seq<(string, string)>, dones: nat) {
    && |log'| == |log| + |events| + dones
    && (forall i | 0 <= i < |log| :: log'[i] == log[i])
    && (forall i | 0 <= i < |events| :: log'[|log| + i] == Posted(id, Event(events[i].0, events[i].1)))
    && (forall i | |log| + |events| <= i < |log'| :: log'[i] == Posted(id, Done))
  }

  /** Everything an execution promises about the store and its history, the queue and the channel. */
  predicate Promise(
    maxRetries: int, t: Task, u: Task, env: Env, s: Store, s': Store,
    written: seq<Task>, written': seq<Task>, q: seq<Task>, q': seq<Task>, log: seq<Posted>, log': seq<Posted>)
  {
    var begun, again := Starts(t, env), GoesAgain(maxRetries, t, env);
    && EndsAs(maxRetries, t, u, env)
    && s'.records == s.records[t.id := u] && s'.index == s.index
    && s'.digests == (if u.status.Interrupted? || t.requirement == "" then s.digests
                      else s.digests - {t.project + ['\0'] + t.requirement})
    && written' == written + (if begun then [t.(mode := u.mode, status := Running)] else []) + [u]
    && q' == q + (if again then [u] else [])
    && Spoke(log, log', t.id, if begun then env.progress else [],
             if begun && env.outcome.Retriable? && !again then 2 else 1)
  }

  lemma BeginsIs(t: Task, env: Env)
    ensures Begins(t, env) <==> Starts(t, env)
    ensures Begins(t, env) ==> Tabled(t.requirement, env.probe, Some(Started(t, env.probe).mode))
  {
    DecisionTable(t.requirement, env.probe);
  }

  lemma EndedIs(maxRetries: int, t: Task, env: Env)
    ensures EndsAs(maxRetries, t, Ended(maxRetries, t, env), env)
  {
    BeginsIs(t, env);
  }

  lemma SaidIs(maxRetries: int, t: Task, env: Env, log: seq<Posted>)
    ensures Spoke(log, log + Said(maxRetries, t, env), t.id, if Starts(t, env) then env.progress else [],
                  if Starts(t, env) && env.outcome.Retriable? && !GoesAgain(maxRetries, t, env) then 2 else 1)
  {
    BeginsIs(t, env);
  }

  lemma StoreAfterIs(s: Store, maxRetries: int, t: Task, env: Env)
    ensures var u, s' := Ended(maxRetries, t, env), StoreAfter(s, maxRetries, t, env);
            && s'.records == s.records[t.id := u] && s'.index == s.index
            && s'.digests == (if u.status.Interrupted? || t.requirement == "" then s.digests
                              else s.digests - {t.project + ['\0'] + t.requirement})
  {
    EndedIs(maxRetries, t, env);
  }

  lemma PromiseIs(
    maxRetries: int, t: Task, env: Env, s: Store, written: seq<Task>, q: seq<Task>, log: seq<Posted>)
    ensures Promise(maxRetries, t, Ended(maxRetries, t, env), env, s, StoreAfter(s, maxRetries, t, env),
                    written, written + Wrote(maxRetries, t, env), q, q + Requeued(maxRetries, t, env),
                    log, log + Said(maxRetries, t, env))
  {
    BeginsIs(t, env);
    EndedIs(maxRetries, t, env);
    SaidIs(maxRetries, t, env, log);
    StoreAfterIs(s, maxRetries, t, env);
    assert written + [Started(t, env.probe)] + [Ended(maxRetries, t, env)]
           == written + ([Started(t, env.probe)] + [Ended(maxRetries, t, env)]);
  }

  /** The heartbeat's effect on the lock: refresh until a refresh fails. */
  function Beaten(l: Table, project: string, token: Token, ttl: real, beats: seq<real>): Table {
    if beats == [] || !Owned(l, project, token, beats[0]) then l
    else Beaten(Refreshed(l, project, token, ttl, beats[0]), project, token, ttl, beats[1..])
  }

  class Worker {
    const store: TaskStore
    const queue: TaskQueue
    const locks: LockTable
    const bus: EventBus
    const scheduler: Scheduler
    const maxRetries: int
    const ttl: real

    constructor (store: TaskStore, queue: TaskQueue, locks: LockTable, bus: EventBus, maxRetries: int, ttl: real)
      ensures this.store == store && this.queue == queue && this.locks == locks && this.bus == bus
      ensures this.maxRetries == maxRetries && this.ttl == ttl
    {
      this.store, this.queue, this.locks, this.bus := store, queue, locks, bus;
      this.scheduler := new Scheduler();
      this.maxRetries, this.ttl := maxRetries, ttl;
    }

    /** Re-queues a task that failed in a retriable way, or fails it for good. */
    method HandleRetriable(task: TaskRecord)
      modifies task, store, queue, bus
      ensures task.Payload() == AfterStream(maxRetries, old(task.Payload()), Retriable)
      ensures task.status == (if old(task.retryCount) < maxRetries then Interrupted else Failed)
      ensures task.retryCount == old(task.retryCount) + (if old(task.retryCount) < maxRetries then 1 else 0)
      ensures task.mode == old(task.mode)
      ensures store.State() == Updated(old(store.State()), task.Payload())
      ensures store.written == old(store.written) + [task.Payload()]
      ensures var again := old(task.retryCount) < maxRetries;
              && queue.Contents() == old(queue.Contents()) + (if again then [task.Payload()] else [])
              && bus.log == old(bus.log) + (if again then [] else [Posted(task.id, Done)])
    {
      if task.retryCount < maxRetries {
        task.retryCount := task.retryCount + 1;
        task.Transition(Interrupted);
        store.Update(task.Payload());
        queue.Enqueue(task.Payload());
      } else {
        task.Transition(Failed);
        store.Update(task.Payload());
        bus.Close(task.id);
      }
    }

    /** Forwards the stream's events to the bus. */
    method Stream(task: TaskRecord, progress: seq<(string, string)>)
      modifies bus
      ensures bus.log == old(bus.log) + Announced(task.id, progress)
      ensures Spoke(old(bus.log), bus.log, task.id, progress, 0)
    {
      for i := 0 to |progress|
        invariant bus.log == old(bus.log) + Announced(task.id, progress[..i])
      {
        bus.Publish(task.id, progress[i].0, progress[i].1);
        assert Announced(task.id, progress[..i + 1])
               == Announced(task.id, progress[..i]) + [Posted(task.id, Event(progress[i].0, progress[i].1))];
      }
      assert progress[..|progress|] == progress;
    }

    method Fail(task: TaskRecord)
      modifies task, store, bus
      ensures task.Payload() == old(task.Payload()).(status := Failed)
      ensures store.written == old(store.written) + [task.Payload()]
      ensures store.State() == Updated(old(store.State()), task.Payload())
      ensures bus.log == old(bus.log) + [Posted(task.id, Done)]
    {
      task.Transition(Failed);
      store.Update(task.Payload());
      bus.Close(task.id);
    }

    /** The stream and what follows it; `cancelled` is a CancelledError passed on. */
    method Settle(task: TaskRecord, env: Env) returns (cancelled: bool)
      modifies task, store, queue, bus
      ensures cancelled <==> env.outcome.Cancelled?
      ensures task.Payload() == AfterStream(maxRetries, old(task.Payload()), env.outcome)
      ensures store.State() == Updated(old(store.State()), task.Payload())
      ensures store.written == old(store.written) + [task.Payload()]
      ensures var again := env.outcome.Retriable? && old(task.retryCount) < maxRetries;
              && queue.Contents() == old(queue.Contents()) + (if again then [task.Payload()] else [])
              && bus.log == old(bus.log) + Announced(task.id, env.progress) + [Posted(task.id, Done)]
                            + (if env.outcome.Retriable? && !again then [Posted(task.id, Done)] else [])
    {
      Stream(task, env.progress);
      match env.outcome {
        case Retriable =>
          bus.Close(task.id);
          HandleRetriable(task);
          return false;
        case Completed => task.Transition(Success);
        case Cancelled => task.Transition(Interrupted);
        case _ => task.Transition(Failed);
      }
      store.Update(task.Payload());
      bus.Close(task.id);
      cancelled := env.outcome.Cancelled?;
    }

    /** Everything that happens while the lock is held. */
    method RunLocked(task: TaskRecord, env: Env) returns (cancelled: bool)
      modifies task, store, queue, bus
      ensures cancelled <==> Starts(old(task.Payload()), env) && env.outcome.Cancelled?
      ensures task.Payload() == Ended(maxRetries, old(task.Payload()), env)
      ensures store.State() == StoreAfter(old(store.State()), maxRetries, old(task.Payload()), env)
      ensures queue.Contents() == old(queue.Contents()) + Requeued(maxRetries, old(task.Payload()), env)
      ensures bus.log == old(bus.log) + Said(maxRetries, old(task.Payload()), env)
      ensures Promise(maxRetries, old(task.Payload()), task.Payload(), env, old(store.State()), store.State(),
                      old(store.written), store.written, old(queue.Contents()), queue.Contents(),
                      old(bus.log), bus.log)
    {
      BeginsIs(task.Payload(), env);
      PromiseIs(maxRetries, task.Payload(), env, store.State(), store.written, queue.Contents(), bus.log);
      ghost var t, written, log := task.Payload(), store.written, bus.log;
      cancelled := false;
      var mode := None;
      if env.engineOk {
        mode := scheduler.DecideTask(task, env.probe);
      }
      if mode.None? {
        Fail(task);
      } else {
        task.Transition(Status.Running);
        store.Update(task.Payload());
        cancelled := Settle(task, env);
      }
      assert store.written == written + Wrote(maxRetries, t, env);
      assert bus.log == log + Said(maxRetries, t, env);
    }

    /** The heartbeat coroutine. It touches nothing but the lock. */
    method Heartbeat(project: string, token: Token, beats: seq<real>)
      modifies locks
      ensures locks.leases == Beaten(old(locks.leases), project, token, ttl, beats)
    {
      for i := 0 to |beats|
        invariant Beaten(old(locks.leases), project, token, ttl, beats)
                  == Beaten(locks.leases, project, token, ttl, beats[i..])
      {
        assert beats[i..][0] == beats[i] && beats[i..][1..] == beats[i + 1..];
        var stillHeld := locks.Refresh(project, token, ttl, beats[i]);
        if !stillHeld {
          return;  // the error stays inside the coroutine
        }
      }
    }

    /** Executes a dequeued task, or puts it back if another worker holds its project. */
    method Execute(task: TaskRecord, token: Token, env: Env) returns (acquired: bool, cancelled: bool)
      modifies task, store, queue, locks, bus
      ensures acquired <==> !Live(old(locks.leases), task.project, env.acquireAt)
      ensures !acquired ==>
                && !cancelled && task.Payload() == old(task.Payload()) && store.State() == old(store.State())
                && queue.Contents() == old(queue.Contents()) + [old(task.Payload())]
                && locks.leases == old(locks.leases) && bus.log == old(bus.log)
      ensures acquired ==>
                && (cancelled <==> Begins(old(task.Payload()), env) && env.outcome.Cancelled?)
                && store.State() == StoreAfter(old(store.State()), maxRetries, old(task.Payload()), env)
                && queue.Contents() == old(queue.Contents()) + Requeued(maxRetries, old(task.Payload()), env)
                && locks.leases == LocksAfter(old(locks.leases), task.project, token, ttl, env)
                && bus.log == old(bus.log) + Said(maxRetries, old(task.Payload()), env)
                && Promise(maxRetries, old(task.Payload()), task.Payload(), env, old(store.State()), store.State(),
                           old(store.written), store.written, old(queue.Contents()), queue.Contents(),
                           old(bus.log), bus.log)
                && !Live(locks.leases, task.project, env.releaseAt)
                && (forall p | p != task.project :: p in locks.leases <==> p in old(locks.leases))
                && (forall p | p in locks.leases && p != task.project :: locks.leases[p] == old(locks.leases)[p])
    {
      acquired := locks.Acquire(task.project, token, ttl, env.acquireAt);
      if !acquired {
        queue.Enqueue(task.Payload());
        return false, false;
      }
      cancelled := RunLocked(task, env);
      Heartbeat(task.project, token, env.beats);
      locks.Release(task.project, token, env.releaseAt);
      BeatsKeepTheOwner(Acquired(old(locks.leases), task.project, token, ttl, env.acquireAt), task.project, token, ttl, env.beats);
    }

    /** One turn of the worker's loop: a poll and, if it yields a task, its execution. */
    method Turn(token: Token, env: Env, next: real) returns (ran: bool, cancelled: bool)
      requires Drainable(maxRetries, store.State(), queue.Contents())
      requires Unlocked(locks.leases, env.acquireAt) && env.acquireAt <= env.releaseAt <= next
      modifies store, queue, locks, bus
      ensures ran <==> old(queue.Contents()) != []
      ensures ran ==>
                var t := old(queue.Contents())[0];
                && (cancelled <==> Starts(t, env) && env.outcome.Cancelled?)
                && t.id in store.records
                && Promise(maxRetries, t, store.records[t.id], env, old(store.State()), store.State(),
                           old(store.written), store.written, old(queue.Contents())[1..], queue.Contents(),
                           old(bus.log), bus.log)
      ensures Shared(store.State(), queue.Contents(), locks.leases, bus.log)
              == TurnOf(maxRetries, ttl, old(Shared(store.State(), queue.Contents(), locks.leases, bus.log)), token, env)
      ensures !ran ==> !cancelled && queue.Contents() == [] && store.written == old(store.written)
      ensures store.records.Keys == old(store.records).Keys
      ensures ran ==> 1 <= Budget(maxRetries, old(queue.Contents()))
      ensures ran && !cancelled ==>
                && Drainable(maxRetries, store.State(), queue.Contents())
                && Budget(maxRetries, queue.Contents()) + 1 <= Budget(maxRetries, old(queue.Contents()))
                && Unlocked(locks.leases, next)
    {
      ghost var s, q, l := store.State(), queue.Contents(), locks.leases;
      var head := queue.Dequeue();
      ran, cancelled := head.Some?, false;
      if ran {
        var task := new TaskRecord(head.value);
        OneExecution(maxRetries, ttl, s, q, l, token, env, next);
        var acquired;
        acquired, cancelled := Execute(task, token, env);
        assert store.State() == StoreAfter(s, maxRetries, q[0], env);
        assert queue.Contents() == q[1..] + Requeued(maxRetries, q[0], env);
        EndedIs(maxRetries, q[0], env);
      }
    }

    /**
     * The worker's loop, told to stop after `polls` polls. Cancellation ends it early; empty polls
     * do not. With enough polls it drains the queue. Execution number `k` happens in `env(k)`.
     */
    method Run(env: nat -> Env, polls: nat) returns (runs: nat, cancelled: bool)
      requires Drainable(maxRetries, store.State(), queue.Contents())
      requires Unlocked(locks.leases, env(0).acquireAt) && ClockRuns(env)
      modifies store, queue, locks, bus
      ensures runs <= Budget(maxRetries, old(queue.Contents()))
      ensures cancelled ==> runs > 0 && env(runs - 1).outcome.Cancelled?
      ensures Shared(store.State(), queue.Contents(), locks.leases, bus.log)
              == After(maxRetries, ttl, old(Shared(store.State(), queue.Contents(), locks.leases, bus.log)), env, runs)
      ensures store.records.Keys == old(store.records).Keys
      ensures !cancelled ==>
                && Drainable(maxRetries, store.State(), queue.Contents())
                && Unlocked(locks.leases, env(runs).acquireAt)
                && (runs == polls || queue.Contents() == [])
      ensures !cancelled && Budget(maxRetries, old(queue.Contents())) <= polls ==>
                && queue.Contents() == []
                && (forall id | id in store.records :: store.records[id].status.Success? || store.records[id].status.Failed?)
                && store.digests == map[]
    {
      runs, cancelled := 0, false;
      var polled := 0;
      while polled < polls && !cancelled
        invariant runs + Budget(maxRetries, queue.Contents()) <= Budget(maxRetries, old(queue.Contents()))
                  || (cancelled && runs <= Budget(maxRetries, old(queue.Contents())))
        invariant Shared(store.State(), queue.Contents(), locks.leases, bus.log)
                  == After(maxRetries, ttl, old(Shared(store.State(), queue.Contents(), locks.leases, bus.log)), env, runs)
        invariant polled <= polls && (cancelled || runs == polled || queue.Contents() == [])
        invariant store.records.Keys == old(store.records).Keys
        invariant !cancelled ==>
                    && Drainable(maxRetries, store.State(), queue.Contents())
                    && Unlocked(locks.leases, env(runs).acquireAt)
        invariant cancelled ==> runs > 0 && env(runs - 1).outcome.Cancelled?
      {
        polled := polled + 1;
        assert env(runs).releaseAt <= env(runs + 1).acquireAt;
        var ran;
        ran, cancelled := Turn(runs, env(runs), env(runs + 1).acquireAt);
        if ran {
          runs := runs + 1;
        }
      }
      if !cancelled && Budget(maxRetries, old(queue.Contents())) <= polls {
        BudgetOfSome(maxRetries, store.State(), queue.Contents());
        NothingLeft(maxRetries, store.State());
      }
    }
  }

  // ---- what the loop does ----------------------------------------------------

  /** What a worker shares with the rest of the system. */
  datatype Shared = Shared(store: Store, queue: seq<Task>, leases: Table, log: seq<Posted>)

  /** One turn: the first task of the queue is executed. */
  function TurnOf(maxRetries: int, ttl: real, x: Shared, token: Token, env: Env): Shared {
    if x.queue == [] then x
    else
      var t := x.queue[0];
      Shared(StoreAfter(x.store, maxRetries, t, env), x.queue[1..] + Requeued(maxRetries, t, env),
             LocksAfter(x.leases, t.project, token, ttl, env), x.log + Said(maxRetries, t, env))
  }

  /** After `n` executions, each of the task that is then first. */
  function After(maxRetries: int, ttl: real, x: Shared, env: nat -> Env, n: nat): Shared {
    if n == 0 then x else TurnOf(maxRetries, ttl, After(maxRetries, ttl, x, env, n - 1), n - 1, env(n - 1))
  }

  // ---- why the loop ends, and how --------------------------------------------

  function Allowance(maxRetries: int, t: Task): nat {
    if t.retryCount <= RetryLimit(maxRetries) then RetryLimit(maxRetries) + 1 - t.retryCount else 0
  }

  /** The executions the queued tasks are still allowed. */
  function Budget(maxRetries: int, q: seq<Task>): nat {
    if q == [] then 0 else Allowance(maxRetries, q[0]) + Budget(maxRetries, q[1..])
  }

  /** Every unfinished task is queued once, as stored; the store is consistent. */
  ghost predicate Drainable(maxRetries: int, s: Store, q: seq<Task>) {
    && Consistent(s)
    && (forall t | t in q ::
          t.id in s.records && s.records[t.id] == t && t.IsWaiting() && t.retryCount <= RetryLimit(maxRetries))
    && Distinct(Ids(q))
    && (forall id | Stores.Active(s, id) :: s.records[id] in q)
  }

  predicate Unlocked(l: Table, now: real) {
    forall p | p in l :: !Live(l, p, now)
  }

  ghost predicate ClockRuns(env: nat -> Env) {
    forall k: nat :: env(k).acquireAt <= env(k).releaseAt <= env(k + 1).acquireAt
  }

  lemma {:induction false} BudgetAppend(maxRetries: int, q: seq<Task>, r: seq<Task>)
    ensures Budget(maxRetries, q + r) == Budget(maxRetries, q) + Budget(maxRetries, r)
  {
    if q == [] {
      assert q + r == r;
    } else {
      BudgetAppend(maxRetries, q[1..], r);
      assert (q + r)[1..] == q[1..] + r;
    }
  }

  lemma BudgetOfHead(maxRetries: int, q: seq<Task>)
    requires q != [] && q[0].retryCount <= RetryLimit(maxRetries)
    ensures Budget(maxRetries, q) >= 1 + Budget(maxRetries, q[1..])
  {}

  lemma BudgetOfSome(maxRetries: int, s: Store, q: seq<Task>)
    requires Drainable(maxRetries, s, q)
    ensures Budget(maxRetries, q) == 0 <==> q == []
  {
    if q != [] {
      assert q[0] in q;
      BudgetOfHead(maxRetries, q);
    }
  }

  lemma StoreKeepsKeys(s: Store, maxRetries: int, q: seq<Task>, env: Env)
    requires q != [] && q[0].id in s.records
    ensures StoreAfter(s, maxRetries, q[0], env).records.Keys == s.records.Keys
  {}

  lemma EndedFacts(maxRetries: int, t: Task, env: Env)
    requires t.IsWaiting() && t.retryCount <= RetryLimit(maxRetries)
    requires !(Begins(t, env) && env.outcome.Cancelled?)
    ensures var u := Ended(maxRetries, t, env);
            && SameRequest(t, u)
            && (Retries(maxRetries, t, env) ==>
                  u.status.Interrupted? && u.retryCount == t.retryCount + 1 <= RetryLimit(maxRetries))
            && (!Retries(maxRetries, t, env) ==> u.IsTerminal())
  {}

  lemma StoreStaysConsistent(maxRetries: int, s: Store, t: Task, env: Env)
    requires Consistent(s) && t.id in s.records && s.records[t.id] == t && t.IsWaiting()
    ensures var u := Ended(maxRetries, t, env);
            var s' := StoreAfter(s, maxRetries, t, env);
            Consistent(s') && s'.records == s.records[t.id := u]
  {
    if Begins(t, env) {
      UpdateConsistent(s, Started(t, env.probe));
      UpdateConsistent(Updated(s, Started(t, env.probe)), Ended(maxRetries, t, env));
    } else {
      UpdateConsistent(s, t.(status := Failed));
    }
  }

  /** One execution keeps the queue and store in step and uses up at least one allowed execution. */
  lemma ExecutionKeeps(maxRetries: int, s: Store, q: seq<Task>, env: Env)
    requires Drainable(maxRetries, s, q) && q != []
    requires !(Begins(q[0], env) && env.outcome.Cancelled?)
    ensures var q' := q[1..] + Requeued(maxRetries, q[0], env);
            && Drainable(maxRetries, StoreAfter(s, maxRetries, q[0], env), q')
            && Budget(maxRetries, q') + 1 <= Budget(maxRetries, q)
  {
    var t := q[0];
    var u := Ended(maxRetries, t, env);
    var q' := q[1..] + Requeued(maxRetries, t, env);
    StoreStaysConsistent(maxRetries, s, t, env);
    EndedFacts(maxRetries, t, env);
    QueueMovesOn(maxRetries, s, q, env);
    BudgetAppend(maxRetries, q[1..], Requeued(maxRetries, t, env));
    assert Retries(maxRetries, t, env) ==> Budget(maxRetries, [u]) == Allowance(maxRetries, u) + Budget(maxRetries, [u][1..]);
  }

  lemma QueueMovesOn(maxRetries: int, s: Store, q: seq<Task>, env: Env)
    requires Drainable(maxRetries, s, q) && q != []
    requires !(Begins(q[0], env) && env.outcome.Cancelled?)
    ensures var u := Ended(maxRetries, q[0], env);
            var q' := q[1..] + Requeued(maxRetries, q[0], env);
            && (forall t | t in q' :: t == u || (t in q && t.id != u.id))
            && (forall t | t in q && t.id != u.id :: t in q')
            && Distinct(Ids(q'))
  {
    EndedFacts(maxRetries, q[0], env);
    var u := Ended(maxRetries, q[0], env);
    var q' := q[1..] + Requeued(maxRetries, q[0], env);
    assert forall i | 0 < i < |q| :: Ids(q)[0] != Ids(q)[i];
    assert q[0] in q;
    forall i, j | 0 <= i < j < |q'|
      ensures Ids(q')[i] != Ids(q')[j]
    {
      assert Ids(q)[i + 1] == q'[i].id;
      assert j + 1 < |q| ==> Ids(q)[j + 1] == q'[j].id;
    }
  }

  /** All that `Run` needs to know about one turn of its loop. */
  lemma OneExecution(
    maxRetries: int, ttl: real, s: Store, q: seq<Task>, l: Table, token: Token, env: Env, next: real
  )
    requires Drainable(maxRetries, s, q) && q != []
    requires Unlocked(l, env.acquireAt) && env.acquireAt <= env.releaseAt <= next
    ensures var t := q[0];
            var s' := StoreAfter(s, maxRetries, t, env);
            var q' := q[1..] + Requeued(maxRetries, t, env);
            && s'.records.Keys == s.records.Keys
            && !Live(l, t.project, env.acquireAt)
            && Unlocked(LocksAfter(l, t.project, token, ttl, env), next)
            && 1 <= Budget(maxRetries, q)
            && (!(Begins(t, env) && env.outcome.Cancelled?) ==>
                  Drainable(maxRetries, s', q') && Budget(maxRetries, q') + 1 <= Budget(maxRetries, q))
  {
    assert q[0] in q;
    StoreKeepsKeys(s, maxRetries, q, env);
    BudgetOfHead(maxRetries, q);
    LockIsGone(l, q[0].project, token, ttl, env);
    if !(Begins(q[0], env) && env.outcome.Cancelled?) {
      ExecutionKeeps(maxRetries, s, q, env);
    }
  }

  lemma NothingLeft(maxRetries: int, s: Store)
    requires Drainable(maxRetries, s, [])
    ensures (forall id | id in s.records :: s.records[id].IsTerminal()) && s.digests == map[]
  {
    assert forall id :: !Stores.Active(s, id);
    forall k
      ensures k !in s.digests
    {
      if k in s.digests {
        assert false;
      }
    }
  }

  // ---- the lock --------------------------------------------------------------

  lemma {:induction false} BeatsKeepTheOwner(l: Table, project: string, token: Token, ttl: real, beats: seq<real>)
    requires project in l && l[project].token == token
    ensures var l' := Beaten(l, project, token, ttl, beats);
            && l'.Keys == l.Keys && l'[project].token == token
            && forall p | p in l && p != project :: l'[p] == l[p]
    decreases |beats|
  {
    if beats != [] && Owned(l, project, token, beats[0]) {
      BeatsKeepTheOwner(Refreshed(l, project, token, ttl, beats[0]), project, token, ttl, beats[1..]);
    }
  }

  /** However the heartbeat fared, an execution leaves no live lock behind. */
  lemma LockIsGone(l: Table, project: string, token: Token, ttl: real, env: Env)
    requires Unlocked(l, env.acquireAt) && env.acquireAt <= env.releaseAt
    ensures Unlocked(LocksAfter(l, project, token, ttl, env), env.releaseAt)
  {
    BeatsKeepTheOwner(Acquired(l, project, token, ttl, env.acquireAt), project, token, ttl, env.beats);
  }

  function LocksAfter(l: Table, project: string, token: Token, ttl: real, env: Env): Table {
    Released(
      Beaten(Acquired(l, project, token, ttl, env.acquireAt), project, token, ttl, env.beats),
      project, token, env.releaseAt)
  }
}
