/**
 * The imperative worker and endpoint do what the protocol says: each is a run of protocol
 * steps with the same effect on store, queue and locks.
 */
module Conformance {
  import opened Tasks
  import opened Stores
  import opened Locks
  import opened Protocol
  import opened Conservation
  import opened Dedup
  import opened Workers

  /** The protocol steps of one execution under the lock. */
  function LockedSteps(maxRetries: int, w: nat, t: Task, env: Env): seq<Label> {
    if !env.engineOk then [EngineFail(w)]
    else if !Begins(t, env) then [Start(w, env.probe)]
    else if Retries(maxRetries, t, env) then [Start(w, env.probe), Finish(w, env.outcome), RetryEnqueue(w)]
    else [Start(w, env.probe), Finish(w, env.outcome)]
  }

  /** The effect `Worker.RunLocked` promises, and the worker about to release the lock. */
  predicate LockedEffect(maxRetries: int, s: System, s': System, w: nat, t: Task, h: Hold, env: Env) {
    && s'.store == StoreAfter(s.store, maxRetries, t, env)
    && s'.queue == s.queue + Requeued(maxRetries, t, env)
    && s'.locks == s.locks && s'.handlers == s.handlers && s'.now == s.now
    && s'.workers == s.workers[w := Leaving(h, Begins(t, env) && env.outcome.Cancelled?)]
  }

  lemma FailingConforms(c: Config, s: System, w: nat, env: Env)
    requires w in s.workers && s.workers[w].Locked? && !Begins(s.workers[w].task, env)
    ensures var Locked(t, h) := s.workers[w];
            var ls := LockedSteps(c.maxRetries, w, t, env);
            CanRun(c, s, ls) && LockedEffect(c.maxRetries, s, Run(c, s, ls), w, t, h, env)
  {
    RunOfOne(c, s, if !env.engineOk then EngineFail(w) else Start(w, env.probe));
  }

  /** What `Start` and `Finish` do together. */
  lemma StreamConforms(c: Config, s: System, w: nat, env: Env)
    requires w in s.workers && s.workers[w].Locked? && Begins(s.workers[w].task, env)
    ensures var Locked(t, h) := s.workers[w];
            var l, m := Start(w, env.probe), Finish(w, env.outcome);
            && Enabled(c, s, l) && Enabled(c, Next(c, s, l), m)
            && var s' := Next(c, Next(c, s, l), m);
               && s'.store == StoreAfter(s.store, c.maxRetries, t, env)
               && s'.queue == s.queue && s'.locks == s.locks && s'.handlers == s.handlers && s'.now == s.now
               && s'.workers == s.workers[w :=
                    if Retries(c.maxRetries, t, env) then Retrying(Ended(c.maxRetries, t, env), h)
                    else Leaving(h, env.outcome.Cancelled?)]
  {
    var Locked(t, h) := s.workers[w];
    var s1 := Next(c, s, Start(w, env.probe));
    assert s1.workers[w] == Streaming(Started(t, env.probe), h);
  }

  /** `Worker.RunLocked` is a run of the protocol. */
  lemma RunLockedConforms(c: Config, s: System, w: nat, env: Env)
    requires w in s.workers && s.workers[w].Locked?
    ensures var Locked(t, h) := s.workers[w];
            var ls := LockedSteps(c.maxRetries, w, t, env);
            CanRun(c, s, ls) && LockedEffect(c.maxRetries, s, Run(c, s, ls), w, t, h, env)
  {
    var t := s.workers[w].task;
    if !Begins(t, env) {
      FailingConforms(c, s, w, env);
    } else {
      StreamConforms(c, s, w, env);
      var l, m := Start(w, env.probe), Finish(w, env.outcome);
      var s1 := Next(c, s, l);
      var s2 := Next(c, s1, m);
      RunOfOne(c, s, l);
      Extend(c, s, [l], s1, m);
      assert [l] + [m] == [l, m];
      if Retries(c.maxRetries, t, env) {
        Extend(c, s, [l, m], s2, RetryEnqueue(w));
        assert [l, m] + [RetryEnqueue(w)] == [l, m, RetryEnqueue(w)];
      }
    }
  }

  /** Refused by the lock, `Worker.Execute` is `Acquire` and `Requeue`. */
  lemma RefusalConforms(c: Config, s: System, w: nat)
    requires w in s.workers && s.workers[w].Got? && Live(s.locks, s.workers[w].task.project, s.now)
    ensures var ls := [Acquire(w), Requeue(w)];
            && CanRun(c, s, ls)
            && var s' := Run(c, s, ls);
               && s'.store == s.store && s'.locks == s.locks
               && s'.queue == s.queue + [s.workers[w].task]
               && s'.workers == s.workers[w := Idle]
  {
    RunOfOne(c, s, Acquire(w));
    Extend(c, s, [Acquire(w)], AcquireStep(c, s, w), Requeue(w));
    assert [Acquire(w)] + [Requeue(w)] == [Acquire(w), Requeue(w)];
  }

  /** `Api.CreateTask` creates exactly when the protocol can, and is then `Create` and `EnqueueNew`. */
  lemma CreateConforms(c: Config, s: System, id: TaskId, project: string, requirement: string, wd: string, cj: string)
    requires Core(s) && id !in s.store.records
    ensures Enabled(c, s, Create(id, project, requirement, wd, cj)) <==> Admits(s.store, project, requirement)
    ensures Admits(s.store, project, requirement) ==>
              var t := Fresh(id, project, requirement, wd, cj);
              var s1 := CreateStep(s, t);
              && s1.store == SaveNew(s.store, t) && Enabled(c, s1, EnqueueNew(id))
              && Next(c, s1, EnqueueNew(id)).store == s1.store
              && Next(c, s1, EnqueueNew(id)).queue == s.queue + [t]
              && Next(c, s1, EnqueueNew(id)).handlers == s.handlers
  {
    assert id !in s.handlers;
  }
}
