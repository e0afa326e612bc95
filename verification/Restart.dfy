/**
 * Restarting after a crash. Recovery re-queues every unfinished record, which restores the
 * single carrier exactly when the queue was really lost; a surviving queue duplicates tasks,
 * and then a finished task can run again.
 */
module Restart {
  import opened Tasks
  import opened Stores
  import opened Locks
  import opened Scheduling
  import opened Recovery
  import opened Protocol
  import opened Conservation
  import opened Lifecycle

  lemma OneMoreEntry(q: seq<Task>, added: seq<Task>, id: TaskId, k: nat)
    requires k < |added| && forall i | 0 <= i < |added| :: added[i].id == id <==> i == k
    ensures ByEntry(|q| + k) !in Entries(q, id)
    ensures Entries(q + added, id) == Entries(q, id) + {ByEntry(|q| + k)}
  {
    var more := q + added;
    forall i: nat
      ensures ByEntry(i) in Entries(more, id) <==> ByEntry(i) in Entries(q, id) || i == |q| + k
    {
      assert i < |more| ==> more[i] == if i < |q| then q[i] else added[i - |q|];
    }
  }

  lemma EntriesWithNoMore(q: seq<Task>, added: seq<Task>, id: TaskId)
    requires forall i | 0 <= i < |added| :: added[i].id != id
    ensures Entries(q + added, id) == Entries(q, id)
  {}

  /** The payloads of a full scan add one entry for each unfinished task, at place `n`, and no other. */
  lemma EntriesGrow(s: Store, order: seq<TaskId>, q: seq<Task>, id: TaskId) returns (n: nat)
    requires Keyed(s) && Enumerates(order, s)
    ensures Stores.Active(s, id) ==>
              && ByEntry(n) !in Entries(q, id)
              && Entries(q + Payloads(s, order), id) == Entries(q, id) + {ByEntry(n)}
    ensures !Stores.Active(s, id) ==> Entries(q + Payloads(s, order), id) == Entries(q, id)
  {
    var added := Payloads(s, order);
    PayloadsExact(s, order);
    assert forall i | 0 <= i < |added| :: added[i] in added && Ids(added)[i] == added[i].id;
    n := 0;
    if Stores.Active(s, id) {
      var k := PayloadOf(s, order, id);
      OneMoreEntry(q, added, id, k);
      n := |q| + k;
    } else {
      EntriesWithNoMore(q, added, id);
    }
  }

  lemma EntriesOfPayloads(s: Store, order: seq<TaskId>, q: seq<Task>, id: TaskId)
    requires Keyed(s) && Enumerates(order, s)
    ensures |Entries(q + Payloads(s, order), id)| == |Entries(q, id)| + if Stores.Active(s, id) then 1 else 0
  {
    var n := EntriesGrow(s, order, q, id);
  }

  lemma OnlyEntries(s: System, id: TaskId)
    requires s.handlers == map[] && forall w | w in s.workers :: Carried(s.workers[w]).None?
    ensures Carriers(s, id) == Entries(s.queue, id)
  {}

  /** Whatever state is recovered, each unfinished task gains exactly one carrier, no other task any. */
  lemma RecoveryAddsOneCarrier(s: System, order: seq<TaskId>, id: TaskId)
    requires Keyed(s.store) && CanRecover(s, order)
    ensures |Carriers(RecoverStep(s, order), id)|
            == |Carriers(s, id)| + if Stores.Active(s.store, id) then 1 else 0
  {
    OnlyEntries(s, id);
    OnlyEntries(RecoverStep(s, order), id);
    EntriesOfPayloads(s.store, order, s.queue, id);
  }

  lemma LostMeansUnique(s: System, order: seq<TaskId>, id: TaskId)
    requires Core(s) && CanRecover(s, order) && s.queue == []
    ensures |Carriers(RecoverStep(s, order), id)| <= 1
  {
    OnlyEntries(RecoverStep(s, order), id);
    EntriesOfPayloads(s.store, order, s.queue, id);
    assert Entries(s.queue, id) == {};
  }

  lemma QueuedTwice(s: System, order: seq<TaskId>)
    requires Core(s) && CanRecover(s, order) && s.queue != []
    ensures |Carriers(RecoverStep(s, order), s.queue[0].id)| == 2
  {
    var id := s.queue[0].id;
    assert Placed(s, s.queue[0], InQueue);
    assert id in s.place <==> Stores.Active(s.store, id);
    RecoveryAddsOneCarrier(s, order, id);
    CarriersExact(s, id);
  }

  /** What recovery makes of `s` when of its queue only the entries of `kept` survive the restart. */
  function Restarted(s: System, kept: set<TaskId>, order: seq<TaskId>): System {
    RecoverStep(LoseStep(s, kept), order)
  }

  lemma LossKeepsStartup(s: System, kept: set<TaskId>, order: seq<TaskId>)
    requires Core(s) && CanRecover(s, order)
    ensures Core(LoseStep(s, kept)) && CanRecover(LoseStep(s, kept), order)
  {
    CoreLose(s, kept);
    var s' := LoseStep(s, kept);
    assert forall w | At(s', w) :: At(s, w) && s.workers[w].Stopped?;
  }

  ghost predicate UniqueCarriers(s: System) {
    forall id :: |Carriers(s, id)| <= 1
  }

  lemma UniqueIffEmpty(s: System, order: seq<TaskId>)
    requires Core(s) && CanRecover(s, order)
    ensures UniqueCarriers(RecoverStep(s, order)) <==> s.queue == []
  {
    if s.queue == [] {
      forall id
        ensures |Carriers(RecoverStep(s, order), id)| <= 1
      {
        LostMeansUnique(s, order, id);
      }
    } else {
      QueuedTwice(s, order);
    }
  }

  /** No task has two carriers after a restart iff nothing of the queue survived it. */
  lemma UniqueAfterRecoveryIff(s: System, kept: set<TaskId>, order: seq<TaskId>)
    requires Core(s) && CanRecover(s, order)
    ensures UniqueCarriers(Restarted(s, kept, order)) <==> Surviving(s.queue, kept) == []
  {
    LossKeepsStartup(s, kept, order);
    UniqueIffEmpty(LoseStep(s, kept), order);
  }

  /**
   * If nothing of the queue survives, whatever was in it, recovery leaves every unfinished task
   * queued exactly once and none stranded.
   */
  lemma RecoveryRestores(s: System, kept: set<TaskId>, order: seq<TaskId>, id: TaskId)
    requires Core(s) && CanRecover(s, order) && Surviving(s.queue, kept) == []
    ensures var s' := Restarted(s, kept, order);
            && Core(s')
            && |Carriers(s', id)| == (if Stores.Active(s'.store, id) then 1 else 0)
            && (Stores.Active(s'.store, id) ==> s'.store.records[id] in s'.queue)
            && !RunningIn(s', id)
  {
    LossKeepsStartup(s, kept, order);
    var b := LoseStep(s, kept);
    CoreRecover(b, order);
    RecoveredIsQueued(b, order, id);
  }

  lemma RecoveredIsQueued(s: System, order: seq<TaskId>, id: TaskId)
    requires Core(RecoverStep(s, order))
    ensures var s' := RecoverStep(s, order);
            && |Carriers(s', id)| == (if Stores.Active(s'.store, id) then 1 else 0)
            && (Stores.Active(s'.store, id) ==> s'.store.records[id] in s'.queue)
            && !RunningIn(s', id)
  {
    var s' := RecoverStep(s, order);
    CarriersExact(s', id);
    assert id in s'.place <==> Stores.Active(s'.store, id);
    assert id in s'.place ==> Present(s', id);
  }

  // ---- working off a queue ---------------------------------------------------

  predicate Succeeded(s: System, id: TaskId) {
    id in s.store.records && s.store.records[id].status.Success?
  }

  /** Worker `w` waits for work and no lock is in its way. */
  predicate Ready(s: System, w: nat) {
    && w in s.workers && s.workers[w].Idle?
    && forall p | p in s.locks :: s.locks[p].expires <= s.now
  }

  /** Worker `w` has locked `t`; no other lock is live. */
  predicate Working(s: System, w: nat, t: Task) {
    && w in s.workers && s.workers[w].Locked? && s.workers[w].task == t && s.workers[w].hold.project == t.project
    && OnlyLock(s, s.workers[w].hold)
  }

  predicate OnlyLock(s: System, h: Hold) {
    forall p | p in s.locks :: s.locks[p].expires <= s.now || (p == h.project && s.locks[p].token == h.token)
  }

  /** An orderly run. */
  ghost predicate Arrives(c: Config, s0: System, ls: seq<Label>, s: System) {
    Leads(c, s0, ls, s) && OrderlyRun(c, s0, ls)
  }

  lemma TakeUp(c: Config, s0: System, pre: seq<Label>, s: System, w: nat) returns (ls: seq<Label>, s': System)
    requires Arrives(c, s0, pre, s) && Ready(s, w) && s.queue != []
    ensures Arrives(c, s0, ls, s') && Working(s', w, s.queue[0])
    ensures s'.store == s.store && s'.queue == s.queue[1..]
  {
    ls, s' := Do(c, s0, pre, s, Dequeue(w));
    ls, s' := Do(c, s0, ls, s', Acquire(w));
  }

  lemma Begin(c: Config, s0: System, pre: seq<Label>, s: System, w: nat, t: Task)
    returns (ls: seq<Label>, s': System)
    requires Arrives(c, s0, pre, s) && Working(s, w, t)
    ensures Arrives(c, s0, ls, s') && s'.queue == s.queue && s'.locks == s.locks && s'.now == s.now
    ensures s'.workers == s.workers[w := Streaming(Started(t, CHECKPOINT), s.workers[w].hold)]
    ensures s'.store.records == s.store.records[t.id := Started(t, CHECKPOINT)]
  {
    ls, s' := Do(c, s0, pre, s, Start(w, CHECKPOINT));
  }

  lemma Succeed(c: Config, s0: System, pre: seq<Label>, s: System, w: nat, t: Task)
    returns (ls: seq<Label>, s': System)
    requires Arrives(c, s0, pre, s) && Working(s, w, t)
    ensures Arrives(c, s0, ls, s') && s'.queue == s.queue && s'.locks == s.locks && s'.now == s.now
    ensures s'.workers == s.workers[w := Leaving(s.workers[w].hold, false)]
    ensures Succeeded(s', t.id) && forall id | Succeeded(s, id) :: Succeeded(s', id)
  {
    ls, s' := Begin(c, s0, pre, s, w, t);
    ls, s' := Do(c, s0, ls, s', Finish(w, Completed));
  }

  lemma GiveBack(c: Config, s0: System, pre: seq<Label>, s: System, w: nat) returns (ls: seq<Label>, s': System)
    requires Arrives(c, s0, pre, s) && w in s.workers && s.workers[w].Leaving? && !s.workers[w].stop
    requires OnlyLock(s, s.workers[w].hold)
    ensures Arrives(c, s0, ls, s') && Ready(s', w) && s'.queue == s.queue && s'.store == s.store
  {
    ls, s' := DoLeave(c, s0, pre, s, w);
  }

  /** Worker `w` completes the first task of the queue. */
  lemma Turn(c: Config, s0: System, pre: seq<Label>, s: System, w: nat) returns (ls: seq<Label>, s': System)
    requires Arrives(c, s0, pre, s) && Ready(s, w) && s.queue != []
    ensures Arrives(c, s0, ls, s') && Ready(s', w) && s'.queue == s.queue[1..]
    ensures Succeeded(s', s.queue[0].id) && forall id | Succeeded(s, id) :: Succeeded(s', id)
  {
    ls, s' := TakeUp(c, s0, pre, s, w);
    assert forall id | Succeeded(s, id) :: Succeeded(s', id);
    ls, s' := Succeed(c, s0, ls, s', w, s.queue[0]);
    ls, s' := GiveBack(c, s0, ls, s', w);
  }

  /** A task that succeeded but is queued once more gets locked once more. */
  lemma {:induction false} UntilAgain(
    c: Config, s0: System, pre: seq<Label>, s: System, w: nat, id: TaskId, k: nat)
    returns (ls: seq<Label>, s': System, t: Task)
    requires Arrives(c, s0, pre, s) && Ready(s, w) && Succeeded(s, id)
    requires k < |s.queue| && s.queue[k].id == id
    ensures Arrives(c, s0, ls, s') && Working(s', w, t) && t.id == id && Succeeded(s', id)
    decreases k
  {
    if k == 0 {
      ls, s' := TakeUp(c, s0, pre, s, w);
      t := s.queue[0];
    } else {
      ls, s' := Turn(c, s0, pre, s, w);
      ls, s', t := UntilAgain(c, s0, ls, s', w, id, k - 1);
    }
  }

  lemma WaitForLocks(c: Config, s: System, w: nat) returns (ls: seq<Label>, s': System)
    requires w in s.workers && forall v | v in s.workers :: s.workers[v].Idle?
    ensures Arrives(c, s, ls, s') && Ready(s', w) && s'.queue == s.queue
  {
    var last := AllExpire(s.locks);
    var d := if s.now < last then last - s.now else 0.0;
    ls, s' := Do(c, s, [], s, Tick(d));
  }

  lemma QueuedAgain(s: System, order: seq<TaskId>) returns (k: nat)
    requires Core(s) && CanRecover(s, order) && s.queue != []
    ensures 0 < k < |RecoverStep(s, order).queue| && RecoverStep(s, order).queue[k].id == s.queue[0].id
  {
    var id := s.queue[0].id;
    assert Placed(s, s.queue[0], InQueue);
    assert id in s.place <==> Stores.Active(s.store, id);
    var j := PayloadOf(s.store, order, id);
    k := |s.queue| + j;
    assert (s.queue + Payloads(s.store, order))[k] == Payloads(s.store, order)[j];
  }

  lemma PayloadOf(s: Store, order: seq<TaskId>, id: TaskId) returns (j: nat)
    requires Keyed(s) && Enumerates(order, s) && Stores.Active(s, id)
    ensures j < |Payloads(s, order)| && Payloads(s, order)[j].id == id
  {
    PayloadsExact(s, order);
    var p := Demote(s.records[id]);
    assert p.id in order && p in Payloads(s, order);
    j :| 0 <= j < |Payloads(s, order)| && Payloads(s, order)[j] == p;
  }

  /**
   * Any surviving queue will do: after recovery some orderly run completes its first task and
   * is then about to start that task again.
   */
  lemma FinishedRunsAgain(c: Config, s: System, order: seq<TaskId>, w: nat)
    returns (ls: seq<Label>, s': System, id: TaskId)
    requires Core(s) && CanRecover(s, order) && s.queue != [] && w in s.workers
    ensures Arrives(c, RecoverStep(s, order), ls, s') && Succeeded(s', id)
    ensures Enabled(c, s', Start(w, CHECKPOINT)) && RunningIn(Next(c, s', Start(w, CHECKPOINT)), id)
  {
    var s0 := RecoverStep(s, order);
    var k := QueuedAgain(s, order);
    id := s.queue[0].id;
    RecoveredAreIdle(s, order, w);
    ls, s' := WaitForLocks(c, s0, w);
    ls, s' := Turn(c, s0, ls, s', w);
    var t;
    ls, s', t := UntilAgain(c, s0, ls, s', w, id, k - 1);
    StartsAgain(c, s', w, t);
  }

  lemma StartsAgain(c: Config, s: System, w: nat, t: Task)
    requires Working(s, w, t)
    ensures Enabled(c, s, Start(w, CHECKPOINT)) && RunningIn(Next(c, s, Start(w, CHECKPOINT)), t.id)
  {
    assert Next(c, s, Start(w, CHECKPOINT)).store.records[t.id] == Started(t, CHECKPOINT);
  }

  lemma RecoveredAreIdle(s: System, order: seq<TaskId>, w: nat)
    requires w in s.workers
    ensures w in RecoverStep(s, order).workers
    ensures forall v | v in RecoverStep(s, order).workers :: RecoverStep(s, order).workers[v].Idle?
  {}

  // ---- exactly when a restart is safe ----------------------------------------

  /** In all orderly runs from `s`, every step moves records along the life cycle only. */
  ghost predicate KeepsLifecycle(c: Config, s: System) {
    forall ls, t, l | Arrives(c, s, ls, t) && Enabled(c, t, l) && QueueLost(t, l) :: StoreEvolves(t, Next(c, t, l))
  }

  /** In all orderly runs from `s`, a record that has become terminal stays as it is. */
  ghost predicate KeepsTerminals(c: Config, s: System) {
    forall ls, t, ms, u | Arrives(c, s, ls, t) && Arrives(c, t, ms, u) :: TerminalsStay(t, u)
  }

  predicate TerminalsStay(t: System, u: System) {
    forall id | id in t.store.records && (t.store.records[id].status.Success? || t.store.records[id].status.Failed?) ::
      id in u.store.records && u.store.records[id] == t.store.records[id]
  }

  lemma LostQueueIsSafe(c: Config, s: System, order: seq<TaskId>)
    requires Core(s) && CanRecover(s, order) && s.queue == []
    ensures KeepsLifecycle(c, RecoverStep(s, order)) && KeepsTerminals(c, RecoverStep(s, order))
  {
    var s0 := RecoverStep(s, order);
    CoreRecover(s, order);
    forall ls, t, l | Arrives(c, s0, ls, t) && Enabled(c, t, l) && QueueLost(t, l)
      ensures StoreEvolves(t, Next(c, t, l))
    {
      CoreRun(c, s0, ls);
      LifecycleStep(c, t, l);
    }
    forall ls, t, ms, u | Arrives(c, s0, ls, t) && Arrives(c, t, ms, u)
      ensures TerminalsStay(t, u)
    {
      CoreRun(c, s0, ls);
      forall id | id in t.store.records && (t.store.records[id].status.Success? || t.store.records[id].status.Failed?)
        ensures id in u.store.records && u.store.records[id] == t.store.records[id]
      {
        TerminalIsAbsorbing(c, t, ms, id);
      }
    }
  }

  lemma SurvivingQueueIsUnsafe(c: Config, s: System, order: seq<TaskId>, w: nat)
    requires Core(s) && CanRecover(s, order) && s.queue != [] && w in s.workers
    ensures !KeepsLifecycle(c, RecoverStep(s, order)) && !KeepsTerminals(c, RecoverStep(s, order))
  {
    var s0 := RecoverStep(s, order);
    var ls, t, id := FinishedRunsAgain(c, s, order, w);
    var l := Start(w, CHECKPOINT);
    var u := Next(c, t, l);
    assert Run(c, t, []) == t;
    var ms, u' := Do(c, t, [], t, l);
    assert Arrives(c, t, ms, u) && QueueLost(t, l);
    assert !Evolves(t.store.records[id], u.store.records[id]);
    assert !StoreEvolves(t, u) && !TerminalsStay(t, u);
  }

  /**
   * Life-cycle safety after a restart, exactly: in all orderly runs from the recovered state
   * statuses move along the life cycle only, and terminal records stay, iff nothing of the
   * queue survived, full or empty as it may have been.
   */
  lemma RestartIsSafeIff(c: Config, s: System, kept: set<TaskId>, order: seq<TaskId>, w: nat)
    requires Core(s) && CanRecover(s, order) && w in s.workers
    ensures KeepsLifecycle(c, Restarted(s, kept, order)) <==> Surviving(s.queue, kept) == []
    ensures KeepsTerminals(c, Restarted(s, kept, order)) <==> Surviving(s.queue, kept) == []
  {
    LossKeepsStartup(s, kept, order);
    if Surviving(s.queue, kept) == [] {
      LostQueueIsSafe(c, LoseStep(s, kept), order);
    } else {
      SurvivingQueueIsUnsafe(c, LoseStep(s, kept), order, w);
    }
  }

  // ---- such states are reached -----------------------------------------------

  const ONLY := TaskId("1")

  lemma ReachQueued(c: Config) returns (ls: seq<Label>, s: System)
    ensures Arrives(c, Init({0}), ls, s) && s.queue != [] && s.handlers == map[]
    ensures s.workers == map[0 := Idle] && s.store.records.Keys == {ONLY}
  {
    ls, s := Do(c, Init({0}), [], Init({0}), Create(ONLY, "p", "", "", ""));
    ls, s := Do(c, Init({0}), ls, s, EnqueueNew(ONLY));
  }

  lemma ReachRestart(c: Config) returns (ls: seq<Label>, s: System)
    ensures Arrives(c, Init({0}), ls, s) && Core(s)
    ensures s.queue != [] && 0 in s.workers && CanRecover(s, [ONLY])
    ensures s.store.records.Keys == {ONLY}
  {
    ls, s := ReachQueued(c);
    ls, s := Do(c, Init({0}), ls, s, Cancel(0));
    CoreInit({0});
    CoreRun(c, Init({0}), ls);
    assert [ONLY][0] == ONLY && forall id :: id in [ONLY] <==> id == ONLY;
  }

  /** A run to a restart that finds an unfinished task in the queue, and on to its second start. */
  lemma SurvivingQueueBreaksLifecycle(c: Config)
    returns (ls: seq<Label>, s: System, ls': seq<Label>, s': System, id: TaskId)
    ensures Leads(c, Init({0}), ls, s) && Leads(c, Init({0}), ls', s') && ls <= ls'
    ensures Succeeded(s, id) && RunningIn(s', id)
  {
    ls, s := ReachRestart(c);
    var more, t;
    more, t, id := FinishedRunsAgain(c, s, [ONLY], 0);
    ls, s := Do(c, Init({0}), ls, s, Recover([ONLY]));
    RunConcat(c, Init({0}), ls, more);
    ls, s := ls + more, t;
    ls', s' := Do(c, Init({0}), ls, s, Start(0, CHECKPOINT));
  }
}
