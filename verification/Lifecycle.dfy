/**
 * What a task record can be, and how it can change, over whole runs. `transition` checks
 * nothing, so all of this rests on the single carrier of `Conservation`.
 */
module Lifecycle {
  import opened Wrappers
  import opened Tasks
  import opened Scheduling
  import opened Protocol
  import opened Conservation

  // ---- the invariant ---------------------------------------------------------

  predicate RecordOk(c: Config, t: Task) {
    && (t.status.Pending? ==> t.mode.Unknown? && t.retryCount == 0)
    && (t.status.Running? || t.status.Success? || t.status.Interrupted? ==> DecidedMode(t.requirement, t.mode))
    && t.retryCount <= RetryLimit(c.maxRetries)
  }

  /** The task is on its way to another attempt. */
  predicate Due(s: System, id: TaskId) {
    && id in s.place
    && match s.place[id]
       case AtHandler => true
       case InQueue => true
       case InHand(w) => w in s.workers && !s.workers[w].Streaming?
       case Stranded => false
  }

  predicate WithinBudget(s: System, id: TaskId)
    requires id in s.store.records
  {
    Count(s.attempts, id) + (if Due(s, id) then 1 else 0)
      <= s.store.records[id].retryCount + Count(s.recoveries, id) + 1
  }

  predicate RecordsOk(c: Config, s: System) {
    && s.attempts.Keys == s.recoveries.Keys == s.store.records.Keys
    && forall id | id in s.store.records :: RecordOk(c, s.store.records[id]) && WithinBudget(s, id)
  }

  // ---- preservation ----------------------------------------------------------

  lemma RecordsCreate(c: Config, s: System, t: Task)
    requires Core(s) && RecordsOk(c, s) && t.id !in s.store.records
    requires t.status.Pending? && t.mode.Unknown? && t.retryCount == 0
    ensures RecordsOk(c, CreateStep(s, t))
  {
    var s' := CreateStep(s, t);
    SaveSetsRecord(s.store, t);
    forall id | id in s'.store.records
      ensures RecordOk(c, s'.store.records[id]) && WithinBudget(s', id)
    {
      if id != t.id {
        assert WithinBudget(s, id);
        assert Due(s', id) <==> Due(s, id);
      } else {
        assert id !in s.attempts;
      }
    }
  }

  /** A step that writes no record, counts nothing and makes no task newly due. */
  lemma RecordsKept(c: Config, s: System, s': System)
    requires RecordsOk(c, s)
    requires s'.store == s.store && s'.attempts == s.attempts && s'.recoveries == s.recoveries
    requires forall id | Due(s', id) :: Due(s, id)
    ensures RecordsOk(c, s')
  {
    forall id | id in s'.store.records
      ensures RecordOk(c, s'.store.records[id]) && WithinBudget(s', id)
    {
      assert WithinBudget(s, id);
    }
  }

  /** Worker `w` stores `t` over the record of its task. */
  lemma RecordsWrite(c: Config, s: System, w: nat, t: Task, a: Worker)
    requires Core(s) && RecordsOk(c, s) && w in s.workers && Carried(s.workers[w]).Some?
    requires t.id == Carried(s.workers[w]).value.id && RecordOk(c, t)
    requires t.id in s.store.records && WithinBudget(Write(s, w, t, a), t.id)
    ensures RecordsOk(c, Write(s, w, t, a))
  {
    var s' := Write(s, w, t, a);
    WriteSetsRecord(s.store, t);
    assert s'.store.records.Keys == s.store.records.Keys;
    forall id | id in s'.store.records && id != t.id
      ensures RecordOk(c, s'.store.records[id]) && WithinBudget(s', id)
    {
      OtherWithinBudget(c, s, w, t, a, id);
    }
  }

  lemma OtherWithinBudget(c: Config, s: System, w: nat, t: Task, a: Worker, id: TaskId)
    requires Core(s) && RecordsOk(c, s) && w in s.workers && id in s.store.records && id != t.id
    requires Carried(s.workers[w]).Some? && t.id == Carried(s.workers[w]).value.id
    ensures var s' := Write(s, w, t, a);
            id in s'.store.records && s'.store.records[id] == s.store.records[id] && WithinBudget(s', id)
  {
    WriteSetsRecord(s.store, t);
    assert WithinBudget(s, id);
    OtherDue(s, w, t, a, id);
  }

  /** A start pays with the attempt that was due, a retry with its counter. */
  lemma OwnBudget(c: Config, s: System, w: nat, t: Task, a: Worker)
    requires Core(s) && RecordsOk(c, s) && w in s.workers && Produces(c, s.workers[w], t, a)
    ensures t.id in s.store.records && t.id == Carried(s.workers[w]).value.id && RecordOk(c, t)
    ensures WithinBudget(Write(s, w, t, a), t.id)
  {
    OwnRecord(c, s, w, t, a);
    var s' := Write(s, w, t, a);
    WriteSetsRecord(s.store, t);
    assert Due(s', t.id) <==> a.Retrying?;
  }

  lemma OwnRecord(c: Config, s: System, w: nat, t: Task, a: Worker)
    requires Core(s) && RecordsOk(c, s) && w in s.workers && Produces(c, s.workers[w], t, a)
    ensures Carried(s.workers[w]).Some?
    ensures var u := Carried(s.workers[w]).value;
            && t.id == u.id && u.id in s.store.records && s.store.records[u.id] == u
            && RecordOk(c, u) && RecordOk(c, t) && WithinBudget(s, u.id)
            && (Due(s, u.id) <==> s.workers[w].Locked?)
  {
    assert HandOk(s, w);
    assert WithinBudget(s, t.id);
  }

  lemma OtherDue(s: System, w: nat, t: Task, a: Worker, id: TaskId)
    requires Core(s) && w in s.workers && id in s.store.records && id != t.id
    requires Carried(s.workers[w]).Some? && t.id == Carried(s.workers[w]).value.id
    ensures Due(Write(s, w, t, a), id) <==> Due(s, id)
  {
    assert id in s.place ==> Present(s, id);
  }

  lemma RecordsPush(c: Config, s: System, w: nat, a: Worker)
    requires Core(s) && RecordsOk(c, s) && w in s.workers && (s.workers[w].Refused? || s.workers[w].Retrying?)
    requires Carried(a).None?
    ensures RecordsOk(c, Push(s, w, s.workers[w].task, a))
  {
    var s' := Push(s, w, s.workers[w].task, a);
    assert HandOk(s, w);
    forall id | Due(s', id)
      ensures Due(s, id)
    {
      assert id in s.place && Present(s, id);
    }
    RecordsKept(c, s, s');
  }

  lemma RecordsDequeue(c: Config, s: System, w: nat)
    requires Core(s) && RecordsOk(c, s) && Enabled(c, s, Dequeue(w))
    ensures RecordsOk(c, Next(c, s, Dequeue(w)))
  {
    var s' := Next(c, s, Dequeue(w));
    assert Placed(s, s.queue[0], InQueue);
    forall id | Due(s', id)
      ensures Due(s, id)
    {
      assert id in s.place && Present(s, id);
    }
    RecordsKept(c, s, s');
  }

  lemma RecordsDrop(c: Config, s: System, w: nat, a: Worker)
    requires Core(s) && RecordsOk(c, s) && w in s.workers && Carried(a).None?
    ensures RecordsOk(c, Drop(s, w, a))
  {
    var s' := Drop(s, w, a);
    assert HandOk(s, w);
    forall id | Due(s', id)
      ensures Due(s, id)
    {
      assert id in s.place && Present(s, id);
    }
    RecordsKept(c, s, s');
  }

  lemma RecordsRecover(c: Config, s: System, order: seq<TaskId>)
    requires Core(s) && RecordsOk(c, s)
    ensures RecordsOk(c, RecoverStep(s, order))
  {
    var s' := RecoverStep(s, order);
    forall id | id in s'.store.records
      ensures RecordOk(c, s'.store.records[id]) && WithinBudget(s', id)
    {
      assert WithinBudget(s, id);
      assert id in s.place <==> Stores.Active(s.store, id);
    }
  }

  predicate Quiet(l: Label) {
    l.Tick? || l.Acquire? || l.Refresh? || l.StopHeartbeat? || l.Release?
  }

  lemma RecordsHandler(c: Config, s: System, l: Label)
    requires Core(s) && RecordsOk(c, s) && Enabled(c, s, l) && (l.EnqueueNew? || l.CrashHandler? || l.LoseQueue?)
    ensures RecordsOk(c, Next(c, s, l))
  {
    var s' := Next(c, s, l);
    assert !l.LoseQueue? ==> Placed(s, s.handlers[l.id], AtHandler);
    forall id | Due(s', id)
      ensures Due(s, id)
    {
      assert id in s.place;
    }
    RecordsKept(c, s, s');
  }

  lemma QuietKeeps(c: Config, s: System, l: Label)
    requires Enabled(c, s, l) && Quiet(l)
    ensures var s' := Next(c, s, l);
            && s'.store == s.store && s'.attempts == s.attempts && s'.recoveries == s.recoveries
            && s'.place == s.place && s'.workers.Keys == s.workers.Keys
            && forall w | w in s.workers :: s.workers[w].Streaming? ==> s'.workers[w].Streaming?
  {}

  lemma RecordsQuiet(c: Config, s: System, l: Label)
    requires Core(s) && RecordsOk(c, s) && Enabled(c, s, l) && Quiet(l)
    ensures RecordsOk(c, Next(c, s, l))
  {
    QuietKeeps(c, s, l);
    RecordsSamePlaces(c, s, Next(c, s, l));
  }

  lemma RecordsSamePlaces(c: Config, s: System, s': System)
    requires Core(s) && RecordsOk(c, s)
    requires s'.store == s.store && s'.attempts == s.attempts && s'.recoveries == s.recoveries
    requires s'.place == s.place && s'.workers.Keys == s.workers.Keys
    requires forall w | w in s.workers :: s.workers[w].Streaming? ==> s'.workers[w].Streaming?
    ensures RecordsOk(c, s')
  {
    assert forall id | Due(s', id) :: Due(s, id);
    RecordsKept(c, s, s');
  }

  lemma RecordsWorkerStep(c: Config, s: System, l: Label)
    requires Core(s) && RecordsOk(c, s) && Enabled(c, s, l)
    requires Writes(s, l) || l.Cancel? || l.Abandon? || l.Crash?
    ensures RecordsOk(c, Next(c, s, l))
  {
    if Writes(s, l) {
      var t, a := WriterStep(c, s, l);
      OwnBudget(c, s, l.w, t, a);
      RecordsWrite(c, s, l.w, t, a);
    } else if l.Cancel? {
      var a := CancelDrops(c, s, l.w);
      RecordsDrop(c, s, l.w, a);
    } else if l.Abandon? {
      var b, a := AbandonDrops(c, s, l.w);
      CoreAsked(c, s, s.workers[l.w]);
      RecordsKept(c, s, b);
      RecordsDrop(c, b, l.w, a);
    } else {
      RecordsDrop(c, s, l.w, Stopped);
    }
  }

  lemma RecordsRequeue(c: Config, s: System, l: Label)
    requires Core(s) && RecordsOk(c, s) && Enabled(c, s, l) && (l.Requeue? || l.RetryEnqueue?)
    ensures RecordsOk(c, Next(c, s, l))
  {
    RecordsPush(c, s, l.w, if l.Requeue? then Idle else Leaving(s.workers[l.w].hold, false));
  }

  lemma RecordsStep(c: Config, s: System, l: Label)
    requires Core(s) && RecordsOk(c, s) && Enabled(c, s, l)
    ensures RecordsOk(c, Next(c, s, l))
  {
    if Quiet(l) {
      RecordsQuiet(c, s, l);
    } else if l.EnqueueNew? || l.CrashHandler? || l.LoseQueue? {
      RecordsHandler(c, s, l);
    } else if l.Dequeue? {
      RecordsDequeue(c, s, l.w);
    } else if l.Requeue? || l.RetryEnqueue? {
      RecordsRequeue(c, s, l);
    } else if l.Create? {
      RecordsCreate(c, s, Fresh(l.id, l.project, l.requirement, l.workDir, l.configJson));
    } else if l.Recover? {
      RecordsRecover(c, s, l.order);
    } else {
      RecordsWorkerStep(c, s, l);
    }
  }

  lemma {:induction false} RecordsRun(c: Config, s: System, ls: seq<Label>)
    requires Core(s) && RecordsOk(c, s) && OrderlyRun(c, s, ls)
    ensures CanRun(c, s, ls) && Core(Run(c, s, ls)) && RecordsOk(c, Run(c, s, ls))
    decreases |ls|
  {
    if ls != [] {
      CoreStep(c, s, ls[0]);
      RecordsStep(c, s, ls[0]);
      RecordsRun(c, Next(c, s, ls[0]), ls[1..]);
    }
  }

  // ---- status changes --------------------------------------------------------

  /** A record is left alone, or keeps its request and changes its status as the life cycle has it. */
  predicate Moves(t: Task, u: Task) {
    || t == u
    || (&& t.id == u.id && t.project == u.project && t.requirement == u.requirement
        && t.workDir == u.workDir && t.configJson == u.configJson
        && match t.status
           case Pending => u.status.Running? || u.status.Failed?
           case Running => u.status.Success? || u.status.Failed? || u.status.Interrupted?
           case Interrupted => u.status.Running? || u.status.Failed?
           case Success => false
           case Failed => false)
  }

  /** Worker `w` executes the task `id` in a way that step `l` can end. */
  predicate EndsStream(s: System, l: Label, id: TaskId) {
    l.Finish? && Carries(s, l.w, id)
  }

  /** The record `t` of a task becomes `u` in the step `l`. */
  predicate StoresAs(c: Config, s: System, l: Label, t: Task, u: Task) {
    var again := EndsStream(s, l, t.id) && l.outcome.Retriable? && t.retryCount < c.maxRetries;
    var starts := l.Start? && Carries(s, l.w, t.id);
    var begins := starts && (t.requirement != "" || l.probe.checkpointExists == Some(true));
    && (u.status.Success? && !t.status.Success? <==> EndsStream(s, l, t.id) && l.outcome.Completed?)
    && (u.status.Running? && !t.status.Running? <==> begins)
    && (u.status.Interrupted? && !t.status.Interrupted? <==>
          || again
          || (EndsStream(s, l, t.id) && l.outcome.Cancelled?)
          || (l.Cancel? && Carries(s, l.w, t.id) && s.workers[l.w].Streaming?)
          || (l.Recover? && t.status.Running?))
    && (u.status.Failed? && !t.status.Failed? <==>
          || (l.EngineFail? && Carries(s, l.w, t.id))
          || (starts && !begins)
          || (EndsStream(s, l, t.id) && !again && !l.outcome.Completed? && !l.outcome.Cancelled?))
    && u.retryCount == t.retryCount + (if again then 1 else 0)
  }

  lemma WriteStores(s: System, w: nat, t: Task, a: Worker, id: TaskId)
    requires Core(s) && w in s.workers && id in s.store.records
    requires Carried(s.workers[w]).Some? && t.id == Carried(s.workers[w]).value.id
    ensures var s' := Write(s, w, t, a);
            && id in s'.store.records
            && s'.store.records[id] == (if Carries(s, w, id) then t else s.store.records[id])
    ensures Carries(s, w, id) ==> Carried(s.workers[w]) == Some(s.store.records[id])
  {
    WriteSetsRecord(s.store, t);
    assert HandOk(s, w);
  }

  lemma StartStores(c: Config, s: System, w: nat, probe: Probe, id: TaskId)
    requires Core(s) && Enabled(c, s, Start(w, probe)) && id in s.store.records
    ensures id in Next(c, s, Start(w, probe)).store.records
    ensures StoresAs(c, s, Start(w, probe), s.store.records[id], Next(c, s, Start(w, probe)).store.records[id])
  {
    var Locked(t, h) := s.workers[w];
    var t' := Started(t, probe);
    DecisionTable(t.requirement, probe);
    WriteStores(s, w, t', if t'.IsTerminal() then Leaving(h, false) else Streaming(t', h), id);
    assert HandOk(s, w);
  }

  lemma FinishStores(c: Config, s: System, w: nat, outcome: Outcome, id: TaskId)
    requires Core(s) && Enabled(c, s, Finish(w, outcome)) && id in s.store.records
    ensures id in FinishStep(c, s, w, outcome).store.records
    ensures StoresAs(c, s, Finish(w, outcome), s.store.records[id], FinishStep(c, s, w, outcome).store.records[id])
  {
    var Streaming(t, h) := s.workers[w];
    var t' := AfterStream(c.maxRetries, t, outcome);
    WriteStores(s, w, t', if outcome.Retriable? && !t'.IsTerminal() then Retrying(t', h) else Leaving(h, outcome.Cancelled?), id);
    assert HandOk(s, w);
  }

  lemma EngineFailStores(c: Config, s: System, w: nat, id: TaskId)
    requires Core(s) && Enabled(c, s, EngineFail(w)) && id in s.store.records
    ensures id in Next(c, s, EngineFail(w)).store.records
    ensures StoresAs(c, s, EngineFail(w), s.store.records[id], Next(c, s, EngineFail(w)).store.records[id])
  {
    var Locked(t, h) := s.workers[w];
    WriteStores(s, w, t.(status := Failed), Leaving(h, false), id);
    assert HandOk(s, w);
  }

  lemma CancelStores(c: Config, s: System, w: nat, id: TaskId)
    requires Core(s) && Enabled(c, s, Cancel(w)) && id in s.store.records && s.workers[w].Streaming?
    ensures id in Next(c, s, Cancel(w)).store.records
    ensures StoresAs(c, s, Cancel(w), s.store.records[id], Next(c, s, Cancel(w)).store.records[id])
  {
    FinishStores(c, s, w, Cancelled, id);
    assert HandOk(s, w);
  }

  /** Which steps store which status, exactly: of all steps of all participants. */
  lemma StatusStep(c: Config, s: System, l: Label, id: TaskId)
    requires Core(s) && Enabled(c, s, l) && id in s.store.records
    ensures id in Next(c, s, l).store.records
    ensures StoresAs(c, s, l, s.store.records[id], Next(c, s, l).store.records[id])
  {
    if l.Start? {
      StartStores(c, s, l.w, l.probe, id);
    } else if l.Finish? {
      FinishStores(c, s, l.w, l.outcome, id);
    } else if l.EngineFail? {
      EngineFailStores(c, s, l.w, id);
    } else if l.Cancel? && s.workers[l.w].Streaming? {
      CancelStores(c, s, l.w, id);
    } else {
      OtherStores(c, s, l, id);
    }
  }

  lemma OtherStores(c: Config, s: System, l: Label, id: TaskId)
    requires Core(s) && Enabled(c, s, l) && !Writes(s, l) && id in s.store.records
    ensures id in Next(c, s, l).store.records
    ensures StoresAs(c, s, l, s.store.records[id], Next(c, s, l).store.records[id])
  {
    if l.Create? {
      SaveSetsRecord(s.store, Fresh(l.id, l.project, l.requirement, l.workDir, l.configJson));
    } else if !l.Recover? {
      OthersKeepTheStore(c, s, l);
    }
  }

  ghost predicate StoreEvolves(s: System, s': System) {
    forall id | id in s.store.records ::
      id in s'.store.records && Evolves(s.store.records[id], s'.store.records[id])
  }

  lemma WriteEvolves(c: Config, s: System, w: nat, t: Task, a: Worker)
    requires Core(s) && w in s.workers && Produces(c, s.workers[w], t, a)
    ensures StoreEvolves(s, Write(s, w, t, a))
  {
    assert HandOk(s, w);
    ProducesOnward(c, s.workers[w], t, a);
    WriteSetsRecord(s.store, t);
  }

  /**
   * Life-cycle safety: each step changes a stored status only along PENDING -> RUNNING/FAILED,
   * RUNNING -> SUCCESS/FAILED/INTERRUPTED, INTERRUPTED -> RUNNING/FAILED, and no step drops
   * a record or rewrites its request.
   */
  lemma LifecycleStep(c: Config, s: System, l: Label)
    requires Core(s) && Enabled(c, s, l)
    ensures StoreEvolves(s, Next(c, s, l))
  {
    if Writes(s, l) {
      var t, a := WriterStep(c, s, l);
      WriteEvolves(c, s, l.w, t, a);
    } else if l.Create? {
      SaveSetsRecord(s.store, Fresh(l.id, l.project, l.requirement, l.workDir, l.configJson));
    } else if !l.Recover? {
      OthersKeepTheStore(c, s, l);
    }
  }

  lemma EvolvesIsMoves(t: Task, u: Task)
    ensures Evolves(t, u) <==> Moves(t, u)
  {}

  /** The same, status by status. */
  lemma LifecycleMoves(c: Config, s: System, l: Label, id: TaskId)
    requires Core(s) && Enabled(c, s, l) && id in s.store.records
    ensures id in Next(c, s, l).store.records && Moves(s.store.records[id], Next(c, s, l).store.records[id])
  {
    LifecycleStep(c, s, l);
    EvolvesIsMoves(s.store.records[id], Next(c, s, l).store.records[id]);
  }

  /** SUCCESS and FAILED are absorbing: in orderly runs the record never changes again. */
  lemma {:induction false} TerminalIsAbsorbing(c: Config, s: System, ls: seq<Label>, id: TaskId)
    requires Core(s) && OrderlyRun(c, s, ls)
    requires id in s.store.records && (s.store.records[id].status.Success? || s.store.records[id].status.Failed?)
    ensures CanRun(c, s, ls)
    ensures id in Run(c, s, ls).store.records && Run(c, s, ls).store.records[id] == s.store.records[id]
    decreases |ls|
  {
    if ls != [] {
      CoreStep(c, s, ls[0]);
      LifecycleStep(c, s, ls[0]);
      TerminalIsAbsorbing(c, Next(c, s, ls[0]), ls[1..], id);
    }
  }

  // ---- bounded attempts ------------------------------------------------------

  /** How many steps of the run take the stored status of `id` into RUNNING. */
  ghost function Starts(c: Config, s: System, ls: seq<Label>, id: TaskId): nat
    requires CanRun(c, s, ls)
    decreases |ls|
  {
    if ls == [] then 0
    else
      var s' := Next(c, s, ls[0]);
      (if !RunningIn(s, id) && RunningIn(s', id) then 1 else 0) + Starts(c, s', ls[1..], id)
  }

  /** How many recoveries of the run find `id` unfinished. */
  ghost function Recovered(c: Config, s: System, ls: seq<Label>, id: TaskId): nat
    requires CanRun(c, s, ls)
    decreases |ls|
  {
    if ls == [] then 0
    else
      (if ls[0].Recover? && Stores.Active(s.store, id) then 1 else 0)
      + Recovered(c, Next(c, s, ls[0]), ls[1..], id)
  }

  lemma WriteCounts(c: Config, s: System, w: nat, t: Task, a: Worker, id: TaskId)
    requires Core(s) && w in s.workers && Produces(c, s.workers[w], t, a)
    ensures var s' := Write(s, w, t, a);
            && Count(s'.attempts, id)
               == Count(s.attempts, id) + (if !RunningIn(s, id) && RunningIn(s', id) then 1 else 0)
            && Count(s'.recoveries, id) == Count(s.recoveries, id)
  {
    assert HandOk(s, w);
    ProducesOnward(c, s.workers[w], t, a);
    WriteSetsRecord(s.store, t);
  }

  /** The two counters in the state count what they are meant to count. */
  lemma CountersStep(c: Config, s: System, l: Label, id: TaskId)
    requires Core(s) && RecordsOk(c, s) && Enabled(c, s, l)
    ensures var s' := Next(c, s, l);
            && Count(s'.attempts, id)
               == Count(s.attempts, id) + (if !RunningIn(s, id) && RunningIn(s', id) then 1 else 0)
            && Count(s'.recoveries, id)
               == Count(s.recoveries, id) + (if l.Recover? && Stores.Active(s.store, id) then 1 else 0)
  {
    if Writes(s, l) {
      var t, a := WriterStep(c, s, l);
      WriteCounts(c, s, l.w, t, a, id);
    } else if l.Create? {
      SaveSetsRecord(s.store, Fresh(l.id, l.project, l.requirement, l.workDir, l.configJson));
      assert l.id !in s.attempts && l.id !in s.recoveries;
    } else if !l.Recover? {
      OthersKeepTheStore(c, s, l);
    }
  }

  lemma {:induction false} CountersRun(c: Config, s: System, ls: seq<Label>, id: TaskId)
    requires Core(s) && RecordsOk(c, s) && OrderlyRun(c, s, ls)
    ensures CanRun(c, s, ls)
    ensures Count(Run(c, s, ls).attempts, id) == Count(s.attempts, id) + Starts(c, s, ls, id)
    ensures Count(Run(c, s, ls).recoveries, id) == Count(s.recoveries, id) + Recovered(c, s, ls, id)
    decreases |ls|
  {
    if ls != [] {
      CoreStep(c, s, ls[0]);
      RecordsStep(c, s, ls[0]);
      CountersStep(c, s, ls[0], id);
      CountersRun(c, Next(c, s, ls[0]), ls[1..], id);
    }
  }

  /**
   * Bounded attempts: over a whole orderly run a task enters RUNNING at most once per retry counted on
   * its record, once per recovery, and once more; and the retry counter respects the limit.
   */
  lemma BoundedAttempts(c: Config, workers: set<nat>, ls: seq<Label>, id: TaskId)
    requires OrderlyRun(c, Init(workers), ls)
    ensures CanRun(c, Init(workers), ls)
    ensures id in Run(c, Init(workers), ls).store.records ==>
              var t := Run(c, Init(workers), ls).store.records[id];
              && t.retryCount <= (if c.maxRetries < 0 then 0 else c.maxRetries)
              && Starts(c, Init(workers), ls, id) <= t.retryCount + Recovered(c, Init(workers), ls, id) + 1
  {
    CoreInit(workers);
    RecordsRun(c, Init(workers), ls);
    CountersRun(c, Init(workers), ls, id);
    var s := Run(c, Init(workers), ls);
    assert id in s.store.records ==> WithinBudget(s, id);
  }

  // ---- snapshots -------------------------------------------------------------

  /** Mode and retries fit the status. */
  predicate Agrees(t: Task) {
    match t.status
    case Pending => t.mode == Unknown && t.retryCount == 0
    case Failed => true
    case _ => t.mode != Unknown && (t.requirement == "" ==> t.mode == Resume)
  }

  /**
   * Snapshot agreement in orderly runs: every queued payload is the stored record and waits for an attempt;
   * PENDING means not decided and not retried; RUNNING, SUCCESS and INTERRUPTED carry a
   * decided mode, which is RESUME for the empty requirement.
   */
  lemma SnapshotAgreement(c: Config, workers: set<nat>, ls: seq<Label>)
    requires OrderlyRun(c, Init(workers), ls)
    ensures CanRun(c, Init(workers), ls)
    ensures var s := Run(c, Init(workers), ls);
            && (forall t | t in s.queue ::
                  && t.id in s.store.records && s.store.records[t.id] == t
                  && (t.status.Pending? || t.status.Interrupted?))
            && (forall id | id in s.store.records :: Agrees(s.store.records[id]))
  {
    CoreInit(workers);
    RecordsRun(c, Init(workers), ls);
    QueueMembers(Run(c, Init(workers), ls));
  }
}
