/**
 * The system never gets stuck: from every state that crashes and cancellations can leave, and
 * however the environment answers, some schedule of the workers uses up work, and finally
 * finishes it. An orphaned lock costs time, at most one TTL for every unit of work.
 */
module Contention {
  import opened Tasks
  import opened Scheduling
  import opened Protocol
  import opened Conservation
  import opened Lifecycle
  import opened Progress

  // ---- the environment -------------------------------------------------------

  type Ending = o: Outcome | !o.Cancelled? witness Completed

  /** What a worker meets with: its engine, the scheduler's checks, the end of its stream. */
  datatype Answer = Answer(engineOk: bool, probe: Probe, outcome: Ending)

  /** The answers may depend on everything: time, records, queue, attempts so far. */
  type Environment = (System, nat) -> Answer

  /** The step agrees with the environment's answer. */
  predicate Allows(e: Environment, s: System, l: Label) {
    match l
    case EngineFail(w) => !e(s, w).engineOk
    case Start(w, probe) => e(s, w).engineOk && probe == e(s, w).probe
    case Finish(w, outcome) => outcome == e(s, w).outcome
    case _ => true
  }

  ghost predicate Obeys(c: Config, s: System, ls: seq<Label>, e: Environment)
    requires CanRun(c, s, ls)
    decreases |ls|
  {
    ls == [] || (Allows(e, s, ls[0]) && Obeys(c, Next(c, s, ls[0]), ls[1..], e))
  }

  lemma {:induction false} ObeysSnoc(c: Config, s: System, ls: seq<Label>, l: Label, e: Environment)
    requires CanRun(c, s, ls) && Obeys(c, s, ls, e) && Enabled(c, Run(c, s, ls), l) && Allows(e, Run(c, s, ls), l)
    ensures CanRun(c, s, ls + [l]) && Obeys(c, s, ls + [l], e)
    decreases |ls|
  {
    Extend(c, s, ls, Run(c, s, ls), l);
    if ls == [] {
      assert [l][1..] == [];
    } else {
      ObeysSnoc(c, Next(c, s, ls[0]), ls[1..], l, e);
      assert (ls + [l])[1..] == ls[1..] + [l];
    }
  }

  // ---- leases run out --------------------------------------------------------

  /** Every lease runs out within one TTL. */
  predicate Expiring(c: Config, s: System) {
    forall p | p in s.locks :: s.locks[p].expires <= s.now + c.ttl
  }

  lemma ExpiringStep(c: Config, s: System, l: Label)
    requires Expiring(c, s) && Enabled(c, s, l)
    ensures Expiring(c, Next(c, s, l)) && s.now <= Next(c, s, l).now
  {
    if Writes(s, l) {
      var t, a := WriterStep(c, s, l);
    } else if l.Cancel? {
      var a := CancelDrops(c, s, l.w);
    } else if l.Abandon? {
      var b, a := AbandonDrops(c, s, l.w);
    } else {
      ExpiringOther(c, s, l);
    }
  }

  lemma ExpiringOther(c: Config, s: System, l: Label)
    requires Expiring(c, s) && Enabled(c, s, l) && !Writes(s, l) && !l.Cancel? && !l.Abandon?
    ensures Expiring(c, Next(c, s, l)) && s.now <= Next(c, s, l).now
  {}

  // ---- undisturbed runs ------------------------------------------------------

  /** A worker that will come back for more work. */
  predicate Alive(a: Worker) {
    !a.Stopped? && (a.Leaving? || a.Releasing? ==> !a.stop)
  }

  predicate HasWorker(s: System, w: nat) {
    w in s.workers && Alive(s.workers[w])
  }

  ghost predicate Calm(c: Config, s: System) {
    Core(s) && RecordsOk(c, s) && Expiring(c, s)
  }

  lemma AliveStep(c: Config, s: System, l: Label, w: nat)
    requires Enabled(c, s, l) && Undisturbed(l) && HasWorker(s, w)
    ensures HasWorker(Next(c, s, l), w)
  {}

  /**
   * `ls` leads from `s` to `t`, undisturbed and with the answers of `e`. Nothing gets lost on
   * the way, and work is used up or kept.
   */
  ghost predicate Proceeds(c: Config, s: System, ls: seq<Label>, t: System, e: Environment) {
    && Leads(c, s, ls, t) && AllUndisturbed(ls) && Obeys(c, s, ls, e)
    && Calm(c, t) && Work(c, t) <= Work(c, s)
    && NothingLost(s, t)
  }

  /** No further task is stranded, and no worker is gone. */
  ghost predicate NothingLost(s: System, t: System) {
    && (forall id | IsStranded(t, id) :: IsStranded(s, id))
    && (forall w | HasWorker(s, w) :: HasWorker(t, w))
  }

  lemma LosesNothing(c: Config, s: System, l: Label)
    requires Core(s) && Enabled(c, s, l) && Undisturbed(l)
    ensures NothingLost(s, Next(c, s, l))
  {
    var s' := Next(c, s, l);
    forall id | IsStranded(s', id)
      ensures IsStranded(s, id)
    {
      StrandedStep(c, s, l, id);
    }
    forall w | HasWorker(s, w)
      ensures HasWorker(s', w)
    {
      AliveStep(c, s, l, w);
    }
  }

  lemma Stay(c: Config, s: System, e: Environment)
    requires Calm(c, s)
    ensures Proceeds(c, s, [], s, e)
  {}

  /** One more step. */
  lemma Proceed(c: Config, s: System, ls: seq<Label>, t: System, l: Label, e: Environment)
    returns (ls': seq<Label>, t': System)
    requires Proceeds(c, s, ls, t, e) && Enabled(c, t, l) && Undisturbed(l) && Allows(e, t, l)
    ensures t' == Next(c, t, l) && Proceeds(c, s, ls', t', e)
    ensures Productive(t, l) ==> Work(c, t') < Work(c, s)
    ensures !Productive(t, l) ==> t'.store == t.store
  {
    ls', t' := Do(c, s, ls, t, l);
    ObeysSnoc(c, s, ls, l, e);
    KeepsCalm(c, t, l);
    WorkStep(c, t, l);
    if !Productive(t, l) {
      OthersKeepTheStore(c, t, l);
    }
    LosesNothing(c, t, l);
  }

  lemma KeepsCalm(c: Config, s: System, l: Label)
    requires Calm(c, s) && Enabled(c, s, l) && Undisturbed(l)
    ensures Calm(c, Next(c, s, l))
  {
    CoreStep(c, s, l);
    RecordsStep(c, s, l);
    ExpiringStep(c, s, l);
  }

  // ---- progress --------------------------------------------------------------

  /** The step the environment lets a locked or streaming worker take. */
  function BusyLabel(e: Environment, s: System, w: nat): Label
    requires w in s.workers
  {
    if s.workers[w].Streaming? then Finish(w, e(s, w).outcome)
    else if e(s, w).engineOk then Start(w, e(s, w).probe)
    else EngineFail(w)
  }

  lemma BusyEffect(c: Config, s: System, w: nat, e: Environment)
    requires w in s.workers && (s.workers[w].Locked? || s.workers[w].Streaming?)
    ensures var l := BusyLabel(e, s, w);
            Enabled(c, s, l) && Undisturbed(l) && Allows(e, s, l) && Productive(s, l) && Next(c, s, l).now == s.now
  {}

  lemma BusyWorks(c: Config, s: System, ls: seq<Label>, t: System, w: nat, e: Environment)
    returns (ls': seq<Label>, t': System)
    requires Proceeds(c, s, ls, t, e) && w in t.workers && (t.workers[w].Locked? || t.workers[w].Streaming?)
    ensures Proceeds(c, s, ls', t', e) && Work(c, t') < Work(c, s) && t'.now == t.now
  {
    BusyEffect(c, t, w, e);
    ls', t' := Proceed(c, s, ls, t, BusyLabel(e, t, w), e);
  }

  predicate Exiting(a: Worker) {
    a.Retrying? || a.Leaving? || a.Releasing?
  }

  function ExitingWorkers(s: System): set<nat> {
    set w | w in s.workers && Exiting(s.workers[w])
  }

  predicate NoneBusy(s: System) {
    forall w | w in s.workers :: !s.workers[w].Locked? && !s.workers[w].Streaming?
  }

  function ExitLabel(s: System, w: nat): Label
    requires w in s.workers
  {
    if s.workers[w].Retrying? then RetryEnqueue(w)
    else if s.workers[w].Leaving? then StopHeartbeat(w)
    else Release(w)
  }

  /** Worker `w` is one step further on its way out; the other workers are where they were. */
  predicate Exited(s: System, s': System, w: nat) {
    && w in s.workers && w in s'.workers
    && s'.now == s.now && s'.store == s.store && s'.workers == s.workers[w := s'.workers[w]]
    && !s'.workers[w].Locked? && !s'.workers[w].Streaming?
  }

  lemma ExitEffect(c: Config, s: System, w: nat)
    requires w in s.workers && Exiting(s.workers[w])
    ensures var l := ExitLabel(s, w);
            && Enabled(c, s, l) && Undisturbed(l) && !Productive(s, l)
            && Exited(s, Next(c, s, l), w)
            && ExitRank(Next(c, s, l).workers[w]) < ExitRank(s.workers[w])
  {
    var l := ExitLabel(s, w);
    assert Next(c, s, l).workers == s.workers[w := Next(c, s, l).workers[w]];
  }

  function ExitRank(a: Worker): nat {
    if a.Retrying? then 3 else if a.Leaving? then 2 else if a.Releasing? then 1 else 0
  }

  lemma {:induction false} ExitOne(c: Config, s: System, ls: seq<Label>, t: System, w: nat, e: Environment)
    returns (ls': seq<Label>, t': System)
    requires Proceeds(c, s, ls, t, e) && w in t.workers && Exiting(t.workers[w])
    ensures Proceeds(c, s, ls', t', e) && Exited(t, t', w) && !Exiting(t'.workers[w])
    decreases ExitRank(t.workers[w])
  {
    ExitEffect(c, t, w);
    var ls1, t1 := Proceed(c, s, ls, t, ExitLabel(t, w), e);
    ls', t' := ls1, t1;
    if Exiting(t1.workers[w]) {
      ls', t' := ExitOne(c, s, ls1, t1, w, e);
      ExitedFurther(t, t1, t', w);
    }
  }

  lemma ExitedFurther(s: System, s': System, s'': System, w: nat)
    requires Exited(s, s', w) && Exited(s', s'', w)
    ensures Exited(s, s'', w)
  {}

  lemma OneExitLess(s: System, s': System, w: nat)
    requires NoneBusy(s) && w in ExitingWorkers(s) && Exited(s, s', w) && !Exiting(s'.workers[w])
    ensures NoneBusy(s') && ExitingWorkers(s') < ExitingWorkers(s)
  {
    assert w !in ExitingWorkers(s');
    assert forall v | v in ExitingWorkers(s') :: v in ExitingWorkers(s);
  }

  /** All workers with a lock and nothing left to do give it back. */
  lemma {:induction false} ExitAll(c: Config, s: System, ls: seq<Label>, t: System, e: Environment)
    returns (ls': seq<Label>, t': System)
    requires Proceeds(c, s, ls, t, e) && NoneBusy(t)
    ensures Proceeds(c, s, ls', t', e) && NoneBusy(t') && ExitingWorkers(t') == {}
    ensures t'.now == t.now && t'.store == t.store
    decreases ExitingWorkers(t)
  {
    ls', t' := ls, t;
    if ExitingWorkers(t) != {} {
      var w :| w in ExitingWorkers(t);
      ls', t' := ExitOne(c, s, ls, t, w, e);
      OneExitLess(t, t', w);
      ls', t' := ExitAll(c, s, ls', t', e);
    }
  }

  /** No live lock, and nobody who has one to give back. */
  predicate Free(s: System) {
    && NoneBusy(s) && ExitingWorkers(s) == {}
    && forall p | p in s.locks :: s.locks[p].expires <= s.now
  }

  /** Once nobody has a deadline, orphaned locks can be waited for. */
  lemma OutwaitLocks(c: Config, s: System, ls: seq<Label>, t: System, e: Environment)
    returns (ls': seq<Label>, t': System)
    requires Proceeds(c, s, ls, t, e) && NoneBusy(t) && ExitingWorkers(t) == {} && 0.0 <= c.ttl
    ensures Proceeds(c, s, ls', t', e) && Free(t')
    ensures t'.now <= t.now + c.ttl && t'.store == t.store && t'.workers == t.workers
  {
    forall v | At(t, v)
      ensures InTime(c, t.workers[v], t.now + c.ttl)
    {
      assert v !in ExitingWorkers(t);
    }
    ls', t' := Proceed(c, s, ls, t, Tick(c.ttl), e);
  }

  lemma AcquireEffect(c: Config, s: System, w: nat)
    requires Free(s) && w in s.workers && s.workers[w].Got?
    ensures Enabled(c, s, Acquire(w))
    ensures var s' := Next(c, s, Acquire(w)); w in s'.workers && s'.workers[w].Locked? && s'.now == s.now
  {}

  lemma DequeueEffect(c: Config, s: System, w: nat)
    requires Free(s) && s.queue != [] && w in s.workers && s.workers[w].Idle?
    ensures Enabled(c, s, Dequeue(w))
    ensures var s' := Next(c, s, Dequeue(w));
            Free(s') && w in s'.workers && s'.workers[w].Got? && s'.now == s.now
  {
    var s' := Next(c, s, Dequeue(w));
    assert forall v | v in ExitingWorkers(s') :: v in ExitingWorkers(s);
  }

  lemma RequeueEffect(c: Config, s: System, w: nat)
    requires Free(s) && w in s.workers && s.workers[w].Refused?
    ensures Enabled(c, s, Requeue(w))
    ensures var s' := Next(c, s, Requeue(w));
            Free(s') && s'.queue != [] && w in s'.workers && s'.workers[w].Idle? && s'.now == s.now
  {
    var s' := Next(c, s, Requeue(w));
    assert forall v | v in ExitingWorkers(s') :: v in ExitingWorkers(s);
  }

  lemma GotWorks(c: Config, s: System, ls: seq<Label>, t: System, w: nat, e: Environment)
    returns (ls': seq<Label>, t': System)
    requires Proceeds(c, s, ls, t, e) && Free(t) && w in t.workers && t.workers[w].Got?
    ensures Proceeds(c, s, ls', t', e) && Work(c, t') < Work(c, s) && t'.now == t.now
  {
    AcquireEffect(c, t, w);
    ls', t' := Proceed(c, s, ls, t, Acquire(w), e);
    ls', t' := BusyWorks(c, s, ls', t', w, e);
  }

  lemma IdleWorks(c: Config, s: System, ls: seq<Label>, t: System, w: nat, e: Environment)
    returns (ls': seq<Label>, t': System)
    requires Proceeds(c, s, ls, t, e) && Free(t) && t.queue != [] && w in t.workers && t.workers[w].Idle?
    ensures Proceeds(c, s, ls', t', e) && Work(c, t') < Work(c, s) && t'.now == t.now
  {
    DequeueEffect(c, t, w);
    ls', t' := Proceed(c, s, ls, t, Dequeue(w), e);
    ls', t' := GotWorks(c, s, ls', t', w, e);
  }

  lemma RefusedWorks(c: Config, s: System, ls: seq<Label>, t: System, w: nat, e: Environment)
    returns (ls': seq<Label>, t': System)
    requires Proceeds(c, s, ls, t, e) && Free(t) && w in t.workers && t.workers[w].Refused?
    ensures Proceeds(c, s, ls', t', e) && Work(c, t') < Work(c, s) && t'.now == t.now
  {
    RequeueEffect(c, t, w);
    ls', t' := Proceed(c, s, ls, t, Requeue(w), e);
    ls', t' := IdleWorks(c, s, ls', t', w, e);
  }

  lemma QueueWorks(c: Config, s: System, ls: seq<Label>, t: System, w: nat, e: Environment)
    returns (ls': seq<Label>, t': System)
    requires Proceeds(c, s, ls, t, e) && Free(t) && t.queue != [] && HasWorker(t, w)
    ensures Proceeds(c, s, ls', t', e) && Work(c, t') < Work(c, s) && t'.now == t.now
  {
    assert w !in ExitingWorkers(t);
    match t.workers[w] {
      case Idle => ls', t' := IdleWorks(c, s, ls, t, w, e);
      case Got(_) => ls', t' := GotWorks(c, s, ls, t, w, e);
      case Refused(_) => ls', t' := RefusedWorks(c, s, ls, t, w, e);
    }
  }

  /** Wherever the task is, it or another one can be worked on. */
  lemma FreeWorks(c: Config, s: System, ls: seq<Label>, t: System, id: TaskId, w: nat, e: Environment)
    returns (ls': seq<Label>, t': System)
    requires Proceeds(c, s, ls, t, e) && Free(t) && HasWorker(t, w)
    requires Stores.Active(t.store, id) && !IsStranded(t, id)
    ensures Proceeds(c, s, ls', t', e) && Work(c, t') < Work(c, s) && t'.now == t.now
  {
    assert id in t.place && Present(t, id);
    match t.place[id] {
      case AtHandler =>
        ls', t' := Proceed(c, s, ls, t, EnqueueNew(id), e);
        ls', t' := QueueWorks(c, s, ls', t', w, e);
      case InQueue => ls', t' := QueueWorks(c, s, ls, t, w, e);
      case InHand(v) =>
        assert v !in ExitingWorkers(t);
        match t.workers[v] {
          case Got(_) => ls', t' := GotWorks(c, s, ls, t, v, e);
          case Refused(_) => ls', t' := RefusedWorks(c, s, ls, t, v, e);
        }
    }
  }

  /**
   * Progress: while a live worker and an unfinished task that is not stranded are left, some
   * undisturbed run uses up work, whatever the environment answers in it, and it need not
   * wait longer than one TTL, orphaned locks or not.
   */
  lemma ProgressIsPossible(c: Config, s: System, id: TaskId, w: nat, e: Environment)
    returns (ls: seq<Label>, t: System)
    requires Calm(c, s) && HasWorker(s, w) && 0.0 <= c.ttl
    requires Stores.Active(s.store, id) && !IsStranded(s, id)
    ensures Proceeds(c, s, ls, t, e) && Work(c, t) < Work(c, s) && t.now <= s.now + c.ttl
  {
    Stay(c, s, e);
    if v :| v in s.workers && (s.workers[v].Locked? || s.workers[v].Streaming?) {
      ls, t := BusyWorks(c, s, [], s, v, e);
    } else {
      ls, t := ExitAll(c, s, [], s, e);
      ls, t := OutwaitLocks(c, s, ls, t, e);
      ls, t := FreeWorks(c, s, ls, t, id, w, e);
    }
  }

  // ---- all the way to the end ------------------------------------------------

  /** Nothing is left to do except what was stranded. */
  ghost predicate Drained(s: System) {
    forall id | Stores.Active(s.store, id) :: IsStranded(s, id)
  }

  lemma {:induction false} ObeysConcat(c: Config, s: System, ls: seq<Label>, ms: seq<Label>, e: Environment)
    requires CanRun(c, s, ls) && CanRun(c, Run(c, s, ls), ms)
    requires Obeys(c, s, ls, e) && Obeys(c, Run(c, s, ls), ms, e)
    ensures CanRun(c, s, ls + ms) && Obeys(c, s, ls + ms, e)
    decreases |ls|
  {
    if ls == [] {
      assert ls + ms == ms;
    } else {
      ObeysConcat(c, Next(c, s, ls[0]), ls[1..], ms, e);
      RunPrepend(c, s, ls[0], ls[1..] + ms);
      ConcatAssociates([ls[0]], ls[1..], ms);
      assert ls == [ls[0]] + ls[1..];
      assert (ls + ms)[0] == ls[0] && (ls + ms)[1..] == ls[1..] + ms;
    }
  }

  lemma ProceedsOn(c: Config, s: System, ls: seq<Label>, t: System, ms: seq<Label>, u: System, e: Environment)
    requires Proceeds(c, s, ls, t, e) && Proceeds(c, t, ms, u, e)
    ensures Proceeds(c, s, ls + ms, u, e)
  {
    RunConcat(c, s, ls, ms);
    ObeysConcat(c, s, ls, ms, e);
  }

  /** The waiting that `work` units allow: one TTL each. */
  function Patience(ttl: real, work: nat): real {
    if work == 0 then 0.0 else ttl + Patience(ttl, work - 1)
  }

  lemma {:induction false} OneUnitLess(ttl: real, work: nat, less: nat)
    requires 0.0 <= ttl && less < work
    ensures Patience(ttl, less) + ttl <= Patience(ttl, work)
  {
    if less < work - 1 {
      OneUnitLess(ttl, work - 1, less);
    }
  }

  ghost predicate DrainsTo(c: Config, s: System, ls: seq<Label>, t: System, e: Environment) {
    Proceeds(c, s, ls, t, e) && Drained(t) && t.now <= s.now + Patience(c.ttl, Work(c, s))
  }

  lemma DrainsLater(c: Config, s: System, ls: seq<Label>, u: System, ms: seq<Label>, t: System, e: Environment)
    requires Proceeds(c, s, ls, u, e) && Work(c, u) < Work(c, s) && u.now <= s.now + c.ttl && 0.0 <= c.ttl
    requires DrainsTo(c, u, ms, t, e)
    ensures DrainsTo(c, s, ls + ms, t, e)
  {
    OneUnitLess(c.ttl, Work(c, s), Work(c, u));
    ProceedsOn(c, s, ls, u, ms, t, e);
  }

  /**
   * From every calm state with a live worker, and for every way the environment chooses engine
   * failures, checks and stream outcomes, some schedule finishes every task that was not
   * stranded, with at most one TTL of waiting for every unit of work.
   */
  lemma {:induction false} DrainIsPossible(c: Config, s: System, w: nat, e: Environment)
    returns (ls: seq<Label>, t: System)
    requires Calm(c, s) && HasWorker(s, w) && 0.0 <= c.ttl
    ensures DrainsTo(c, s, ls, t, e)
    decreases Work(c, s)
  {
    if Drained(s) {
      Stay(c, s, e);
      if Work(c, s) > 0 {
        OneUnitLess(c.ttl, Work(c, s), 0);
      }
      ls, t := [], s;
    } else {
      var id :| Stores.Active(s.store, id) && !IsStranded(s, id);
      var first, u := ProgressIsPossible(c, s, id, w, e);
      var rest;
      rest, t := DrainIsPossible(c, u, w, e);
      DrainsLater(c, s, first, u, rest, t, e);
      ls := first + rest;
    }
  }

  lemma {:induction false} ExpiringRun(c: Config, s: System, ls: seq<Label>)
    requires Expiring(c, s) && CanRun(c, s, ls)
    ensures Expiring(c, Run(c, s, ls))
    decreases |ls|
  {
    if ls != [] {
      ExpiringStep(c, s, ls[0]);
      ExpiringRun(c, Next(c, s, ls[0]), ls[1..]);
    }
  }

  /**
   * So no orderly run, whatever crashed or was cancelled in it, ends where the rest of the work
   * cannot be finished by any one worker that is left.
   */
  lemma NeverStuck(c: Config, workers: set<nat>, ls: seq<Label>, w: nat, e: Environment)
    returns (ms: seq<Label>, t: System)
    requires OrderlyRun(c, Init(workers), ls) && CanRun(c, Init(workers), ls) && 0.0 <= c.ttl
    requires HasWorker(Run(c, Init(workers), ls), w)
    ensures DrainsTo(c, Run(c, Init(workers), ls), ms, t, e)
  {
    CoreInit(workers);
    RecordsRun(c, Init(workers), ls);
    ExpiringRun(c, Init(workers), ls);
    ms, t := DrainIsPossible(c, Run(c, Init(workers), ls), w, e);
  }
}
