/**
 * No task is lost or duplicated: every unfinished task has exactly one carrier, or was
 * stranded by a crash or a cancellation; a finished one has none.
 */
module Conservation {
  import opened Wrappers
  import opened Tasks
  import opened Stores
  import opened Scheduling
  import opened Recovery
  import opened Protocol

  // ---- the invariant ---------------------------------------------------------

  predicate Placed(s: System, t: Task, place: Place) {
    t.id in s.place && s.place[t.id] == place && t.id in s.store.records && s.store.records[t.id] == t
  }

  /** The status a carried task has at each point of a worker. */
  predicate InStep(a: Worker) {
    match a
    case Got(t) => t.IsWaiting()
    case Refused(t) => t.IsWaiting()
    case Locked(t, h) => t.IsWaiting() && h.project == t.project
    case Streaming(t, h) => t.status.Running? && h.project == t.project
    case Retrying(t, h) => t.status.Interrupted? && h.project == t.project
    case _ => true
  }

  predicate HandOk(s: System, w: nat)
    requires w in s.workers
  {
    InStep(s.workers[w]) && (Carried(s.workers[w]).Some? ==> Placed(s, Carried(s.workers[w]).value, InHand(w)))
  }

  /** The recorded place really holds the task. */
  predicate Present(s: System, id: TaskId)
    requires id in s.place && id in s.store.records
  {
    match s.place[id]
    case AtHandler => id in s.handlers
    case InQueue => s.store.records[id] in s.queue
    case InHand(w) => w in s.workers && Carried(s.workers[w]) == Some(s.store.records[id])
    case Stranded => true
  }

  predicate QueueOk(s: System) {
    && (forall i | 0 <= i < |s.queue| :: Placed(s, s.queue[i], InQueue) && s.queue[i].IsWaiting())
    && Distinct(Ids(s.queue))
  }

  predicate HandlersOk(s: System) {
    forall id | id in s.handlers ::
      s.handlers[id].id == id && Placed(s, s.handlers[id], AtHandler) && s.handlers[id].status.Pending?
  }

  predicate HandsOk(s: System) {
    forall w | w in s.workers :: HandOk(s, w)
  }

  ghost predicate PlacesOk(s: System) {
    && (forall id :: id in s.place <==> Stores.Active(s.store, id))
    && (forall id | id in s.place :: Present(s, id))
  }

  ghost predicate Core(s: System) {
    Keyed(s.store) && QueueOk(s) && HandlersOk(s) && HandsOk(s) && PlacesOk(s)
  }

  // ---- what a worker stores --------------------------------------------------

  /** The steps in which a worker overwrites the record of its task. */
  predicate Writes(s: System, l: Label) {
    || l.EngineFail? || l.Start? || l.Finish?
    || (l.Cancel? && l.w in s.workers && s.workers[l.w].Streaming?)
  }

  /** Worker `b` can store `t` and become `a`. */
  predicate Produces(c: Config, b: Worker, t: Task, a: Worker) {
    match b
    case Locked(u, h) =>
      || (t == u.(status := Failed) && a == Leaving(h, false))
      || (&& t == u.(status := Status.Running, mode := t.mode)
          && DecidedMode(u.requirement, t.mode)
          && a == Streaming(t, h))
    case Streaming(u, h) =>
      || (&& t == u.(status := t.status)
          && (t.IsTerminal() || t.status.Interrupted?)
          && a.Leaving? && a.hold == h)
      || (&& t == u.(status := Interrupted, retryCount := u.retryCount + 1)
          && u.retryCount < c.maxRetries
          && a == Retrying(t, h))
    case _ => false
  }

  /** `a` either goes on with `t`, which is then unfinished, or has put it down. */
  predicate Onward(t: Task, a: Worker) {
    InStep(a) && (Carried(a) == None || (Carried(a) == Some(t) && !t.IsTerminal()))
  }

  lemma ProducesOnward(c: Config, b: Worker, t: Task, a: Worker)
    requires InStep(b) && Produces(c, b, t, a)
    ensures Carried(b).Some? && Onward(t, a) && Evolves(Carried(b).value, t)
    ensures t.status.Running? <==> a.Streaming?
    ensures t.status.Running? ==> b.Locked?
  {}

  predicate SameRequest(t: Task, u: Task) {
    && t.id == u.id && t.project == u.project && t.requirement == u.requirement
    && t.workDir == u.workDir && t.configJson == u.configJson
  }

  /** A record is left alone, or moves along the life cycle. */
  predicate Evolves(t: Task, u: Task) {
    t == u || (SameRequest(t, u) && Allowed(t.status, u.status))
  }

  /** Such a step is one `Write`. */
  lemma WriterStep(c: Config, s: System, l: Label) returns (t: Task, a: Worker)
    requires Enabled(c, s, l) && Writes(s, l)
    ensures l.w in s.workers && Produces(c, s.workers[l.w], t, a)
    ensures Next(c, s, l) == Write(s, l.w, t, a)
  {
    match l {
      case EngineFail(w) =>
        t, a := s.workers[w].task.(status := Failed), Leaving(s.workers[w].hold, false);
      case Start(w, probe) => t, a := StartWrites(c, s, w, probe);
      case Finish(w, outcome) => t, a := FinishWrites(c, s, w, outcome);
      case Cancel(w) => t, a := FinishWrites(c, s, w, Cancelled);
    }
  }

  lemma StartWrites(c: Config, s: System, w: nat, probe: Probe) returns (t: Task, a: Worker)
    requires Enabled(c, s, Start(w, probe))
    ensures Produces(c, s.workers[w], t, a) && Next(c, s, Start(w, probe)) == Write(s, w, t, a)
  {
    DecisionTable(s.workers[w].task.requirement, probe);
    t := Started(s.workers[w].task, probe);
    a := if t.IsTerminal() then Leaving(s.workers[w].hold, false) else Streaming(t, s.workers[w].hold);
  }

  lemma FinishWrites(c: Config, s: System, w: nat, outcome: Outcome) returns (t: Task, a: Worker)
    requires w in s.workers && s.workers[w].Streaming?
    ensures Produces(c, s.workers[w], t, a) && FinishStep(c, s, w, outcome) == Write(s, w, t, a)
  {
    var h := s.workers[w].hold;
    t := AfterStream(c.maxRetries, s.workers[w].task, outcome);
    a := if outcome.Retriable? && !t.IsTerminal() then Retrying(t, h) else Leaving(h, outcome.Cancelled?);
  }

  /** A cancellation outside the stream stores nothing. */
  lemma CancelDrops(c: Config, s: System, w: nat) returns (a: Worker)
    requires w in s.workers && !s.workers[w].Streaming?
    ensures CancelStep(c, s, w) == Drop(s, w, a) && Carried(a).None?
    ensures Holding(s.workers[w]) ==> Holding(a) && a.hold == s.workers[w].hold && (Beats(a) <==> Beats(s.workers[w]))
    ensures Holding(s.workers[w]) && a.Releasing? ==> s.workers[w].Releasing? && a.since == s.workers[w].since
    ensures !Holding(s.workers[w]) ==> a == Stopped
  {
    a := match s.workers[w]
    case Locked(_, h) => Leaving(h, true)
    case Retrying(_, h) => Leaving(h, true)
    case Leaving(h, _) => Leaving(h, true)
    case Releasing(h, since, _) => Releasing(h, since, true)
    case _ => Stopped;
  }

  /** An abandoning cancellation drops what the worker carried, perhaps after setting its lock. */
  lemma AbandonDrops(c: Config, s: System, w: nat) returns (b: System, a: Worker)
    requires Enabled(c, s, Abandon(w))
    ensures b == if s.workers[w].Got? then Asked(c, s, s.workers[w].task.project) else s
    ensures AbandonStep(c, s, w) == Drop(b, w, a) && Carried(a).None?
    ensures s.workers[w].Streaming? ==> a == Leaving(s.workers[w].hold, true)
    ensures !s.workers[w].Streaming? ==> a == Stopped
  {
    match s.workers[w] {
      case Got(t) => b, a := Asked(c, s, t.project), Stopped;
      case Streaming(_, h) => b, a := s, Leaving(h, true);
      case _ => b, a := s, Stopped;
    }
  }

  lemma OthersKeepTheStore(c: Config, s: System, l: Label)
    requires Enabled(c, s, l) && !Writes(s, l) && !l.Create? && !l.Recover?
    ensures var s' := Next(c, s, l);
            s'.store == s.store && s'.attempts == s.attempts && s'.recoveries == s.recoveries
  {
    if l.Cancel? {
      var a := CancelDrops(c, s, l.w);
    } else if l.Abandon? {
      var b, a := AbandonDrops(c, s, l.w);
    } else {
      MovesKeepTheStore(c, s, l);
    }
  }

  lemma MovesKeepTheStore(c: Config, s: System, l: Label)
    requires Enabled(c, s, l)
    requires !Writes(s, l) && !l.Create? && !l.Recover? && !l.Cancel? && !l.Abandon?
    ensures var s' := Next(c, s, l);
            s'.store == s.store && s'.attempts == s.attempts && s'.recoveries == s.recoveries
  {}

  // ---- preservation, effect by effect ----------------------------------------

  lemma QueueMembers(s: System)
    requires QueueOk(s)
    ensures forall t | t in s.queue :: Placed(s, t, InQueue) && t.IsWaiting()
    ensures forall i, j | 0 <= i < j < |s.queue| :: s.queue[i].id != s.queue[j].id
  {
    assert forall i, j | 0 <= i < j < |s.queue| :: Ids(s.queue)[i] != Ids(s.queue)[j];
  }

  lemma SaveSetsRecord(s: Store, t: Task)
    ensures SaveNew(s, t).records == s.records[t.id := t]
  {}

  lemma CreateKeepsOthers(s: System, t: Task)
    requires Core(s) && t.id !in s.store.records && t.status.Pending?
    ensures var s' := CreateStep(s, t);
            && QueueOk(s')
            && HandlersOk(s')
            && forall id :: id in s'.place <==> Stores.Active(s'.store, id)
  {
    var s' := CreateStep(s, t);
    SaveSetsRecord(s.store, t);
    forall i | 0 <= i < |s'.queue|
      ensures Placed(s', s'.queue[i], InQueue) && s'.queue[i].IsWaiting()
    {
      assert Placed(s, s.queue[i], InQueue);
    }
    forall id
      ensures id in s'.place <==> Stores.Active(s'.store, id)
    {
      assert id in s.place <==> Stores.Active(s.store, id);
    }
  }

  lemma CoreCreate(s: System, t: Task)
    requires Core(s) && t.id !in s.store.records && t.status.Pending?
    ensures Core(CreateStep(s, t))
  {
    var s' := CreateStep(s, t);
    SaveSetsRecord(s.store, t);
    CreateKeepsOthers(s, t);
    forall w | w in s'.workers
      ensures HandOk(s', w)
    {
      assert HandOk(s, w);
    }
    forall id | id in s'.place
      ensures Present(s', id)
    {
      assert id != t.id ==> id in s.place && Present(s, id);
    }
  }

  lemma CoreEnqueue(s: System, s': System, t: Task)
    requires Core(s) && t.IsWaiting() && t.id in s.place && s.place[t.id] != InQueue
    requires t.id in s.store.records && s.store.records[t.id] == t
    requires s'.store == s.store && s'.queue == s.queue + [t] && s'.place == s.place[t.id := InQueue]
    ensures QueueOk(s')
    ensures forall u | u in s.queue :: u in s'.queue
    ensures t in s'.queue
  {
    QueueMembers(s);
    assert Ids(s'.queue) == Ids(s.queue) + [t.id];
  }

  lemma CoreEnqueueNew(c: Config, s: System, id: TaskId)
    requires Core(s) && id in s.handlers
    ensures Core(Next(c, s, EnqueueNew(id)))
  {
    CoreEnqueue(s, Next(c, s, EnqueueNew(id)), s.handlers[id]);
  }

  lemma CorePush(s: System, w: nat, a: Worker)
    requires Core(s) && w in s.workers && (s.workers[w].Refused? || s.workers[w].Retrying?)
    requires Carried(a).None? && InStep(a)
    ensures Core(Push(s, w, Carried(s.workers[w]).value, a))
  {
    var t := Carried(s.workers[w]).value;
    assert HandOk(s, w);
    CoreEnqueue(s, Push(s, w, t, a), t);
  }

  lemma DequeueQueueOk(c: Config, s: System, w: nat)
    requires QueueOk(s) && Enabled(c, s, Dequeue(w))
    ensures QueueOk(Next(c, s, Dequeue(w)))
  {
    var s' := Next(c, s, Dequeue(w));
    QueueMembers(s);
    forall i | 0 <= i < |s'.queue|
      ensures Placed(s', s'.queue[i], InQueue) && s'.queue[i].IsWaiting()
    {
      assert s'.queue[i] == s.queue[i + 1];
    }
    assert Ids(s'.queue) == Ids(s.queue)[1..];
  }

  lemma CoreDequeue(c: Config, s: System, w: nat)
    requires Core(s) && Enabled(c, s, Dequeue(w))
    ensures Core(Next(c, s, Dequeue(w)))
  {
    var s' := Next(c, s, Dequeue(w));
    var t := s.queue[0];
    DequeueQueueOk(c, s, w);
    assert HandOk(s, w);
    assert Placed(s, t, InQueue);
    forall v | v in s'.workers
      ensures HandOk(s', v)
    {
      assert HandOk(s, v);
    }
    forall id | id in s'.place
      ensures Present(s', id)
    {
      assert Present(s, id);
      assert s.store.records[id] in s.queue ==> s.store.records[id] == t || s.store.records[id] in s'.queue;
    }
  }

  /** Worker `w` overwrites the record of the task it carries. */
  lemma CoreWrite(s: System, w: nat, t: Task, a: Worker)
    requires Core(s) && w in s.workers && Carried(s.workers[w]).Some?
    requires t.id == Carried(s.workers[w]).value.id && Onward(t, a)
    ensures Core(Write(s, w, t, a))
  {
    var s' := Write(s, w, t, a);
    assert HandOk(s, w);
    WriteSetsRecord(s.store, t);
    WriteKeepsOthers(s, w, t, a);
    forall v | v in s'.workers
      ensures HandOk(s', v)
    {
      assert HandOk(s, v);
    }
    forall id | id in s'.place
      ensures Present(s', id)
    {
      assert id != t.id ==> Present(s, id);
    }
  }

  lemma WriteSetsRecord(s: Store, t: Task)
    ensures Updated(s, t).records == s.records[t.id := t]
  {}

  lemma WriteKeepsOthers(s: System, w: nat, t: Task, a: Worker)
    requires Core(s) && t.id in s.place && s.place[t.id] == InHand(w)
    ensures var s' := Write(s, w, t, a);
            && QueueOk(s')
            && HandlersOk(s')
            && forall id :: id in s'.place <==> Stores.Active(s'.store, id)
  {
    var s' := Write(s, w, t, a);
    WriteSetsRecord(s.store, t);
    forall i | 0 <= i < |s'.queue|
      ensures Placed(s', s'.queue[i], InQueue) && s'.queue[i].IsWaiting()
    {
      assert Placed(s, s.queue[i], InQueue);
    }
    forall id
      ensures id in s'.place <==> Stores.Active(s'.store, id)
    {
      assert id in s.place <==> Stores.Active(s.store, id);
    }
  }

  lemma CoreDrop(s: System, w: nat, a: Worker)
    requires Core(s) && w in s.workers && Carried(a).None?
    ensures Core(Drop(s, w, a))
  {
    assert HandOk(s, w);
    QueueMembers(s);
  }

  lemma CoreAsked(c: Config, s: System, a: Worker)
    requires Core(s)
    ensures a.Got? ==> Core(Asked(c, s, a.task.project))
  {
    if a.Got? {
      var s' := Asked(c, s, a.task.project);
      assert forall w | w in s.workers :: HandOk(s, w) ==> HandOk(s', w);
    }
  }

  /** Worker `w` moves on with what it carries; store, queue and handlers stay. */
  lemma CoreMove(s: System, s': System, w: nat)
    requires Core(s) && w in s.workers && w in s'.workers
    requires s'.store == s.store && s'.queue == s.queue && s'.handlers == s.handlers && s'.place == s.place
    requires s'.workers == s.workers[w := s'.workers[w]]
    requires Carried(s'.workers[w]) == Carried(s.workers[w]) && InStep(s'.workers[w])
    ensures Core(s')
  {
    assert HandOk(s, w);
  }

  lemma CoreCrashHandler(c: Config, s: System, id: TaskId)
    requires Core(s) && id in s.handlers
    ensures Core(Next(c, s, CrashHandler(id)))
  {
    QueueMembers(s);
  }

  lemma {:induction false} SurvivingMembers(q: seq<Task>, kept: set<TaskId>)
    ensures forall t :: t in Surviving(q, kept) <==> t in q && t.id in kept
  {
    if q != [] {
      SurvivingMembers(q[1..], kept);
      assert forall t :: t in q <==> t == q[0] || t in q[1..];
    }
  }

  predicate Apart(q: seq<Task>) {
    forall i, j | 0 <= i < j < |q| :: q[i].id != q[j].id
  }

  lemma ConsApart(t: Task, rest: seq<Task>)
    requires Apart(rest) && forall u | u in rest :: u.id != t.id
    ensures Apart([t] + rest)
  {}

  lemma TailApart(q: seq<Task>)
    requires Apart(q) && q != []
    ensures Apart(q[1..]) && forall u | u in q[1..] :: u.id != q[0].id
  {}

  lemma {:induction false} SurvivingApart(q: seq<Task>, kept: set<TaskId>)
    requires Apart(q)
    ensures Apart(Surviving(q, kept))
  {
    if q != [] {
      TailApart(q);
      SurvivingApart(q[1..], kept);
      SurvivingMembers(q[1..], kept);
      ConsApart(q[0], Surviving(q[1..], kept));
    }
  }

  lemma CoreLose(s: System, kept: set<TaskId>)
    requires Core(s)
    ensures Core(LoseStep(s, kept))
  {
    var s' := LoseStep(s, kept);
    QueueMembers(s);
    SurvivingMembers(s.queue, kept);
    SurvivingApart(s.queue, kept);
    assert forall i, j | 0 <= i < j < |s'.queue| :: s'.queue[i].id != s'.queue[j].id;
    assert forall i | 0 <= i < |s'.queue| :: s'.queue[i] in s'.queue;
    forall w | w in s'.workers
      ensures HandOk(s', w)
    {
      assert HandOk(s, w);
    }
    forall id | id in s'.place
      ensures Present(s', id)
    {
      assert Present(s, id);
    }
  }

  lemma RecoverQueueOk(s: System, order: seq<TaskId>)
    requires Core(s) && Enumerates(order, s.store) && s.queue == []
    ensures QueueOk(RecoverStep(s, order))
  {
    var s' := RecoverStep(s, order);
    PayloadsExact(s.store, order);
    assert s'.queue == Payloads(s.store, order);
    forall i | 0 <= i < |s'.queue|
      ensures Placed(s', s'.queue[i], InQueue) && s'.queue[i].IsWaiting()
    {
      assert s'.queue[i] in Payloads(s.store, order);
      PayloadPlaced(s, order, s'.queue[i]);
    }
  }

  lemma PayloadPlaced(s: System, order: seq<TaskId>, p: Task)
    requires PlacesOk(s) && Stores.Active(s.store, p.id) && p == Demote(s.store.records[p.id])
    ensures Placed(RecoverStep(s, order), p, InQueue) && p.IsWaiting()
  {
    assert p.id in s.place <==> Stores.Active(s.store, p.id);
  }

  lemma CoreRecover(s: System, order: seq<TaskId>)
    requires Core(s) && Enumerates(order, s.store) && s.queue == [] && s.handlers == map[]
    ensures Core(RecoverStep(s, order))
  {
    var s' := RecoverStep(s, order);
    RecoverQueueOk(s, order);
    PayloadsExact(s.store, order);
    forall id
      ensures id in s'.place <==> Stores.Active(s'.store, id)
    {
      assert id in s.place <==> Stores.Active(s.store, id);
    }
    forall id | id in s'.place
      ensures Present(s', id)
    {
      var p := Demote(s.store.records[id]);
      assert id in s.place <==> Stores.Active(s.store, id);
      assert p.id in order;
      assert p in s'.queue;
    }
  }

  lemma CoreAcquire(c: Config, s: System, w: nat)
    requires Core(s) && w in s.workers && s.workers[w].Got?
    ensures Core(AcquireStep(c, s, w))
  {
    assert HandOk(s, w);
    CoreMove(s, AcquireStep(c, s, w), w);
  }

  lemma CoreRefresh(c: Config, s: System, w: nat)
    requires Core(s) && w in s.workers && Beats(s.workers[w])
    ensures Core(RefreshStep(c, s, w))
  {
    assert HandOk(s, w);
    CoreMove(s, RefreshStep(c, s, w), w);
  }

  lemma CoreStopHeartbeat(c: Config, s: System, w: nat)
    requires Core(s) && Enabled(c, s, StopHeartbeat(w))
    ensures Core(Next(c, s, StopHeartbeat(w)))
  {
    CoreMove(s, Next(c, s, StopHeartbeat(w)), w);
  }

  lemma CoreRelease(c: Config, s: System, w: nat)
    requires Core(s) && Enabled(c, s, Release(w))
    ensures Core(Next(c, s, Release(w)))
  {
    CoreMove(s, Next(c, s, Release(w)), w);
  }

  lemma CoreLockStep(c: Config, s: System, l: Label)
    requires Core(s) && Enabled(c, s, l)
    requires l.Acquire? || l.Refresh? || l.StopHeartbeat? || l.Release?
    ensures Core(Next(c, s, l))
  {
    match l {
      case Acquire(w) => CoreAcquire(c, s, w);
      case Refresh(w) => CoreRefresh(c, s, w);
      case StopHeartbeat(w) => CoreStopHeartbeat(c, s, w);
      case Release(w) => CoreRelease(c, s, w);
    }
  }

  lemma CoreWorkerStep(c: Config, s: System, l: Label)
    requires Core(s) && Enabled(c, s, l)
    requires Writes(s, l) || l.Cancel? || l.Abandon? || l.Crash?
    ensures Core(Next(c, s, l))
  {
    if Writes(s, l) {
      var t, a := WriterStep(c, s, l);
      assert HandOk(s, l.w);
      ProducesOnward(c, s.workers[l.w], t, a);
      CoreWrite(s, l.w, t, a);
    } else if l.Cancel? {
      var a := CancelDrops(c, s, l.w);
      CoreDrop(s, l.w, a);
    } else if l.Abandon? {
      var b, a := AbandonDrops(c, s, l.w);
      CoreAsked(c, s, s.workers[l.w]);
      CoreDrop(b, l.w, a);
    } else {
      CoreDrop(s, l.w, Stopped);
    }
  }

  /** Every step keeps the invariant; recovery only if it finds the queue empty. */
  lemma CoreStep(c: Config, s: System, l: Label)
    requires Core(s) && Enabled(c, s, l) && QueueLost(s, l)
    ensures Core(Next(c, s, l))
  {
    if Writes(s, l) || l.Cancel? || l.Abandon? || l.Crash? {
      CoreWorkerStep(c, s, l);
    } else if l.Acquire? || l.Refresh? || l.StopHeartbeat? || l.Release? {
      CoreLockStep(c, s, l);
    } else {
      match l {
        case Create(id, p, r, wd, cj) => CoreCreate(s, Fresh(id, p, r, wd, cj));
        case EnqueueNew(id) => CoreEnqueueNew(c, s, id);
        case Dequeue(w) => CoreDequeue(c, s, w);
        case Requeue(w) => CorePush(s, w, Idle);
        case RetryEnqueue(w) => CorePush(s, w, Leaving(s.workers[w].hold, false));
        case Tick(d) => CoreTick(s, d);
        case CrashHandler(id) => CoreCrashHandler(c, s, id);
        case LoseQueue(kept) => CoreLose(s, kept);
        case Recover(order) => CoreRecover(s, order);
      }
    }
  }

  lemma CoreTick(s: System, d: real)
    requires Core(s)
    ensures Core(s.(now := s.now + d))
  {
    var s' := s.(now := s.now + d);
    assert forall w | w in s.workers :: HandOk(s, w) ==> HandOk(s', w);
  }

  lemma CoreInit(workers: set<nat>)
    ensures Core(Init(workers))
  {}

  lemma {:induction false} CoreRun(c: Config, s: System, ls: seq<Label>)
    requires Core(s) && OrderlyRun(c, s, ls)
    ensures CanRun(c, s, ls) && Core(Run(c, s, ls))
    decreases |ls|
  {
    if ls != [] {
      CoreStep(c, s, ls[0]);
      CoreRun(c, Next(c, s, ls[0]), ls[1..]);
    }
  }

  // ---- the conservation law --------------------------------------------------

  /** One carrier of a task: an API handler, a queue entry, or a worker. */
  datatype Carrier = ByHandler | ByEntry(i: nat) | ByWorker(w: nat)

  function Entries(q: seq<Task>, id: TaskId): set<Carrier> {
    set i: nat | i < |q| && q[i].id == id :: ByEntry(i)
  }

  function Hands(workers: map<nat, Worker>, id: TaskId): set<Carrier> {
    set w | w in workers && Carried(workers[w]).Some? && Carried(workers[w]).value.id == id :: ByWorker(w)
  }

  function Carriers(s: System, id: TaskId): set<Carrier> {
    (if id in s.handlers then {ByHandler} else {}) + Entries(s.queue, id) + Hands(s.workers, id)
  }

  lemma CarriersExact(s: System, id: TaskId)
    requires Core(s)
    ensures |Carriers(s, id)| == if Stores.Active(s.store, id) && s.place[id] != Stranded then 1 else 0
  {
    assert id in s.place <==> Stores.Active(s.store, id);
    if id in s.place && s.place[id] != Stranded {
      var c := OneCarrier(s, id);
      assert Carriers(s, id) == {c};
    } else {
      NoCarriers(s, id);
    }
  }

  lemma OneCarrier(s: System, id: TaskId) returns (c: Carrier)
    requires Core(s) && id in s.place && s.place[id] != Stranded
    ensures Carriers(s, id) == {c}
  {
    QueueMembers(s);
    assert forall w | w in s.workers :: HandOk(s, w);
    assert id in s.place <==> Stores.Active(s.store, id);
    assert Present(s, id);
    match s.place[id] {
      case AtHandler => c := ByHandler;
      case InQueue =>
        var i: nat :| i < |s.queue| && s.queue[i] == s.store.records[id];
        c := ByEntry(i);
      case InHand(w) => c := ByWorker(w);
    }
  }

  lemma NoCarriers(s: System, id: TaskId)
    requires Core(s) && (id in s.place ==> s.place[id] == Stranded)
    ensures Carriers(s, id) == {}
  {
    forall i: nat | i < |s.queue|
      ensures s.queue[i].id != id
    {
      assert Placed(s, s.queue[i], InQueue);
    }
    assert forall w | w in s.workers :: HandOk(s, w);
  }

  // ---- who strands a task ----------------------------------------------------

  predicate IsStranded(s: System, id: TaskId) {
    id in s.place && s.place[id].Stranded?
  }

  predicate Carries(s: System, w: nat, id: TaskId) {
    w in s.workers && Carried(s.workers[w]).Some? && Carried(s.workers[w]).value.id == id
  }

  predicate Queued(s: System, id: TaskId) {
    exists i | 0 <= i < |s.queue| :: s.queue[i].id == id
  }

  /** A crash or a cancellation hits the one who carries the task, or Redis loses its queue entry. */
  predicate Loses(s: System, l: Label, id: TaskId) {
    match l
    case Cancel(w) => Carries(s, w, id)
    case Abandon(w) => Carries(s, w, id)
    case Crash(w) => Carries(s, w, id)
    case Finish(w, outcome) => outcome.Cancelled? && Carries(s, w, id)
    case CrashHandler(i) => i == id
    case LoseQueue(kept) => id !in kept && Queued(s, id)
    case _ => false
  }

  lemma LosingStrands(c: Config, s: System, l: Label, id: TaskId)
    requires Core(s) && Enabled(c, s, l) && Loses(s, l, id)
    ensures IsStranded(Next(c, s, l), id)
  {
    if l.CrashHandler? {
      assert Placed(s, s.handlers[id], AtHandler);
    } else if l.LoseQueue? {
      QueuedIsPlaced(s, id);
    } else {
      assert HandOk(s, l.w);
    }
  }

  /** A task is in the queue iff that is its place. */
  lemma QueuedIsPlaced(s: System, id: TaskId)
    requires Core(s)
    ensures Queued(s, id) <==> id in s.place && s.place[id].InQueue?
  {
    if i :| 0 <= i < |s.queue| && s.queue[i].id == id {
      assert Placed(s, s.queue[i], InQueue);
    }
    if id in s.place && s.place[id].InQueue? {
      assert Present(s, id);
      var i :| 0 <= i < |s.queue| && s.queue[i] == s.store.records[id];
      assert id in s.place <==> Stores.Active(s.store, id);
    }
  }

  lemma WritingStrands(c: Config, s: System, l: Label, id: TaskId)
    requires Core(s) && Enabled(c, s, l) && Writes(s, l) && !Loses(s, l, id)
    ensures IsStranded(Next(c, s, l), id) <==> IsStranded(s, id)
  {
    var t, a := WriterStep(c, s, l);
    assert HandOk(s, l.w);
    ProducesOnward(c, s.workers[l.w], t, a);
    assert Next(c, s, l).workers[l.w] == a;
  }

  lemma DroppingStrands(s: System, w: nat, a: Worker, id: TaskId)
    requires w in s.workers && !Carries(s, w, id)
    ensures IsStranded(Drop(s, w, a), id) <==> IsStranded(s, id)
  {}

  /** The task `j`, which was not stranded, changes its place. */
  lemma PlacingStrands(s: System, s': System, j: TaskId, place: Place, id: TaskId)
    requires s'.place == s.place[j := place] && !place.Stranded? && !IsStranded(s, j)
    ensures IsStranded(s', id) <==> IsStranded(s, id)
  {}

  lemma QueueingStrands(c: Config, s: System, l: Label, id: TaskId)
    requires Core(s) && Enabled(c, s, l) && (l.EnqueueNew? || l.Dequeue?)
    ensures IsStranded(Next(c, s, l), id) <==> IsStranded(s, id)
  {
    if l.EnqueueNew? {
      assert Placed(s, s.handlers[l.id], AtHandler);
      PlacingStrands(s, Next(c, s, l), l.id, InQueue, id);
    } else {
      assert Placed(s, s.queue[0], InQueue);
      PlacingStrands(s, Next(c, s, l), s.queue[0].id, InHand(l.w), id);
    }
  }

  lemma PushingStrands(c: Config, s: System, l: Label, id: TaskId)
    requires Core(s) && Enabled(c, s, l) && (l.Requeue? || l.RetryEnqueue?)
    ensures IsStranded(Next(c, s, l), id) <==> IsStranded(s, id)
  {
    assert HandOk(s, l.w);
    PlacingStrands(s, Next(c, s, l), s.workers[l.w].task.id, InQueue, id);
  }

  lemma OtherStrands(c: Config, s: System, l: Label, id: TaskId)
    requires Core(s) && Enabled(c, s, l)
    requires l.Create? || l.Acquire? || l.StopHeartbeat? || l.Release? || l.Refresh? || l.Tick? || l.Recover?
             || (l.CrashHandler? && l.id != id)
    ensures IsStranded(Next(c, s, l), id) <==> IsStranded(s, id) && !l.Recover?
  {
    if l.Create? {
      assert l.id in s.place <==> Stores.Active(s.store, l.id);
    }
  }

  lemma LossStrands(s: System, kept: set<TaskId>, id: TaskId)
    requires Core(s) && !(id !in kept && Queued(s, id))
    ensures IsStranded(LoseStep(s, kept), id) <==> IsStranded(s, id)
  {
    QueuedIsPlaced(s, id);
  }

  /** A task is stranded by a step iff the step loses it, or it was before and is not recovered. */
  lemma StrandedStep(c: Config, s: System, l: Label, id: TaskId)
    requires Core(s) && Enabled(c, s, l)
    ensures IsStranded(Next(c, s, l), id) <==> Loses(s, l, id) || (IsStranded(s, id) && !l.Recover?)
  {
    if Loses(s, l, id) {
      LosingStrands(c, s, l, id);
    } else if Writes(s, l) {
      WritingStrands(c, s, l, id);
    } else if l.Cancel? {
      var a := CancelDrops(c, s, l.w);
      DroppingStrands(s, l.w, a, id);
    } else if l.Abandon? {
      var b, a := AbandonDrops(c, s, l.w);
      DroppingStrands(b, l.w, a, id);
    } else if l.Crash? {
      DroppingStrands(s, l.w, Stopped, id);
    } else if l.EnqueueNew? || l.Dequeue? {
      QueueingStrands(c, s, l, id);
    } else if l.Requeue? || l.RetryEnqueue? {
      PushingStrands(c, s, l, id);
    } else if l.LoseQueue? {
      LossStrands(s, l.kept, id);
    } else {
      OtherStrands(c, s, l, id);
    }
  }

  ghost predicate NoRecovery(ls: seq<Label>) {
    forall l | l in ls :: !l.Recover?
  }

  /** Step number `k` of the run loses the task, and no recovery comes after it. */
  ghost predicate LostAt(c: Config, s: System, ls: seq<Label>, id: TaskId, k: nat)
    requires CanRun(c, s, ls) && k < |ls|
    decreases |ls|
  {
    if k == 0 then Loses(s, ls[0], id) && NoRecovery(ls[1..])
    else LostAt(c, Next(c, s, ls[0]), ls[1..], id, k - 1)
  }

  ghost predicate Lost(c: Config, s: System, ls: seq<Label>, id: TaskId)
    requires CanRun(c, s, ls)
  {
    exists k: nat | k < |ls| :: LostAt(c, s, ls, id, k)
  }

  lemma LostUnfolds(c: Config, s: System, ls: seq<Label>, id: TaskId)
    requires CanRun(c, s, ls) && ls != []
    ensures Lost(c, s, ls, id)
            <==> (Loses(s, ls[0], id) && NoRecovery(ls[1..])) || Lost(c, Next(c, s, ls[0]), ls[1..], id)
  {
    var s', rest := Next(c, s, ls[0]), ls[1..];
    if Lost(c, s, ls, id) {
      var k: nat :| k < |ls| && LostAt(c, s, ls, id, k);
      assert k > 0 ==> LostAt(c, s', rest, id, k - 1);
    }
    if Loses(s, ls[0], id) && NoRecovery(rest) {
      assert LostAt(c, s, ls, id, 0);
    }
    if Lost(c, s', rest, id) {
      var k: nat :| k < |rest| && LostAt(c, s', rest, id, k);
      assert LostAt(c, s, ls, id, k + 1);
    }
  }

  lemma {:induction false} StrandedRun(c: Config, s: System, ls: seq<Label>, id: TaskId)
    requires Core(s) && OrderlyRun(c, s, ls)
    ensures CanRun(c, s, ls)
    ensures IsStranded(Run(c, s, ls), id) <==> Lost(c, s, ls, id) || (IsStranded(s, id) && NoRecovery(ls))
    decreases |ls|
  {
    CoreRun(c, s, ls);
    if ls != [] {
      CoreStep(c, s, ls[0]);
      StrandedStep(c, s, ls[0], id);
      StrandedRun(c, Next(c, s, ls[0]), ls[1..], id);
      LostUnfolds(c, s, ls, id);
      assert NoRecovery(ls) <==> !ls[0].Recover? && NoRecovery(ls[1..]);
    }
  }

  /**
   * The conservation law over all interleavings of orderly runs: every stored unfinished task has exactly one
   * carrier unless, since the last recovery, a crash or a cancellation hit the carrier or Redis
   * lost it; then it has none. A finished or unknown task has none either.
   */
  lemma CarrierConservation(c: Config, workers: set<nat>, ls: seq<Label>, id: TaskId)
    requires OrderlyRun(c, Init(workers), ls)
    ensures CanRun(c, Init(workers), ls)
    ensures var s := Run(c, Init(workers), ls);
            && |Carriers(s, id)| == (if Stores.Active(s.store, id) && !Lost(c, Init(workers), ls, id) then 1 else 0)
            && (IsStranded(s, id) <==> Lost(c, Init(workers), ls, id))
  {
    CoreInit(workers);
    CoreRun(c, Init(workers), ls);
    StrandedRun(c, Init(workers), ls, id);
    CarriersExact(Run(c, Init(workers), ls), id);
  }

  /** A step that can lose a task. */
  predicate Losing(l: Label) {
    l.Cancel? || l.Abandon? || l.Crash? || l.CrashHandler? || l.LoseQueue? || (l.Finish? && l.outcome.Cancelled?)
  }

  lemma {:induction false} NothingLosing(c: Config, s: System, ls: seq<Label>, id: TaskId)
    requires CanRun(c, s, ls) && forall l | l in ls :: !Losing(l)
    ensures !Lost(c, s, ls, id)
    decreases |ls|
  {
    if ls != [] {
      assert ls[0] in ls && forall l | l in ls[1..] :: l in ls;
      NothingLosing(c, Next(c, s, ls[0]), ls[1..], id);
      LostUnfolds(c, s, ls, id);
    }
  }

  /** Without crashes, cancellations and lost queue entries every unfinished task has exactly one carrier. */
  lemma UndisturbedConservation(c: Config, workers: set<nat>, ls: seq<Label>, id: TaskId)
    requires OrderlyRun(c, Init(workers), ls) && forall l | l in ls :: !Losing(l)
    ensures CanRun(c, Init(workers), ls)
    ensures var s := Run(c, Init(workers), ls);
            |Carriers(s, id)| == if Stores.Active(s.store, id) then 1 else 0
  {
    CarrierConservation(c, workers, ls, id);
    NothingLosing(c, Init(workers), ls, id);
  }
}
