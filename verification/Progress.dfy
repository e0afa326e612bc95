/**
 * Remaining work. Every productive step of a worker uses some of it up, nothing but a new
 * task, a cancellation or a recovery adds any, and as long as a live worker and a carried
 * task are left, more of it can be used up.
 */
module Progress {
  import opened Tasks
  import opened Protocol
  import opened Conservation
  import opened Lifecycle

  // ---- sums over maps --------------------------------------------------------

  ghost function Total(m: map<TaskId, nat>): nat
    decreases |m|
  {
    if m == map[] then 0
    else
      var id :| id in m;
      m[id] + Total(m - {id})
  }

  lemma {:induction false} TotalSplit(m: map<TaskId, nat>, id: TaskId)
    requires id in m
    ensures Total(m) == m[id] + Total(m - {id})
    decreases |m|
  {
    var k :| k in m && Total(m) == m[k] + Total(m - {k});
    if k != id {
      TotalSplit(m - {k}, id);
      TotalSplit(m - {id}, k);
      assert m - {k} - {id} == m - {id} - {k};
    }
  }

  lemma TotalUpdate(m: map<TaskId, nat>, id: TaskId, n: nat)
    requires id in m
    ensures Total(m[id := n]) == Total(m) - m[id] + n
  {
    TotalSplit(m, id);
    TotalSplit(m[id := n], id);
    assert m[id := n] - {id} == m - {id};
  }

  // ---- the measure -----------------------------------------------------------

  /** Two units per attempt left, one of them used up by starting it. */
  function Weight(c: Config, t: Task): nat {
    if t.IsTerminal() || t.retryCount > RetryLimit(c.maxRetries) then 0
    else 2 * (RetryLimit(c.maxRetries) - t.retryCount) + if t.status.Running? then 1 else 2
  }

  function Weights(c: Config, s: System): map<TaskId, nat> {
    map id | id in s.store.records :: Weight(c, s.store.records[id])
  }

  ghost function Work(c: Config, s: System): nat {
    Total(Weights(c, s))
  }

  predicate Cancels(l: Label) {
    l.Cancel? || (l.Finish? && l.outcome.Cancelled?)
  }

  /** A worker starts, finishes, fails or retries its task. */
  predicate Productive(s: System, l: Label) {
    Writes(s, l) && !Cancels(l)
  }

  /** No new task, no cancellation, no crash, no loss, no recovery. */
  predicate Undisturbed(l: Label) {
    !l.Create? && !Cancels(l) && !l.Abandon? && !l.Crash? && !l.CrashHandler? && !l.LoseQueue? && !l.Recover?
  }

  lemma WeightDrops(c: Config, b: Worker, t: Task, a: Worker)
    requires InStep(b) && Produces(c, b, t, a) && RecordOk(c, Carried(b).value)
    requires t.status.Interrupted? ==> a.Retrying?
    ensures t.id == Carried(b).value.id && Weight(c, t) < Weight(c, Carried(b).value)
  {}

  lemma ProductiveWrite(c: Config, s: System, w: nat, t: Task, a: Worker)
    requires Core(s) && RecordsOk(c, s) && w in s.workers && Produces(c, s.workers[w], t, a)
    requires t.status.Interrupted? ==> a.Retrying?
    ensures Work(c, Write(s, w, t, a)) < Work(c, s)
  {
    var s' := Write(s, w, t, a);
    assert HandOk(s, w);
    WeightDrops(c, s.workers[w], t, a);
    WriteSetsRecord(s.store, t);
    assert Weights(c, s') == Weights(c, s)[t.id := Weight(c, t)];
    TotalUpdate(Weights(c, s), t.id, Weight(c, t));
  }

  /** A productive step uses up work; every other undisturbed step, re-queuing included, keeps it. */
  lemma WorkStep(c: Config, s: System, l: Label)
    requires Core(s) && RecordsOk(c, s) && Enabled(c, s, l) && Undisturbed(l)
    ensures Productive(s, l) ==> Work(c, Next(c, s, l)) < Work(c, s)
    ensures !Productive(s, l) ==> Work(c, Next(c, s, l)) == Work(c, s)
  {
    if Productive(s, l) {
      var t, a := WriterStep(c, s, l);
      NotCancelled(c, s, l, t, a);
      ProductiveWrite(c, s, l.w, t, a);
    } else {
      OthersKeepTheStore(c, s, l);
    }
  }

  lemma NotCancelled(c: Config, s: System, l: Label, t: Task, a: Worker)
    requires Core(s) && Enabled(c, s, l) && Productive(s, l)
    requires l.w in s.workers && Produces(c, s.workers[l.w], t, a) && Next(c, s, l) == Write(s, l.w, t, a)
    ensures t.status.Interrupted? ==> a.Retrying?
  {
    var s' := Write(s, l.w, t, a);
    assert s'.workers[l.w] == a && s'.store.records[t.id] == t;
  }

  // ---- a bound for all runs --------------------------------------------------

  ghost predicate AllUndisturbed(ls: seq<Label>) {
    forall l | l in ls :: Undisturbed(l)
  }

  ghost function ProductiveSteps(c: Config, s: System, ls: seq<Label>): nat
    requires CanRun(c, s, ls)
    decreases |ls|
  {
    if ls == [] then 0
    else (if Productive(s, ls[0]) then 1 else 0) + ProductiveSteps(c, Next(c, s, ls[0]), ls[1..])
  }

  /** However long N workers go on undisturbed, they take at most `Work` productive steps. */
  lemma {:induction false} WorkBoundsRuns(c: Config, s: System, ls: seq<Label>)
    requires Core(s) && RecordsOk(c, s) && CanRun(c, s, ls) && AllUndisturbed(ls)
    ensures ProductiveSteps(c, s, ls) + Work(c, Run(c, s, ls)) <= Work(c, s)
    decreases |ls|
  {
    if ls != [] {
      assert ls[0] in ls;
      CoreStep(c, s, ls[0]);
      RecordsStep(c, s, ls[0]);
      WorkStep(c, s, ls[0]);
      assert forall l | l in ls[1..] :: l in ls;
      WorkBoundsRuns(c, Next(c, s, ls[0]), ls[1..]);
    }
  }
}
