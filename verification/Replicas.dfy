/**
 * Recovery at the startup of one replica while others are live. It demotes and re-queues what
 * live workers, handlers and the queue still carry.
 */
module Replicas {
  import opened Tasks
  import opened Stores
  import opened Recovery
  import opened Protocol
  import opened Conservation
  import opened Lifecycle
  import opened Restart

  /** What the recovery scan changes: the store and the queue, and no worker or handler. */
  function Rescan(s: System, order: seq<TaskId>): System {
    s.(store := RecoveredStore(s.store), queue := s.queue + Payloads(s.store, order))
  }

  lemma OneMore(a: set<Carrier>, b: set<Carrier>, d: set<Carrier>, x: Carrier)
    requires x !in a + b + d
    ensures |a + (b + {x}) + d| == |a + b + d| + 1
  {
    assert a + (b + {x}) + d == (a + b + d) + {x};
  }

  lemma NoHandIsEntry(workers: map<nat, Worker>, id: TaskId, n: nat)
    ensures ByEntry(n) !in Hands(workers, id)
  {}

  lemma CarriersGrow(s: System, s': System, id: TaskId, n: nat)
    requires s'.handlers == s.handlers && s'.workers == s.workers
    requires ByEntry(n) !in Entries(s.queue, id) && Entries(s'.queue, id) == Entries(s.queue, id) + {ByEntry(n)}
    ensures |Carriers(s', id)| == |Carriers(s, id)| + 1
  {
    NoHandIsEntry(s.workers, id, n);
    OneMore(if id in s.handlers then {ByHandler} else {}, Entries(s.queue, id), Hands(s.workers, id), ByEntry(n));
  }

  /** Beside whatever is live, recovery adds one carrier to each unfinished task, and none to another. */
  lemma RescanAddsOneCarrier(s: System, order: seq<TaskId>, id: TaskId)
    requires Keyed(s.store) && Enumerates(order, s.store)
    ensures |Carriers(Rescan(s, order), id)| == |Carriers(s, id)| + if Stores.Active(s.store, id) then 1 else 0
  {
    var n := EntriesGrow(s.store, order, s.queue, id);
    if Stores.Active(s.store, id) {
      CarriersGrow(s, Rescan(s, order), id, n);
    }
  }

  /** So no task has two carriers afterwards iff every unfinished task had been stranded. */
  lemma RescanIsUniqueIff(s: System, order: seq<TaskId>)
    requires Core(s) && Enumerates(order, s.store)
    ensures UniqueCarriers(Rescan(s, order)) <==> forall id | Stores.Active(s.store, id) :: IsStranded(s, id)
  {
    var s' := Rescan(s, order);
    forall id
      ensures |Carriers(s', id)| <= 1 <==> (Stores.Active(s.store, id) ==> IsStranded(s, id))
    {
      RescanAddsOneCarrier(s, order, id);
      CarriersExact(s, id);
      assert id in s.place <==> Stores.Active(s.store, id);
    }
    if UniqueCarriers(s') {
      forall id | Stores.Active(s.store, id)
        ensures IsStranded(s, id)
      {
        assert |Carriers(s', id)| <= 1;
      }
    }
  }

  /**
   * Every stream that is live during the recovery has its record demoted, and if it then succeeds,
   * stored as SUCCESS straight from INTERRUPTED: outside the life cycle.
   */
  lemma LiveStreamLeavesLifecycle(c: Config, s: System, order: seq<TaskId>, w: nat)
    requires Core(s) && w in s.workers && s.workers[w].Streaming?
    ensures var id, s1 := s.workers[w].task.id, Rescan(s, order);
            && id in s1.store.records && s1.store.records[id].status.Interrupted?
            && Enabled(c, s1, Finish(w, Completed))
            && var s2 := Next(c, s1, Finish(w, Completed));
               && id in s2.store.records && s2.store.records[id].status.Success?
               && !StoreEvolves(s1, s2)
  {
    var id, s1 := s.workers[w].task.id, Rescan(s, order);
    var s2 := Next(c, s1, Finish(w, Completed));
    assert HandOk(s, w);
    assert s2.store.records[id] == s.workers[w].task.(status := Success);
    assert !Evolves(s1.store.records[id], s2.store.records[id]);
  }
}
