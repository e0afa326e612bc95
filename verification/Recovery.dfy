/** Startup recovery: scan the record keys, demote RUNNING to INTERRUPTED, re-queue what is unfinished. */
module Recovery {
  import opened Tasks
  import opened Stores

  function Demote(t: Task): Task {
    if t.status.Running? then t.(status := Interrupted) else t
  }

  function RecoveredStore(s: Store): Store {
    s.(records := map id | id in s.records :: Demote(s.records[id]))
  }

  /** The payloads recovery appends when it visits `ids` in this order. */
  function Payloads(s: Store, ids: seq<TaskId>): seq<Task> {
    if ids == [] then []
    else (if Active(s, ids[0]) then [Demote(s.records[ids[0]])] else []) + Payloads(s, ids[1..])
  }

  predicate Distinct(ids: seq<TaskId>) {
    forall i, j | 0 <= i < j < |ids| :: ids[i] != ids[j]
  }

  /** The scan yields the key of every record exactly once. */
  ghost predicate Enumerates(ids: seq<TaskId>, s: Store) {
    Distinct(ids) && forall id :: id in ids <==> id in s.records
  }

  /** A payload is appended for exactly the active records visited, in its demoted form. */
  lemma {:induction false} PayloadsExact(s: Store, ids: seq<TaskId>)
    requires Keyed(s) && Distinct(ids)
    ensures forall p :: p in Payloads(s, ids) <==>
              p.id in ids && Active(s, p.id) && p == Demote(s.records[p.id])
    ensures Distinct(Ids(Payloads(s, ids)))
  {
    if ids != [] {
      var rest := Payloads(s, ids[1..]);
      PayloadsExact(s, ids[1..]);
      assert forall id :: id in ids <==> id == ids[0] || id in ids[1..];
      assert forall i | 0 <= i < |rest| :: rest[i] in rest;
      assert forall i | 0 <= i < |rest| :: rest[i].id in ids[1..];
      if Active(s, ids[0]) {
        var head := Demote(s.records[ids[0]]);
        assert Payloads(s, ids) == [head] + rest;
        assert Ids([head] + rest) == [head.id] + Ids(rest);
        assert ids[0] !in ids[1..];
      } else {
        assert Payloads(s, ids) == rest;
      }
    }
  }

  function Ids(q: seq<Task>): (ids: seq<TaskId>)
    ensures |ids| == |q| && forall i | 0 <= i < |q| :: ids[i] == q[i].id
  {
    seq(|q|, i requires 0 <= i < |q| => q[i].id)
  }
}
