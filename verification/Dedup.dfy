/**
 * Request deduplication: the digest index points to exactly the unfinished tasks, and no two
 * of them answer the same request. The two facts need each other, because a task that ends
 * deletes its digest key without looking whom it points to.
 */
module Dedup {
  import opened Tasks
  import opened Stores
  import opened StoreRefinement
  import opened Recovery
  import opened Protocol
  import opened Conservation

  ghost predicate OnePending(s: Store) {
    forall i, j | i in s.records && j in s.records && s.records[i].status.Pending? && s.records[j].status.Pending? ::
      s.records[i].project == s.records[j].project ==> i == j
  }

  ghost predicate Consistent(s: Store) {
    Keyed(s) && IndexAgrees(s) && DigestAgrees(s) && OnePending(s)
  }

  /** The two checks of `create_task` let the request through. */
  predicate Admits(s: Store, project: string, requirement: string) {
    !HasIncomplete(s, project) && FindByDigest(s, project, requirement).None?
  }

  predicate SameKey(t: Task, u: Task) {
    && t.requirement != "" && u.requirement != ""
    && t.project + ['\0'] + t.requirement == u.project + ['\0'] + u.requirement
  }

  /** `id` is a PENDING or RUNNING task of the project. */
  predicate Unsettled(s: Store, id: TaskId, project: string) {
    && id in s.records && s.records[id].project == project
    && (s.records[id].status.Pending? || s.records[id].status.Running?)
  }

  lemma IncompleteIsStored(s: Store, project: string)
    requires IndexAgrees(s)
    ensures HasIncomplete(s, project) <==> exists id :: Unsettled(s, id, project)
  {
    if id :| Unsettled(s, id, project) {
      assert id in Members(s, project) <==> Belongs(s, project, id);
      assert s.records[id] in Listed(s, project);
    }
    if HasIncomplete(s, project) {
      var t :| t in Listed(s, project) && t.IsIncomplete();
      var id :| id in Members(s, project) && id in s.records && s.records[id] == t;
      assert Belongs(s, project, id) && Unsettled(s, id, project);
    }
  }

  /**
   * A request is let through iff the project has no PENDING or RUNNING task and no unfinished
   * task has its digest key. INTERRUPTED tasks of the project block only through the key.
   */
  lemma AdmitsExactly(s: Store, project: string, requirement: string)
    requires Consistent(s)
    ensures Admits(s, project, requirement) <==>
              forall id | id in s.records ::
                && !Unsettled(s, id, project)
                && !Answers(s, id, DigestKey(project, requirement))
  {
    IncompleteIsStored(s, project);
    FindByDigestExact(s, project, requirement);
  }

  // ---- saving ----------------------------------------------------------------

  lemma SaveKeepsDigests(s: Store, t: Task)
    requires Consistent(s) && t.id !in s.records && !t.IsTerminal()
    requires forall id | Stores.Active(s, id) :: !SameKey(s.records[id], t)
    ensures DigestAgrees(SaveNew(s, t))
  {
    var s' := SaveNew(s, t);
    SaveSetsRecord(s, t);
    forall k | k in s'.digests
      ensures Stores.Active(s', s'.digests[k]) && s'.records[s'.digests[k]].requirement != ""
              && KeyOf(s'.records[s'.digests[k]]) == k
    {}
  }

  /** Nothing stored stands in the way of saving `t`. */
  ghost predicate Unclashed(s: Store, t: Task) {
    && (forall id | Stores.Active(s, id) :: !SameKey(s.records[id], t))
    && (forall id | id in s.records && s.records[id].status.Pending? :: s.records[id].project != t.project)
  }

  lemma SaveUnclashed(s: Store, t: Task)
    requires Consistent(s) && t.id !in s.records && t.status.Pending? && Unclashed(s, t)
    ensures Consistent(SaveNew(s, t))
  {
    SaveKeepsDigests(s, t);
    SaveKeepsIndex(s, t);
    SaveSetsRecord(s, t);
  }

  predicate Clashes(t: Task, u: Task) {
    t.project == u.project || SameKey(t, u)
  }

  lemma ClashIsInconsistent(s: Store, t: Task, u: Task)
    requires t.id in s.records && s.records[t.id] == t && t.status.Pending?
    requires u.id in s.records && s.records[u.id] == u && u.status.Pending?
    requires t.id != u.id && Clashes(t, u)
    ensures !Consistent(s)
  {
    assert Stores.Active(s, t.id) && Stores.Active(s, u.id);
  }

  /**
   * Whenever the checks were made: saving a new task keeps the store consistent iff, at the
   * moment of the save, no unfinished task has its key and no PENDING one its project.
   */
  lemma SaveConsistentIff(s: Store, t: Task)
    requires Consistent(s) && t.id !in s.records && t.status.Pending?
    ensures Consistent(SaveNew(s, t)) <==> Unclashed(s, t)
  {
    var s' := SaveNew(s, t);
    SaveSetsRecord(s, t);
    if id :| Stores.Active(s, id) && SameKey(s.records[id], t) {
      assert Stores.Active(s', id) && Stores.Active(s', t.id) && KeyOf(s'.records[id]) == KeyOf(s'.records[t.id]);
    } else if id :| id in s.records && s.records[id].status.Pending? && s.records[id].project == t.project {
      ClashIsInconsistent(s', s.records[id], t);
    } else {
      SaveUnclashed(s, t);
    }
  }

  lemma AdmittedIsUnclashed(s: Store, t: Task)
    requires Consistent(s) && Admits(s, t.project, t.requirement)
    ensures Unclashed(s, t)
  {
    AdmitsExactly(s, t.project, t.requirement);
  }

  lemma SaveConsistent(s: Store, t: Task)
    requires Consistent(s) && t.id !in s.records && t.status.Pending?
    requires Admits(s, t.project, t.requirement)
    ensures Consistent(SaveNew(s, t))
  {
    AdmittedIsUnclashed(s, t);
    SaveUnclashed(s, t);
  }

  // ---- the race of check and save --------------------------------------------

  function SaveAll(s: Store, ts: seq<Task>): Store
    decreases |ts|
  {
    if ts == [] then s else SaveAll(SaveNew(s, ts[0]), ts[1..])
  }

  /** New PENDING tasks with different ids, none of which is blocked by what `s` stores. */
  ghost predicate Contenders(s: Store, ts: seq<Task>) {
    && (forall i | 0 <= i < |ts| :: ts[i].id !in s.records && ts[i].status.Pending? && Unclashed(s, ts[i]))
    && forall i, j | 0 <= i < j < |ts| :: ts[i].id != ts[j].id
  }

  ghost predicate NoClash(ts: seq<Task>) {
    forall i, j | 0 <= i < j < |ts| :: !Clashes(ts[i], ts[j])
  }

  lemma {:induction false} AllAreSaved(s: Store, ts: seq<Task>)
    requires forall i, j | 0 <= i < j < |ts| :: ts[i].id != ts[j].id
    ensures forall i | 0 <= i < |ts| :: ts[i].id in SaveAll(s, ts).records && SaveAll(s, ts).records[ts[i].id] == ts[i]
    ensures forall id | id in s.records && (forall i | 0 <= i < |ts| :: ts[i].id != id) ::
              id in SaveAll(s, ts).records && SaveAll(s, ts).records[id] == s.records[id]
    decreases |ts|
  {
    if ts != [] {
      SaveSetsRecord(s, ts[0]);
      AllAreSaved(SaveNew(s, ts[0]), ts[1..]);
      assert forall i | 0 < i < |ts| :: ts[1..][i - 1] == ts[i];
    }
  }

  lemma RestContends(s: Store, ts: seq<Task>)
    requires Contenders(s, ts) && NoClash(ts) && ts != []
    ensures Contenders(SaveNew(s, ts[0]), ts[1..]) && NoClash(ts[1..])
  {
    SaveSetsRecord(s, ts[0]);
    var s' := SaveNew(s, ts[0]);
    forall i | 0 <= i < |ts[1..]|
      ensures ts[1..][i].id !in s'.records && Unclashed(s', ts[1..][i])
    {
      assert ts[1..][i] == ts[i + 1] && !Clashes(ts[0], ts[i + 1]);
      assert Unclashed(s, ts[i + 1]);
    }
  }

  lemma {:induction false} ContendersIff(s: Store, ts: seq<Task>)
    requires Consistent(s) && Contenders(s, ts)
    ensures Consistent(SaveAll(s, ts)) <==> NoClash(ts)
    decreases |ts|
  {
    if !NoClash(ts) {
      var i, j :| 0 <= i < j < |ts| && Clashes(ts[i], ts[j]);
      AllAreSaved(s, ts);
      ClashIsInconsistent(SaveAll(s, ts), ts[i], ts[j]);
    } else if ts != [] {
      SaveUnclashed(s, ts[0]);
      RestContends(s, ts);
      ContendersIff(SaveNew(s, ts[0]), ts[1..]);
    }
  }

  /**
   * `create_task` checks and then saves. When any number of requests are all checked against
   * the same store and then all saved, the store stays consistent exactly if no two clash.
   */
  lemma RaceIff(s: Store, ts: seq<Task>)
    requires Consistent(s)
    requires forall i | 0 <= i < |ts| ::
               && ts[i].id !in s.records && ts[i].status.Pending?
               && Admits(s, ts[i].project, ts[i].requirement)
    requires forall i, j | 0 <= i < j < |ts| :: ts[i].id != ts[j].id
    ensures Consistent(SaveAll(s, ts)) <==> NoClash(ts)
  {
    forall i | 0 <= i < |ts|
      ensures Unclashed(s, ts[i])
    {
      AdmittedIsUnclashed(s, ts[i]);
    }
    ContendersIff(s, ts);
  }

  /** Two first requests for one project both pass the checks, and both are then PENDING. */
  lemma FirstRequestsRace(t: Task, u: Task)
    requires t.id != u.id && t.status.Pending? && u.status.Pending? && t.project == u.project
    ensures Consistent(EMPTY)
    ensures Admits(EMPTY, t.project, t.requirement) && Admits(EMPTY, u.project, u.requirement)
    ensures !Consistent(SaveNew(SaveNew(EMPTY, t), u))
  {
    assert Consistent(EMPTY);
    var ts := [t, u];
    RaceIff(EMPTY, ts);
    assert Clashes(ts[0], ts[1]);
    assert ts[1..] == [u] && [u][1..] == [];
    assert SaveAll(EMPTY, ts) == SaveAll(SaveNew(EMPTY, t), [u]) == SaveNew(SaveNew(EMPTY, t), u);
  }

  /** Requests that clash are just those the second check would stop if made after the first save. */
  lemma SecondCheckStopsClashes(s: Store, t: Task, u: Task)
    requires Consistent(s) && t.id !in s.records && t.status.Pending?
    requires Admits(s, t.project, t.requirement) && Admits(s, u.project, u.requirement)
    requires u.requirement != "" || (NulFree(t.project) && NulFree(u.project))
    ensures Admits(SaveNew(s, t), u.project, u.requirement) <==> !Clashes(t, u)
  {
    SaveConsistent(s, t);
    SaveSetsRecord(s, t);
    AdmitsExactly(s, u.project, u.requirement);
    var s1 := SaveNew(s, t);
    AdmitsExactly(s1, u.project, u.requirement);
    assert t.id in s1.records && s1.records[t.id] == t && Stores.Active(s1, t.id);
    if KeyOf(t) == KeyOf(u) && u.requirement == "" {
      DigestKeyInjective(t.project, t.requirement, u.project, u.requirement);
    }
    if !Clashes(t, u) {
      forall id | id in s1.records
        ensures !Unsettled(s1, id, u.project)
        ensures !Answers(s1, id, DigestKey(u.project, u.requirement))
      {
        assert id != t.id ==> id in s.records && s1.records[id] == s.records[id];
      }
    }
  }

  // ---- updating --------------------------------------------------------------

  lemma UpdateConsistent(s: Store, t: Task)
    requires Consistent(s) && Stores.Active(s, t.id) && SameRequest(s.records[t.id], t) && !t.status.Pending?
    ensures Consistent(Updated(s, t))
  {
    UpdateKeepsIndexIff(s, t);
    WriteSetsRecord(s, t);
    var s' := Updated(s, t);
    assert KeyOf(t) == KeyOf(s.records[t.id]);
    forall k | k in s'.digests
      ensures Stores.Active(s', s'.digests[k]) && s'.records[s'.digests[k]].requirement != ""
              && KeyOf(s'.records[s'.digests[k]]) == k
    {
      assert k in s.digests;
    }
    forall id | Stores.Active(s', id) && s'.records[id].requirement != ""
      ensures KeyOf(s'.records[id]) in s'.digests && s'.digests[KeyOf(s'.records[id])] == id
    {
      assert Stores.Active(s, id);
    }
  }

  lemma RecoverConsistent(s: Store)
    requires Consistent(s)
    ensures Consistent(RecoveredStore(s))
  {
    var s' := RecoveredStore(s);
    forall p: string, id: TaskId
      ensures id in Members(s', p) <==> Belongs(s', p, id)
    {
      assert id in Members(s, p) <==> Belongs(s, p, id);
    }
    forall id | Stores.Active(s', id) && s'.records[id].requirement != ""
      ensures KeyOf(s'.records[id]) in s'.digests && s'.digests[KeyOf(s'.records[id])] == id
    {
      assert Stores.Active(s, id);
    }
  }

  // ---- runs ------------------------------------------------------------------

  lemma ConsistentStep(c: Config, s: System, l: Label)
    requires Core(s) && Consistent(s.store) && Enabled(c, s, l)
    ensures Consistent(Next(c, s, l).store)
  {
    if Writes(s, l) {
      var t, a := WriterStep(c, s, l);
      assert HandOk(s, l.w);
      ProducesOnward(c, s.workers[l.w], t, a);
      assert t.id in s.place <==> Stores.Active(s.store, t.id);
      UpdateConsistent(s.store, t);
    } else if l.Create? {
      SaveConsistent(s.store, Fresh(l.id, l.project, l.requirement, l.workDir, l.configJson));
    } else if l.Recover? {
      RecoverConsistent(s.store);
    } else {
      OthersKeepTheStore(c, s, l);
    }
  }

  lemma {:induction false} ConsistentRun(c: Config, s: System, ls: seq<Label>)
    requires Core(s) && Consistent(s.store) && OrderlyRun(c, s, ls)
    ensures CanRun(c, s, ls) && Consistent(Run(c, s, ls).store)
    decreases |ls|
  {
    if ls != [] {
      CoreStep(c, s, ls[0]);
      ConsistentStep(c, s, ls[0]);
      ConsistentRun(c, Next(c, s, ls[0]), ls[1..]);
    }
  }

  lemma ReachableConsistent(c: Config, workers: set<nat>, ls: seq<Label>)
    requires OrderlyRun(c, Init(workers), ls)
    ensures CanRun(c, Init(workers), ls) && Consistent(Run(c, Init(workers), ls).store)
  {
    CoreInit(workers);
    ConsistentRun(c, Init(workers), ls);
  }

  predicate SameWork(t: Task, u: Task) {
    t.project == u.project && t.requirement == u.requirement && t.requirement != ""
  }

  /**
   * Dedup uniqueness in every state of an orderly run: at most one PENDING task per project, at most
   * one unfinished task per digest key, hence at most one per project and non-empty requirement.
   */
  lemma DedupUniqueness(c: Config, workers: set<nat>, ls: seq<Label>, i: TaskId, j: TaskId)
    requires OrderlyRun(c, Init(workers), ls)
    ensures CanRun(c, Init(workers), ls)
    ensures var s := Run(c, Init(workers), ls).store;
            && OnePending(s)
            && (Stores.Active(s, i) && Stores.Active(s, j) && SameKey(s.records[i], s.records[j]) ==> i == j)
            && (Stores.Active(s, i) && Stores.Active(s, j) && SameWork(s.records[i], s.records[j]) ==> i == j)
  {
    ReachableConsistent(c, workers, ls);
  }

  /**
   * Digest agreement in every state of an orderly run: a lookup finds a task iff an unfinished one with
   * this digest key is stored; if names are NUL-free, iff an unfinished one with exactly this
   * project and non-empty requirement is stored.
   */
  lemma DigestAgreement(c: Config, workers: set<nat>, ls: seq<Label>, project: string, requirement: string)
    requires OrderlyRun(c, Init(workers), ls)
    ensures CanRun(c, Init(workers), ls)
    ensures var s := Run(c, Init(workers), ls).store;
            var found := FindByDigest(s, project, requirement);
            && (found.Some? <==> exists id :: Answers(s, id, DigestKey(project, requirement)))
            && (found.Some? ==> Answers(s, found.value.id, DigestKey(project, requirement)))
            && (NulFree(project) && (forall id | id in s.records :: NulFree(s.records[id].project)) ==>
                  && (found.Some? <==> requirement != "" && exists id :: Requested(s, id, project, requirement))
                  && (found.Some? ==> Requested(s, found.value.id, project, requirement)))
  {
    ReachableConsistent(c, workers, ls);
    var s := Run(c, Init(workers), ls).store;
    FindByDigestExact(s, project, requirement);
    if NulFree(project) && forall id | id in s.records :: NulFree(s.records[id].project) {
      FindByDigestByRequest(s, project, requirement);
    }
  }
}
