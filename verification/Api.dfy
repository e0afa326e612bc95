/** The task-creation endpoint: two dedup checks, then save and enqueue. */
module Api {
  import opened Tasks
  import opened Stores
  import opened Queues
  import opened Dedup

  /** A PENDING or RUNNING task is listed for the project. */
  ghost predicate Busy(s: Store, project: string) {
    exists t :: InProject(s.records, s.index, project, t) && (t.status.Pending? || t.status.Running?)
  }

  /** The digest key of the request points to a stored task. */
  predicate Known(s: Store, project: string, requirement: string) {
    project + ['\0'] + requirement in s.digests && s.digests[project + ['\0'] + requirement] in s.records
  }

  /** `existing` is what the dedup checks answer: an unfinished task of the project first, then the digest's. */
  ghost predicate IsDuplicateOf(s: Store, project: string, requirement: string, existing: Task) {
    if Busy(s, project) then
      InProject(s.records, s.index, project, existing) && (existing.status.Pending? || existing.status.Running?)
    else
      Known(s, project, requirement) && existing == s.records[s.digests[project + ['\0'] + requirement]]
  }

  lemma AdmitsIs(s: Store, project: string, requirement: string)
    ensures Busy(s, project) <==> HasIncomplete(s, project)
    ensures Admits(s, project, requirement) <==> !Busy(s, project) && !Known(s, project, requirement)
  {
    if HasIncomplete(s, project) {
      var t :| t in Listed(s, project) && t.IsIncomplete();
      ListedIsInProject(s, project, t);
    }
    if Busy(s, project) {
      var t :| InProject(s.records, s.index, project, t) && (t.status.Pending? || t.status.Running?);
      ListedIsInProject(s, project, t);
      assert t.IsIncomplete();
    }
  }

  /** `id` is the freshly drawn uuid. */
  method CreateTask(
    store: TaskStore, queue: TaskQueue,
    id: TaskId, project: string, requirement: string, workDir: string, configJson: string)
    returns (response: Task)
    requires Keyed(store.State()) && id !in store.records
    modifies store, queue
    ensures Admits(old(store.State()), project, requirement)
            <==> !Busy(old(store.State()), project) && !Known(old(store.State()), project, requirement)
    ensures Admits(old(store.State()), project, requirement) ==>
              && response.id == id && response.project == project && response.requirement == requirement
              && response.workDir == workDir && response.configJson == configJson
              && response.status.Pending? && response.mode.Unknown? && response.retryCount == 0
              && store.records == old(store.records)[id := response]
    ensures Admits(old(store.State()), project, requirement) ==>
              && response == Fresh(id, project, requirement, workDir, configJson)
              && store.State() == SaveNew(old(store.State()), response)
              && queue.Contents() == old(queue.Contents()) + [response]
    ensures !Admits(old(store.State()), project, requirement) ==>
              && IsDuplicateOf(old(store.State()), project, requirement, response)
              && store.State() == old(store.State())
              && queue.Contents() == old(queue.Contents())
  {
    AdmitsIs(store.State(), project, requirement);
    var existing := store.FindIncomplete(project);
    if existing.None? {
      existing := store.LookupDigest(project, requirement);
    }
    if existing.Some? {
      return existing.value;
    }
    response := Fresh(id, project, requirement, workDir, configJson);
    var saved := store.Save(response);
    queue.Enqueue(response);
  }

  /**
   * In a consistent store every answer to a request is an unfinished task: the one just saved,
   * a PENDING or RUNNING one of the same project, or one with the same digest key; and saving
   * keeps the store consistent.
   */
  lemma AnswersAreUnfinished(s: Store, id: TaskId, project: string, requirement: string, wd: string, cj: string, answer: Task)
    requires Consistent(s) && id !in s.records
    requires if Admits(s, project, requirement) then answer == Fresh(id, project, requirement, wd, cj)
             else IsDuplicateOf(s, project, requirement, answer)
    ensures !answer.status.Success? && !answer.status.Failed?
    ensures answer.project == project || KeyOf(answer) == DigestKey(project, requirement)
    ensures Admits(s, project, requirement) ==> Consistent(SaveNew(s, answer))
    ensures !Admits(s, project, requirement) ==> answer.id in s.records && s.records[answer.id] == answer
  {
    AdmitsIs(s, project, requirement);
    if Admits(s, project, requirement) {
      SaveConsistent(s, answer);
    } else if Busy(s, project) {
      var i :| project in s.index && i in s.index[project] && i in s.records && s.records[i] == answer;
      assert i in Members(s, project) <==> Belongs(s, project, i);
    } else {
      FindByDigestExact(s, project, requirement);
    }
  }
}
