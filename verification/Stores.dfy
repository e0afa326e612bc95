/**
 * The Redis-backed task store: records, a project -> ids set, and a digest -> id key.
 * The key families are kept as three maps; `RecoveryScan.FilterExact` says why record and
 * digest keys do not get mixed up.
 */
module Stores {
  import opened Wrappers
  import opened Tasks

  const NUL: char := '\0'

  /** The bytes that are hashed into a digest key. SHA-256 is taken to be collision-free. */
  function DigestKey(project: string, requirement: string): string {
    project + [NUL] + requirement
  }

  function KeyOf(t: Task): string {
    DigestKey(t.project, t.requirement)
  }

  datatype Store = Store(
    records: map<TaskId, Task>,
    index: map<string, set<TaskId>>,
    digests: map<string, TaskId>)

  const EMPTY: Store := Store(map[], map[], map[])

  // ---- single Redis commands -------------------------------------------------

  function SetRecord(s: Store, t: Task): Store {
    s.(records := s.records[t.id := t])
  }

  function AddToIndex(s: Store, t: Task): Store {
    s.(index := s.index[t.project := Members(s, t.project) + {t.id}])
  }

  function SetDigest(s: Store, t: Task): Store {
    if t.requirement != "" then s.(digests := s.digests[KeyOf(t) := t.id]) else s
  }

  function DropDigest(s: Store, t: Task): Store {
    if t.IsTerminal() && t.requirement != "" then s.(digests := s.digests - {KeyOf(t)}) else s
  }

  // ---- whole operations ------------------------------------------------------

  function SaveNew(s: Store, t: Task): Store {
    SetDigest(AddToIndex(SetRecord(s, t), t), t)
  }

  function Updated(s: Store, t: Task): Store {
    DropDigest(SetRecord(s, t), t)
  }

  function Members(s: Store, project: string): set<TaskId> {
    if project in s.index then s.index[project] else {}
  }

  function Get(s: Store, id: TaskId): Option<Task> {
    if id in s.records then Some(s.records[id]) else None
  }

  function Listed(s: Store, project: string): set<Task> {
    set id | id in Members(s, project) && id in s.records :: s.records[id]
  }

  predicate HasIncomplete(s: Store, project: string) {
    exists t | t in Listed(s, project) :: t.IsIncomplete()
  }

  predicate HasRunning(s: Store, project: string) {
    exists t | t in Listed(s, project) :: t.status.Running?
  }

  function FindByDigest(s: Store, project: string, requirement: string): Option<Task> {
    var key := DigestKey(project, requirement);
    if key in s.digests then Get(s, s.digests[key]) else None
  }

  // ---- consistency -----------------------------------------------------------

  predicate Keyed(s: Store) {
    forall id | id in s.records :: s.records[id].id == id
  }

  predicate Belongs(s: Store, project: string, id: TaskId) {
    id in s.records && s.records[id].project == project
  }

  /** The project sets hold exactly the ids whose record names that project. */
  ghost predicate IndexAgrees(s: Store) {
    forall p: string, id: TaskId :: id in Members(s, p) <==> Belongs(s, p, id)
  }

  predicate Active(s: Store, id: TaskId) {
    id in s.records && !s.records[id].IsTerminal()
  }

  /**
   * A digest key points to the one active task that has this key, and every active task
   * with a requirement is pointed to. Two active tasks can then not share a key.
   */
  ghost predicate DigestAgrees(s: Store) {
    && (forall k | k in s.digests ::
          && Active(s, s.digests[k])
          && s.records[s.digests[k]].requirement != ""
          && KeyOf(s.records[s.digests[k]]) == k)
    && (forall id | Active(s, id) && s.records[id].requirement != "" ::
          KeyOf(s.records[id]) in s.digests && s.digests[KeyOf(s.records[id])] == id)
  }

  predicate NulFree(name: string) {
    '\0' !in name
  }

  // ---- digest keys -----------------------------------------------------------

  /** `q` is `p` followed by a NUL, and the text after that NUL moved over from `p`'s requirement. */
  predicate Shifted(p: string, r: string, q: string, t: string) {
    && |p| < |q|
    && q == p + ['\0'] + q[|p| + 1..]
    && r == q[|p| + 1..] + ['\0'] + t
  }

  /** Exactly the requests whose digest keys coincide. */
  lemma DigestKeyCollision(p: string, r: string, q: string, t: string)
    ensures DigestKey(p, r) == DigestKey(q, t)
            <==> (p == q && r == t) || Shifted(p, r, q, t) || Shifted(q, t, p, r)
  {
    var k, l := DigestKey(p, r), DigestKey(q, t);
    if k == l {
      KeyParts(p, r);
      KeyParts(q, t);
      if |p| < |q| {
        KeySplit(p, r, q, t);
      } else if |q| < |p| {
        KeySplit(q, t, p, r);
      }
    }
    if Shifted(p, r, q, t) {
      ShiftedCollides(p, r, q, t);
    }
    if Shifted(q, t, p, r) {
      ShiftedCollides(q, t, p, r);
    }
  }

  lemma KeyParts(p: string, r: string)
    ensures DigestKey(p, r)[..|p|] == p && DigestKey(p, r)[|p|] == '\0' && DigestKey(p, r)[|p| + 1..] == r
  {}

  lemma KeySplit(p: string, r: string, q: string, t: string)
    requires DigestKey(p, r) == DigestKey(q, t) && |p| < |q|
    ensures Shifted(p, r, q, t)
  {
    var k := DigestKey(p, r);
    var m := q[|p| + 1..];
    KeyParts(p, r);
    KeyParts(q, t);
    assert q == k[..|q|];
    assert q[..|p|] == p && q[|p|] == NUL;
    assert q == p + [NUL] + m;
    assert r == k[|p| + 1..] == m + [NUL] + t;
  }

  lemma ShiftedCollides(p: string, r: string, q: string, t: string)
    requires Shifted(p, r, q, t)
    ensures DigestKey(p, r) == DigestKey(q, t)
  {
    var m := q[|p| + 1..];
    assert p + [NUL] + (m + [NUL] + t) == p + [NUL] + m + [NUL] + t;
  }

  /** Project names without NUL make the key determine the request. */
  lemma DigestKeyInjective(p: string, r: string, q: string, t: string)
    requires NulFree(p) && NulFree(q) && DigestKey(p, r) == DigestKey(q, t)
    ensures p == q && r == t
  {
    DigestKeyCollision(p, r, q, t);
    KeyParts(p, r);
    KeyParts(q, t);
  }

  /** Names that do contain NUL break it: two different requests share one digest key. */
  lemma NulNamesCollide()
    ensures DigestKey("a", "b\0c") == DigestKey("a\0b", "c")
  {
    assert "a" + [NUL] + "b\0c" == "a\0b" + [NUL] + "c";
  }

  /** `id` is an active task with this digest key. */
  predicate Answers(s: Store, id: TaskId, key: string) {
    Active(s, id) && s.records[id].requirement != "" && KeyOf(s.records[id]) == key
  }

  /** `id` is an active task with exactly this request. */
  predicate Requested(s: Store, id: TaskId, project: string, requirement: string) {
    Active(s, id) && s.records[id].project == project && s.records[id].requirement == requirement
  }

  /** With agreeing digests, a lookup finds a task iff an active one with this key is stored. */
  lemma FindByDigestExact(s: Store, project: string, requirement: string)
    requires Keyed(s) && DigestAgrees(s)
    ensures var key, found := DigestKey(project, requirement), FindByDigest(s, project, requirement);
            && (found.Some? <==> exists id :: Answers(s, id, key))
            && (found.Some? ==> Answers(s, found.value.id, key) && s.records[found.value.id] == found.value)
  {
    var key, found := DigestKey(project, requirement), FindByDigest(s, project, requirement);
    if key in s.digests {
      assert Answers(s, s.digests[key], key);
    }
    if id :| Answers(s, id, key) {
      assert Active(s, id) && s.digests[key] == id;
    }
  }

  /**
   * For NUL-free names the lookup is exact in the request itself: it returns a task iff an
   * active task with this very project and requirement is stored, and it never returns one
   * for the empty requirement.
   */
  lemma FindByDigestByRequest(s: Store, project: string, requirement: string)
    requires Keyed(s) && DigestAgrees(s)
    requires NulFree(project) && forall id | id in s.records :: NulFree(s.records[id].project)
    ensures var found := FindByDigest(s, project, requirement);
            && (found.Some? <==> requirement != "" && exists id :: Requested(s, id, project, requirement))
            && (found.Some? ==> Requested(s, found.value.id, project, requirement))
  {
    FindByDigestExact(s, project, requirement);
    var found := FindByDigest(s, project, requirement);
    if found.Some? {
      DigestKeyInjective(found.value.project, found.value.requirement, project, requirement);
      assert Requested(s, found.value.id, project, requirement);
    }
    if id :| requirement != "" && Requested(s, id, project, requirement) {
      assert Answers(s, id, DigestKey(project, requirement));
    }
  }

  // ---- the store object ------------------------------------------------------

  /** The task `t` is stored under an id of the project's set. */
  predicate InProject(records: map<TaskId, Task>, index: map<string, set<TaskId>>, project: string, t: Task) {
    exists id :: project in index && id in index[project] && id in records && records[id] == t
  }

  lemma ListedIsInProject(s: Store, project: string, t: Task)
    ensures t in Listed(s, project) <==> InProject(s.records, s.index, project, t)
  {
    if InProject(s.records, s.index, project, t) {
      var id :| project in s.index && id in s.index[project] && id in s.records && s.records[id] == t;
      assert id in Members(s, project);
    }
  }

  /**
   * The Redis keys of the store. Every method states the whole new state, twice: as the
   * specification function the other modules use, and key by key.
   */
  class TaskStore {
    var records: map<TaskId, Task>
    var index: map<string, set<TaskId>>
    var digests: map<string, TaskId>
    /** Auxiliary: every record written, in order. No method looks at it. */
    var written: seq<Task>

    constructor ()
      ensures State() == EMPTY && records == map[] && index == map[] && digests == map[] && written == []
    {
      records, index, digests, written := map[], map[], map[], [];
    }

    function State(): Store
      reads this
    {
      Store(records, index, digests)
    }

    /** Persists a new task; `ok` is false for a ValueError: the id is taken. */
    method Save(t: Task) returns (ok: bool)
      modifies this
      ensures ok <==> t.id !in old(records)
      ensures State() == if ok then SaveNew(old(State()), t) else old(State())
      ensures records == if ok then old(records)[t.id := t] else old(records)
      ensures written == if ok then old(written) + [t] else old(written)
      ensures index == if ok
                       then old(index)[t.project := (if t.project in old(index) then old(index)[t.project] else {}) + {t.id}]
                       else old(index)
      ensures digests == if ok && t.requirement != ""
                         then old(digests)[t.project + ['\0'] + t.requirement := t.id]
                         else old(digests)
    {
      if t.id in records {
        return false;
      }
      records, written := records[t.id := t], written + [t];
      var ids := if t.project in index then index[t.project] else {};
      index := index[t.project := ids + {t.id}];
      if t.requirement != "" {
        digests := digests[DigestKey(t.project, t.requirement) := t.id];
      }
      ok := true;
    }

    /** Overwrites a record and clears the digest key when the task has become terminal. */
    method Update(t: Task)
      modifies this
      ensures State() == Updated(old(State()), t)
      ensures records == old(records)[t.id := t] && index == old(index) && written == old(written) + [t]
      ensures digests == if (t.status.Success? || t.status.Failed?) && t.requirement != ""
                         then old(digests) - {t.project + ['\0'] + t.requirement}
                         else old(digests)
    {
      records, written := records[t.id := t], written + [t];
      if t.IsTerminal() && t.requirement != "" {
        digests := digests - {DigestKey(t.project, t.requirement)};
      }
    }

    method Lookup(id: TaskId) returns (found: Option<Task>)
      ensures found == Get(State(), id)
      ensures found == if id in records then Some(records[id]) else None
    {
      found := if id in records then Some(records[id]) else None;
    }

    /** The tasks of a project, each stored one once, in an order SMEMBERS chooses. */
    method ListByProject(project: string) returns (tasks: seq<Task>)
      requires Keyed(State())
      ensures forall t :: t in tasks <==> t in Listed(State(), project)
      ensures forall t :: t in tasks <==> InProject(records, index, project, t)
      ensures forall i, j | 0 <= i < j < |tasks| :: tasks[i].id != tasks[j].id
    {
      tasks := [];
      var todo := if project in index then index[project] else {};
      while todo != {}
        invariant todo <= Members(State(), project)
        invariant forall t :: t in tasks <==>
                    t in Listed(State(), project) && t.id !in todo
        invariant forall i, j | 0 <= i < j < |tasks| :: tasks[i].id != tasks[j].id
        decreases todo
      {
        var id :| id in todo;
        todo := todo - {id};
        if id in records {
          tasks := tasks + [records[id]];
        }
      }
      forall t
        ensures t in Listed(State(), project) <==> InProject(records, index, project, t)
      {
        ListedIsInProject(State(), project, t);
      }
    }

    method HasRunningTask(project: string) returns (running: bool)
      requires Keyed(State())
      ensures running <==> HasRunning(State(), project)
      ensures running <==> exists t :: InProject(records, index, project, t) && t.status.Running?
    {
      var tasks := ListByProject(project);
      running := exists t | t in tasks :: t.status.Running?;
    }

    /** Some pending or running task of the project, if there is one. */
    method FindIncomplete(project: string) returns (found: Option<Task>)
      requires Keyed(State())
      ensures found.Some? <==> HasIncomplete(State(), project)
      ensures found.Some? ==> found.value in Listed(State(), project) && found.value.IsIncomplete()
      ensures found.Some? <==>
                exists t :: InProject(records, index, project, t) && (t.status.Pending? || t.status.Running?)
      ensures found.Some? ==>
                && InProject(records, index, project, found.value)
                && (found.value.status.Pending? || found.value.status.Running?)
    {
      var tasks := ListByProject(project);
      for i := 0 to |tasks|
        invariant forall j | 0 <= j < i :: !tasks[j].IsIncomplete()
      {
        if tasks[i].IsIncomplete() {
          assert tasks[i] in tasks;
          return Some(tasks[i]);
        }
      }
      found := None;
    }

    method LookupDigest(project: string, requirement: string) returns (found: Option<Task>)
      ensures found == FindByDigest(State(), project, requirement)
      ensures found.Some? <==>
                var key := project + ['\0'] + requirement;
                key in digests && digests[key] in records
      ensures found.Some? ==> found.value == records[digests[project + ['\0'] + requirement]]
    {
      var key := DigestKey(project, requirement);
      if key !in digests {
        return None;
      }
      found := Lookup(digests[key]);
    }
  }
}
