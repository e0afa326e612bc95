/**
 * The in-memory dict store is the reference for the Redis store. Over every history of
 * well-formed writes both hold the same records and answer every query alike.
 */
module StoreRefinement {
  import opened Wrappers
  import opened Tasks
  import opened Stores

  type Memory = map<TaskId, Task>

  function MemoryListed(m: Memory, project: string): set<Task> {
    set id | id in m && m[id].project == project :: m[id]
  }

  predicate MemoryIncomplete(m: Memory, project: string) {
    exists id | id in m :: m[id].project == project && (m[id].status.Pending? || m[id].status.Running?)
  }

  predicate MemoryRunning(m: Memory, project: string) {
    exists id | id in m :: m[id].project == project && m[id].status.Running?
  }

  /** The in-process store that the Redis store replaces. */
  class MemoryStore {
    var tasks: Memory

    constructor ()
      ensures tasks == map[]
    {
      tasks := map[];
    }

    method Save(t: Task) returns (ok: bool)
      modifies this
      ensures ok <==> t.id !in old(tasks)
      ensures tasks == if ok then old(tasks)[t.id := t] else old(tasks)
    {
      ok := t.id !in tasks;
      if ok {
        tasks := tasks[t.id := t];
      }
    }

    method Update(t: Task)
      modifies this
      ensures tasks == old(tasks)[t.id := t]
    {
      tasks := tasks[t.id := t];
    }

    method Lookup(id: TaskId) returns (found: Option<Task>)
      ensures found == if id in tasks then Some(tasks[id]) else None
    {
      found := if id in tasks then Some(tasks[id]) else None;
    }

    method HasRunningTask(project: string) returns (running: bool)
      ensures running <==> exists id | id in tasks :: tasks[id].project == project && tasks[id].status.Running?
    {
      running := exists id | id in tasks :: tasks[id].project == project && tasks[id].status.Running?;
    }

    method FindIncomplete(project: string) returns (found: Option<Task>)
      ensures found.Some? <==> MemoryIncomplete(tasks, project)
      ensures found.Some? ==>
                && found.value in MemoryListed(tasks, project)
                && (found.value.status.Pending? || found.value.status.Running?)
    {
      var todo := tasks.Keys;
      while todo != {}
        invariant todo <= tasks.Keys
        invariant forall id | id in tasks && id !in todo ::
                    !(tasks[id].project == project && tasks[id].IsIncomplete())
        decreases todo
      {
        var id :| id in todo;
        if tasks[id].project == project && tasks[id].IsIncomplete() {
          return Some(tasks[id]);
        }
        todo := todo - {id};
      }
      found := None;
    }
  }

  // ---- one write -------------------------------------------------------------

  datatype Write = SaveOp(task: Task) | UpdateOp(task: Task)

  function RedisWrite(s: Store, w: Write): Store {
    match w
    case SaveOp(t) => if t.id in s.records then s else SaveNew(s, t)
    case UpdateOp(t) => Updated(s, t)
  }

  function MemoryWrite(m: Memory, w: Write): Memory {
    match w
    case SaveOp(t) => if t.id in m then m else m[t.id := t]
    case UpdateOp(t) => m[t.id := t]
  }

  /** An update rewrites a saved task and leaves its project name alone. */
  predicate WellFormed(m: Memory, w: Write) {
    w.UpdateOp? ==> w.task.id in m && m[w.task.id].project == w.task.project
  }

  lemma SaveKeepsIndex(s: Store, t: Task)
    requires IndexAgrees(s) && t.id !in s.records
    ensures IndexAgrees(SaveNew(s, t))
  {
    var s' := SaveNew(s, t);
    forall p: string, id: TaskId
      ensures id in Members(s', p) <==> Belongs(s', p, id)
    {
      assert id in Members(s, p) <==> Belongs(s, p, id);
    }
  }

  /** `Update` never touches the project sets, so it keeps them exact just for well-formed calls. */
  lemma UpdateKeepsIndexIff(s: Store, t: Task)
    requires IndexAgrees(s)
    ensures IndexAgrees(Updated(s, t)) <==> WellFormed(s.records, UpdateOp(t))
  {
    var s' := Updated(s, t);
    forall p: string, id: TaskId
      ensures Members(s', p) == Members(s, p)
      ensures id in Members(s, p) <==> Belongs(s, p, id)
      ensures id != t.id ==> (Belongs(s', p, id) <==> Belongs(s, p, id))
    {}
    assert Belongs(s', t.project, t.id);
    assert t.id in Members(s', t.project) <==> Belongs(s, t.project, t.id);
    if WellFormed(s.records, UpdateOp(t)) {
      forall p: string, id: TaskId
        ensures id in Members(s', p) <==> Belongs(s', p, id)
      {
        assert Belongs(s', p, id) <==> Belongs(s, p, id);
      }
    }
  }

  // ---- histories -------------------------------------------------------------

  predicate WellFormedHistory(m: Memory, ws: seq<Write>)
    decreases |ws|
  {
    ws == [] || (WellFormed(m, ws[0]) && WellFormedHistory(MemoryWrite(m, ws[0]), ws[1..]))
  }

  function RedisRun(s: Store, ws: seq<Write>): Store
    decreases |ws|
  {
    if ws == [] then s else RedisRun(RedisWrite(s, ws[0]), ws[1..])
  }

  function MemoryRun(m: Memory, ws: seq<Write>): Memory
    decreases |ws|
  {
    if ws == [] then m else MemoryRun(MemoryWrite(m, ws[0]), ws[1..])
  }

  /** The simulation: same records, exact project sets. */
  ghost predicate Refines(s: Store, m: Memory) {
    s.records == m && IndexAgrees(s)
  }

  lemma {:induction false} RunRefines(s: Store, m: Memory, ws: seq<Write>)
    requires Refines(s, m) && WellFormedHistory(m, ws)
    ensures Refines(RedisRun(s, ws), MemoryRun(m, ws))
    decreases |ws|
  {
    if ws != [] {
      match ws[0] {
        case SaveOp(t) =>
          if t.id !in m {
            SaveKeepsIndex(s, t);
          }
        case UpdateOp(t) =>
          UpdateKeepsIndexIff(s, t);
      }
      RunRefines(RedisWrite(s, ws[0]), MemoryWrite(m, ws[0]), ws[1..]);
    }
  }

  /** Every query of the Redis store answers as the in-memory store does. */
  lemma QueriesAgree(s: Store, m: Memory, project: string, id: TaskId)
    requires Refines(s, m)
    ensures Get(s, id) == if id in m then Some(m[id]) else None
    ensures Listed(s, project) == MemoryListed(m, project)
    ensures HasRunning(s, project) <==> MemoryRunning(m, project)
    ensures HasIncomplete(s, project) <==> MemoryIncomplete(m, project)
  {
    forall i: TaskId
      ensures i in Members(s, project) <==> i in m && m[i].project == project
    {
      assert i in Members(s, project) <==> Belongs(s, project, i);
    }
    assert Listed(s, project) == MemoryListed(m, project);
    if MemoryRunning(m, project) {
      var i :| i in m && m[i].project == project && m[i].status.Running?;
      assert m[i] in Listed(s, project);
    }
    if MemoryIncomplete(m, project) {
      var i :| i in m && m[i].project == project && m[i].IsIncomplete();
      assert m[i] in Listed(s, project);
    }
  }

  /** Both store objects, given the same writes, do what the two runs say and stay in step. */
  method Replay(redis: TaskStore, memory: MemoryStore, ws: seq<Write>)
    requires Refines(redis.State(), memory.tasks) && WellFormedHistory(memory.tasks, ws)
    modifies redis, memory
    ensures redis.State() == RedisRun(old(redis.State()), ws) && memory.tasks == MemoryRun(old(memory.tasks), ws)
    ensures Refines(redis.State(), memory.tasks)
  {
    for i := 0 to |ws|
      invariant RedisRun(redis.State(), ws[i..]) == RedisRun(old(redis.State()), ws)
      invariant MemoryRun(memory.tasks, ws[i..]) == MemoryRun(old(memory.tasks), ws)
    {
      assert ws[i..][0] == ws[i] && ws[i..][1..] == ws[i + 1..];
      match ws[i] {
        case SaveOp(t) =>
          var saved := redis.Save(t);
          saved := memory.Save(t);
        case UpdateOp(t) =>
          redis.Update(t);
          memory.Update(t);
      }
    }
    RunRefines(old(redis.State()), old(memory.tasks), ws);
  }

  /** From empty stores, after every well-formed history, all queries agree. */
  lemma RedisStoreRefinesMemoryStore(ws: seq<Write>, project: string, id: TaskId)
    requires WellFormedHistory(map[], ws)
    ensures var s, m := RedisRun(EMPTY, ws), MemoryRun(map[], ws);
            && Get(s, id) == (if id in m then Some(m[id]) else None)
            && Listed(s, project) == MemoryListed(m, project)
            && (HasRunning(s, project) <==> MemoryRunning(m, project))
            && (HasIncomplete(s, project) <==> MemoryIncomplete(m, project))
  {
    RunRefines(EMPTY, map[], ws);
    QueriesAgree(RedisRun(EMPTY, ws), MemoryRun(map[], ws), project, id);
  }
}
