/**
 * The store operations one Redis command at a time, interleaved between tasks in any order.
 * Each task still has one writer at a time; whether two requests for the same work were let
 * through is left open here.
 */
module Commands {
  import opened Tasks
  import opened Stores
  import opened Conservation

  /** How far the writer of a task has got. */
  datatype Phase =
    | Recorded // save: SET NX done, SADD to come
    | Indexed  // save: SADD done, SET of the digest key to come
    | Settled  // no command of a write is outstanding
    | Closing  // terminal update: SET done, DEL of the digest key to come
    | Closed   // terminal update completed

  /** `lost` are the tasks whose saver died before its SADD. */
  datatype Board = Board(store: Store, phase: map<TaskId, Phase>, lost: set<TaskId>)

  datatype Command =
    | SetNew(task: Task)
    | Sadd(id: TaskId)
    | PutDigest(id: TaskId)
    | Rewrite(task: Task)
    | DelDigest(id: TaskId)
    | Abandon(id: TaskId) // the saver dies; recovery may later take the record over

  predicate InPhase(b: Board, id: TaskId, ph: Phase) {
    id in b.phase && b.phase[id] == ph && id in b.store.records
  }

  predicate Enabled(b: Board, c: Command) {
    match c
    case SetNew(t) => t.id !in b.store.records && !t.IsTerminal()
    case Sadd(id) => InPhase(b, id, Recorded)
    case PutDigest(id) => InPhase(b, id, Indexed)
    case Rewrite(t) => InPhase(b, t.id, Settled) && SameRequest(b.store.records[t.id], t)
    case DelDigest(id) => InPhase(b, id, Closing)
    case Abandon(id) => InPhase(b, id, Recorded) || InPhase(b, id, Indexed)
  }

  function Next(b: Board, c: Command): Board
    requires Enabled(b, c)
  {
    match c
    case SetNew(t) => b.(store := SetRecord(b.store, t), phase := b.phase[t.id := Recorded])
    case Sadd(id) => b.(store := AddToIndex(b.store, b.store.records[id]), phase := b.phase[id := Indexed])
    case PutDigest(id) => b.(store := SetDigest(b.store, b.store.records[id]), phase := b.phase[id := Settled])
    case Rewrite(t) =>
      b.(store := SetRecord(b.store, t), phase := b.phase[t.id := if t.IsTerminal() then Closing else Settled])
    case DelDigest(id) => b.(store := DropDigest(b.store, b.store.records[id]), phase := b.phase[id := Closed])
    case Abandon(id) =>
      b.(phase := b.phase[id := Settled], lost := if b.phase[id].Recorded? then b.lost + {id} else b.lost)
  }

  /** Run without interruption, the commands of a save or an update are the whole operation. */
  lemma CommandsMakeOperations(b: Board, t: Task)
    ensures Enabled(b, SetNew(t)) ==>
              && Enabled(Next(b, SetNew(t)), Sadd(t.id))
              && Enabled(Next(Next(b, SetNew(t)), Sadd(t.id)), PutDigest(t.id))
              && Next(Next(Next(b, SetNew(t)), Sadd(t.id)), PutDigest(t.id)).store == SaveNew(b.store, t)
    ensures Enabled(b, Rewrite(t)) && t.IsTerminal() ==>
              && Enabled(Next(b, Rewrite(t)), DelDigest(t.id))
              && Next(Next(b, Rewrite(t)), DelDigest(t.id)).store == Updated(b.store, t)
    ensures Enabled(b, Rewrite(t)) && !t.IsTerminal() ==> Next(b, Rewrite(t)).store == Updated(b.store, t)
  {}

  // ---- soundness of the indexes ----------------------------------------------

  /** An id in a project set has a record of that project; a lost or unfinished SADD explains a missing one. */
  ghost predicate IndexSound(b: Board) {
    && (forall p: string, id: TaskId | id in Members(b.store, p) :: Belongs(b.store, p, id))
    && (forall id | id in b.phase && !b.phase[id].Recorded? && id !in b.lost ::
          id in b.store.records && id in Members(b.store, b.store.records[id].project))
  }

  /** A digest key points to a record with that key, whose terminal update has not completed. */
  predicate DigestSound(b: Board) {
    forall k | k in b.store.digests ::
      var id := b.store.digests[k];
      && id in b.store.records && id in b.phase
      && b.store.records[id].requirement != "" && KeyOf(b.store.records[id]) == k
      && (b.phase[id].Settled? || b.phase[id].Closing?)
  }

  predicate PhasesOk(b: Board) {
    && Keyed(b.store)
    && b.phase.Keys == b.store.records.Keys
    && forall id | id in b.phase :: b.store.records[id].IsTerminal() <==> b.phase[id].Closing? || b.phase[id].Closed?
  }

  ghost predicate Sound(b: Board) {
    PhasesOk(b) && IndexSound(b) && DigestSound(b)
  }

  lemma IndexStep(b: Board, c: Command)
    requires Sound(b) && Enabled(b, c)
    ensures IndexSound(Next(b, c))
  {
    var b' := Next(b, c);
    forall p: string, id: TaskId | id in Members(b'.store, p)
      ensures Belongs(b'.store, p, id)
    {
      assert id in Members(b.store, p) ==> Belongs(b.store, p, id);
    }
    forall id | id in b'.phase && !b'.phase[id].Recorded? && id !in b'.lost
      ensures id in b'.store.records && id in Members(b'.store, b'.store.records[id].project)
    {
      assert c.Abandon? && id == c.id ==> !b.phase[id].Recorded?;
    }
  }

  lemma PhasesStep(b: Board, c: Command)
    requires PhasesOk(b) && Enabled(b, c)
    ensures PhasesOk(Next(b, c))
  {
    var b' := Next(b, c);
    assert b'.phase.Keys == b'.store.records.Keys;
    forall id | id in b'.phase
      ensures b'.store.records[id].id == id
      ensures b'.store.records[id].IsTerminal() <==> b'.phase[id].Closing? || b'.phase[id].Closed?
    {
      assert id in b.phase || (c.SetNew? && id == c.task.id);
    }
  }

  lemma DigestStep(b: Board, c: Command)
    requires PhasesOk(b) && DigestSound(b) && Enabled(b, c)
    ensures DigestSound(Next(b, c))
  {
    var b' := Next(b, c);
    forall k | k in b'.store.digests
      ensures var id := b'.store.digests[k];
              && id in b'.store.records && id in b'.phase
              && b'.store.records[id].requirement != "" && KeyOf(b'.store.records[id]) == k
              && (b'.phase[id].Settled? || b'.phase[id].Closing?)
    {
      assert k in b.store.digests || (c.PutDigest? && k == KeyOf(b.store.records[c.id]));
    }
  }

  lemma SoundStep(b: Board, c: Command)
    requires Sound(b) && Enabled(b, c)
    ensures Sound(Next(b, c))
  {
    PhasesStep(b, c);
    IndexStep(b, c);
    DigestStep(b, c);
  }

  predicate CanRun(b: Board, cs: seq<Command>)
    decreases |cs|
  {
    cs == [] || (Enabled(b, cs[0]) && CanRun(Next(b, cs[0]), cs[1..]))
  }

  function Run(b: Board, cs: seq<Command>): Board
    requires CanRun(b, cs)
    decreases |cs|
  {
    if cs == [] then b else Run(Next(b, cs[0]), cs[1..])
  }

  lemma {:induction false} SoundRun(b: Board, cs: seq<Command>)
    requires Sound(b) && CanRun(b, cs)
    ensures Sound(Run(b, cs))
    decreases |cs|
  {
    if cs != [] {
      SoundStep(b, cs[0]);
      SoundRun(Next(b, cs[0]), cs[1..]);
    }
  }

  /** The indexes never point nowhere, under any interleaving of commands and any deaths of savers. */
  lemma IndexesAlwaysSound(cs: seq<Command>)
    requires CanRun(Board(EMPTY, map[], {}), cs)
    ensures var b := Run(Board(EMPTY, map[], {}), cs);
            IndexSound(b) && DigestSound(b)
  {
    SoundRun(Board(EMPTY, map[], {}), cs);
  }

  /** Once a task's terminal update has completed, no digest key points to it again, ever. */
  lemma {:induction false} ClosedStaysUnreferenced(b: Board, cs: seq<Command>, id: TaskId)
    requires Sound(b) && CanRun(b, cs) && InPhase(b, id, Closed)
    ensures var b' := Run(b, cs);
            && InPhase(b', id, Closed) && b'.store.records[id] == b.store.records[id]
            && forall k | k in b'.store.digests :: b'.store.digests[k] != id
    decreases |cs|
  {
    if cs != [] {
      SoundStep(b, cs[0]);
      ClosedStaysUnreferenced(Next(b, cs[0]), cs[1..], id);
    }
  }

  /** A lookup can return a finished task only while its DEL is outstanding, for good if its writer dies. */
  lemma StaleAnswersAreClosing(b: Board, project: string, requirement: string)
    requires Sound(b)
    ensures var found := FindByDigest(b.store, project, requirement);
            found.Some? ==> (found.value.IsTerminal() <==> InPhase(b, found.value.id, Closing))
  {
    var key := DigestKey(project, requirement);
    if key in b.store.digests {
      assert b.store.digests[key] in b.store.records;
    }
  }
}
