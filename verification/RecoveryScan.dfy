/** The startup scanner itself: a SCAN cursor loop, then one pass over the record keys. */
module RecoveryScan {
  import opened Tasks
  import opened Stores
  import opened Queues
  import opened Recovery

  // ---- Redis key names -------------------------------------------------------

  const TASK_PREFIX := "cio:task:"
  const DIGEST_PREFIX := "cio:task:digest:"

  function TaskKey(id: TaskId): string {
    TASK_PREFIX + id.hex
  }

  function DigestName(digest: string): string {
    DIGEST_PREFIX + digest
  }

  predicate IsRecordKey(key: string) {
    TASK_PREFIX <= key && !(DIGEST_PREFIX <= key)
  }

  function IdOf(key: string): TaskId
    requires IsRecordKey(key)
  {
    TaskId(key[|TASK_PREFIX|..])
  }

  /**
   * The prefix filter takes a key for a record key exactly if it is one, provided that no id
   * starts with "digest:", which no hexadecimal id does.
   */
  lemma FilterExact(id: TaskId, digest: string)
    ensures TaskKey(id) == "cio:task:" + id.hex && DigestName(digest) == "cio:task:digest:" + digest
    ensures IsRecordKey(TaskKey(id)) <==> !("digest:" <= id.hex)
    ensures IsRecordKey(TaskKey(id)) ==> IdOf(TaskKey(id)) == id
    ensures !IsRecordKey(DigestName(digest))
  {
    assert DIGEST_PREFIX == TASK_PREFIX + "digest:";
    assert TaskKey(id)[|TASK_PREFIX|..] == id.hex;
    if DIGEST_PREFIX <= TaskKey(id) {
      assert TaskKey(id)[..|DIGEST_PREFIX|] == DIGEST_PREFIX;
      assert id.hex[..7] == TaskKey(id)[|TASK_PREFIX|..|DIGEST_PREFIX|] == "digest:";
    }
    if "digest:" <= id.hex {
      assert TaskKey(id) == DIGEST_PREFIX + id.hex[7..];
    }
  }

  // ---- what the scan returns -------------------------------------------------

  function PageIds(page: seq<string>): seq<TaskId> {
    if page == [] then []
    else (if IsRecordKey(page[0]) then [IdOf(page[0])] else []) + PageIds(page[1..])
  }

  function ScannedIds(pages: seq<seq<string>>): seq<TaskId> {
    if pages == [] then [] else PageIds(pages[0]) + ScannedIds(pages[1..])
  }

  lemma {:induction false} PageSnoc(page: seq<string>, key: string)
    ensures PageIds(page + [key]) == PageIds(page) + if IsRecordKey(key) then [IdOf(key)] else []
  {
    if page == [] {
      assert [key][1..] == [];
    } else {
      PageSnoc(page[1..], key);
      assert (page + [key])[1..] == page[1..] + [key];
    }
  }

  lemma {:induction false} ScanSnoc(pages: seq<seq<string>>, page: seq<string>)
    ensures ScannedIds(pages + [page]) == ScannedIds(pages) + PageIds(page)
  {
    if pages == [] {
      assert pages + [page] == [page] && [page][1..] == [];
      assert ScannedIds([page]) == PageIds(page) + ScannedIds([]);
    } else {
      ScanSnoc(pages[1..], page);
      assert (pages + [page])[1..] == pages[1..] + [page] && (pages + [page])[0] == pages[0];
      var first, rest := PageIds(pages[0]), ScannedIds(pages[1..]);
      assert first + (rest + PageIds(page)) == first + rest + PageIds(page);
    }
  }

  lemma {:induction false} PayloadsSnoc(s: Store, ids: seq<TaskId>, id: TaskId)
    ensures Payloads(s, ids + [id]) == Payloads(s, ids) + if Active(s, id) then [Demote(s.records[id])] else []
  {
    if ids == [] {
      assert [id][1..] == [];
    } else {
      PayloadsSnoc(s, ids[1..], id);
      assert (ids + [id])[1..] == ids[1..] + [id];
    }
  }

  /** All keys of a scan, page after page. */
  function Keys(pages: seq<seq<string>>): seq<string> {
    if pages == [] then [] else pages[0] + Keys(pages[1..])
  }

  /**
   * The pages of a complete scan of a store: no key comes twice, the key of every record is
   * there, and the only other keys that match the pattern are digest keys.
   */
  ghost predicate Complete(pages: seq<seq<string>>, s: Store) {
    var keys := Keys(pages);
    && (forall i, j | 0 <= i < j < |keys| :: keys[i] != keys[j])
    && (forall id | id in s.records :: TaskKey(id) in keys && !("digest:" <= id.hex))
    && (forall key | key in keys ::
          (exists digest :: key == DigestName(digest)) || (exists id | id in s.records :: key == TaskKey(id)))
  }

  lemma {:induction false} PageConcat(page: seq<string>, keys: seq<string>)
    ensures PageIds(page + keys) == PageIds(page) + PageIds(keys)
  {
    if page == [] {
      assert page + keys == keys;
    } else {
      PageConcat(page[1..], keys);
      assert (page + keys)[1..] == page[1..] + keys && (page + keys)[0] == page[0];
    }
  }

  lemma {:induction false} ScannedKeys(pages: seq<seq<string>>)
    ensures ScannedIds(pages) == PageIds(Keys(pages))
  {
    if pages != [] {
      ScannedKeys(pages[1..]);
      PageConcat(pages[0], Keys(pages[1..]));
    }
  }

  lemma KeyOfId(key: string)
    requires IsRecordKey(key)
    ensures TaskKey(IdOf(key)) == key
  {}

  lemma {:induction false} PageMembers(keys: seq<string>, id: TaskId)
    ensures id in PageIds(keys) <==> IsRecordKey(TaskKey(id)) && TaskKey(id) in keys
  {
    if keys != [] {
      PageMembers(keys[1..], id);
      assert TaskKey(id)[|TASK_PREFIX|..] == id.hex;
      if IsRecordKey(keys[0]) {
        KeyOfId(keys[0]);
      }
    }
  }

  lemma {:induction false} PageDistinct(keys: seq<string>)
    requires forall i, j | 0 <= i < j < |keys| :: keys[i] != keys[j]
    ensures Distinct(PageIds(keys))
  {
    if keys != [] {
      PageDistinct(keys[1..]);
      if IsRecordKey(keys[0]) {
        PageMembers(keys[1..], IdOf(keys[0]));
        KeyOfId(keys[0]);
        assert keys[0] !in keys[1..];
      }
    }
  }

  /** What a complete scan returns enumerates the records: the prefix filter loses and adds none. */
  lemma CompleteEnumerates(pages: seq<seq<string>>, s: Store)
    requires Complete(pages, s)
    ensures Enumerates(ScannedIds(pages), s)
  {
    var keys := Keys(pages);
    ScannedKeys(pages);
    PageDistinct(keys);
    forall id
      ensures id in ScannedIds(pages) <==> id in s.records
    {
      PageMembers(keys, id);
      FilterExact(id, "");
      if id in PageIds(keys) {
        OnlyRecordKeys(pages, s, id);
      }
    }
  }

  lemma OnlyRecordKeys(pages: seq<seq<string>>, s: Store, id: TaskId)
    requires Complete(pages, s) && TaskKey(id) in Keys(pages) && IsRecordKey(TaskKey(id))
    ensures id in s.records
  {
    if digest :| TaskKey(id) == DigestName(digest) {
      FilterExact(id, digest);
    } else {
      var j :| j in s.records && TaskKey(id) == TaskKey(j);
      assert TaskKey(id)[|TASK_PREFIX|..] == id.hex && TaskKey(j)[|TASK_PREFIX|..] == j.hex;
    }
  }

  /** The scan takes the ids of the record keys, key by key in order. */
  lemma ScanLaws(pages: seq<seq<string>>, keys: seq<string>, more: seq<string>, key: string)
    ensures ScannedIds(pages) == PageIds(Keys(pages))
    ensures PageIds([]) == [] && PageIds(keys + more) == PageIds(keys) + PageIds(more)
    ensures PageIds([key]) == if "cio:task:" <= key && !("cio:task:digest:" <= key) then [TaskId(key[9..])] else []
  {
    ScannedKeys(pages);
    PageConcat(keys, more);
    assert [key][1..] == [];
  }

  /**
   * Recovery queues the records at `ids` one after the other: the PENDING and INTERRUPTED ones as
   * they are, the RUNNING ones turned into INTERRUPTED, and no others.
   */
  lemma PayloadLaws(s: Store, ids: seq<TaskId>, more: seq<TaskId>, id: TaskId)
    ensures Payloads(s, []) == [] && Payloads(s, ids + more) == Payloads(s, ids) + Payloads(s, more)
    ensures Payloads(s, [id])
            == if id !in s.records then []
               else match s.records[id].status
                    case Pending => [s.records[id]]
                    case Interrupted => [s.records[id]]
                    case Running => [s.records[id].(status := Interrupted)]
                    case Success => []
                    case Failed => []
  {
    PayloadsConcat(s, ids, more);
    assert [id][1..] == [];
  }

  lemma {:induction false} PayloadsConcat(s: Store, ids: seq<TaskId>, more: seq<TaskId>)
    ensures Payloads(s, ids + more) == Payloads(s, ids) + Payloads(s, more)
  {
    if ids == [] {
      assert ids + more == more;
    } else {
      PayloadsConcat(s, ids[1..], more);
      assert (ids + more)[1..] == ids[1..] + more && (ids + more)[0] == ids[0];
    }
  }

  /** The RUNNING records at `ids` are INTERRUPTED afterwards, and nothing else has changed. */
  predicate Demotes(store: Store, store': Store, ids: seq<TaskId>) {
    && store'.index == store.index && store'.digests == store.digests
    && store'.records.Keys == store.records.Keys
    && forall id | id in store.records ::
         var t := store.records[id];
         store'.records[id] == if id in ids && t.status.Running? then t.(status := Interrupted) else t
  }

  // ---- the scanner -----------------------------------------------------------

  function DemotedAt(s: Store, ids: seq<TaskId>): Store {
    s.(records := map id | id in s.records :: if id in ids then Demote(s.records[id]) else s.records[id])
  }

  method ScanKeys(pages: seq<seq<string>>) returns (ids: seq<TaskId>)
    ensures ids == ScannedIds(pages)
  {
    ids := [];
    var cursor := 0;
    while cursor < |pages|
      invariant 0 <= cursor <= |pages|
      invariant ids == ScannedIds(pages[..cursor])
    {
      var page := pages[cursor];
      ghost var before := ids;
      for i := 0 to |page|
        invariant ids == before + PageIds(page[..i])
      {
        PageSnoc(page[..i], page[i]);
        assert page[..i + 1] == page[..i] + [page[i]];
        if IsRecordKey(page[i]) {
          ids := ids + [IdOf(page[i])];
        }
      }
      assert page[..|page|] == page;
      ScanSnoc(pages[..cursor], page);
      assert pages[..cursor + 1] == pages[..cursor] + [page];
      cursor := cursor + 1;
    }
    assert pages[..|pages|] == pages;
  }

  /** One turn of the recovery loop. */
  method RecoverOne(store: TaskStore, queue: TaskQueue, id: TaskId) returns (requeued: bool)
    requires Keyed(store.State())
    modifies store, queue
    ensures requeued <==> Active(old(store.State()), id)
    ensures store.State() == DemotedAt(old(store.State()), [id])
    ensures Demotes(old(store.State()), store.State(), [id])
    ensures queue.Contents()
            == old(queue.Contents()) + if requeued then [Demote(old(store.State()).records[id])] else []
    ensures requeued <==>
              id in store.records && (store.records[id].status.Pending? || store.records[id].status.Interrupted?)
    ensures requeued ==> queue.Contents() == old(queue.Contents()) + [store.records[id]]
  {
    ghost var was := store.State();
    var raw := store.Lookup(id);
    requeued := raw.Some? && !raw.value.IsTerminal();
    if requeued {
      var task := new TaskRecord(raw.value);
      if task.status.Running? {
        task.Transition(Interrupted);
        store.Update(task.Payload());
      }
      queue.Enqueue(task.Payload());
    }
    assert store.State().records == DemotedAt(was, [id]).records;
  }

  lemma DemoteOneMore(s: Store, ids: seq<TaskId>, id: TaskId)
    ensures DemotedAt(DemotedAt(s, ids), [id]) == DemotedAt(s, ids + [id])
    ensures Active(DemotedAt(s, ids), id) <==> Active(s, id)
    ensures Active(s, id) ==> Demote(DemotedAt(s, ids).records[id]) == Demote(s.records[id])
  {
    assert DemotedAt(DemotedAt(s, ids), [id]).records == DemotedAt(s, ids + [id]).records;
  }

  /** The recovery loop, over any ids. */
  method RecoverEach(store: TaskStore, queue: TaskQueue, ids: seq<TaskId>) returns (recovered: nat)
    requires Keyed(store.State())
    modifies store, queue
    ensures store.State() == DemotedAt(old(store.State()), ids)
    ensures Demotes(old(store.State()), store.State(), ids)
    ensures queue.Contents() == old(queue.Contents()) + Payloads(old(store.State()), ids)
    ensures recovered == |Payloads(old(store.State()), ids)|
  {
    ghost var was, q := store.State(), queue.Contents();
    recovered := 0;
    assert was.records == DemotedAt(was, []).records;
    for i := 0 to |ids|
      invariant store.State() == DemotedAt(was, ids[..i])
      invariant queue.Contents() == q + Payloads(was, ids[..i])
      invariant recovered == |Payloads(was, ids[..i])|
    {
      PayloadsSnoc(was, ids[..i], ids[i]);
      DemoteOneMore(was, ids[..i], ids[i]);
      assert ids[..i + 1] == ids[..i] + [ids[i]];
      ghost var done := Payloads(was, ids[..i]);
      ghost var more := if Active(was, ids[i]) then [Demote(was.records[ids[i]])] else [];
      assert q + done + more == q + (done + more);
      var requeued := RecoverOne(store, queue, ids[i]);
      if requeued {
        recovered := recovered + 1;
      }
    }
    assert ids[..|ids|] == ids;
  }

  /**
   * Demotes the RUNNING records the scan returned and queues the unfinished ones, whatever the
   * scan returned, repetitions and unknown keys included. After a complete scan that is a
   * recovery of the whole store.
   */
  method RecoverStrandedTasks(store: TaskStore, queue: TaskQueue, pages: seq<seq<string>>) returns (recovered: nat)
    requires Keyed(store.State())
    modifies store, queue
    ensures store.State() == DemotedAt(old(store.State()), ScannedIds(pages))
    ensures queue.Contents() == old(queue.Contents()) + Payloads(old(store.State()), ScannedIds(pages))
    ensures recovered == |Payloads(old(store.State()), ScannedIds(pages))|
    ensures Demotes(old(store.State()), store.State(), ScannedIds(pages))
    ensures Complete(pages, old(store.State())) ==>
              && Recovers(old(store.State()), store.State(), Payloads(old(store.State()), ScannedIds(pages)))
              && recovered == |Unfinished(store.State())|
  {
    ghost var was := store.State();
    var ids := ScanKeys(pages);
    recovered := RecoverEach(store, queue, ids);
    if Complete(pages, was) {
      ScanIsExact(was, pages);
    }
  }

  // ---- exactness -------------------------------------------------------------

  lemma FullScanDemotesAll(s: Store, ids: seq<TaskId>)
    requires Enumerates(ids, s)
    ensures DemotedAt(s, ids) == RecoveredStore(s)
  {
    assert DemotedAt(s, ids).records == RecoveredStore(s).records;
  }

  /** Ids of the unfinished records. */
  function Unfinished(s: Store): set<TaskId> {
    set id | id in s.records && !s.records[id].status.Success? && !s.records[id].status.Failed?
  }

  lemma {:induction false} CountPayloads(s: Store, ids: seq<TaskId>)
    requires Distinct(ids)
    ensures |Payloads(s, ids)| == |(set id | id in ids && Active(s, id))|
  {
    if ids == [] {
      assert (set id | id in ids && Active(s, id)) == {};
    } else {
      CountPayloads(s, ids[1..]);
      var rest := set id | id in ids[1..] && Active(s, id);
      var all := set id | id in ids && Active(s, id);
      assert forall id :: id in ids <==> id == ids[0] || id in ids[1..];
      assert ids[0] !in ids[1..];
      assert all == if Active(s, ids[0]) then rest + {ids[0]} else rest;
    }
  }

  lemma RecoveryCount(s: Store, ids: seq<TaskId>)
    requires Enumerates(ids, s)
    ensures |Payloads(s, ids)| == |Unfinished(RecoveredStore(s))|
  {
    CountPayloads(s, ids);
    assert (set id | id in ids && Active(s, id)) == Unfinished(RecoveredStore(s));
  }

  lemma RecoveryIdempotent(s: Store)
    ensures RecoveredStore(RecoveredStore(s)) == RecoveredStore(s)
  {
    assert RecoveredStore(RecoveredStore(s)).records == RecoveredStore(s).records;
  }

  predicate OnlyDemoted(t: Task, u: Task) {
    !u.status.Running? && (u == t || (t.status.Running? && u == t.(status := Interrupted)))
  }

  /**
   * Recovery of a full scan: no RUNNING record is left, nothing but RUNNING -> INTERRUPTED
   * changes, exactly one payload per unfinished record is queued, equal to its resulting
   * stored value, their number is what is returned, and a second pass changes no record.
   */
  lemma RecoveryExact(s: Store, ids: seq<TaskId>)
    requires Keyed(s) && Enumerates(ids, s)
    ensures Recovers(s, RecoveredStore(s), Payloads(s, ids))
  {
    PayloadsExact(s, ids);
    RecoveryCount(s, ids);
    RecoveryIdempotent(s);
  }

  /** `s'` and the payloads `added` are a recovery of `s`. */
  ghost predicate Recovers(s: Store, s': Store, added: seq<Task>) {
    && s'.records.Keys == s.records.Keys && s'.index == s.index && s'.digests == s.digests
    && (forall id | id in s.records :: OnlyDemoted(s.records[id], s'.records[id]))
    && (forall p :: p in added <==>
          p.id in s'.records && p == s'.records[p.id] && (p.status.Pending? || p.status.Interrupted?))
    && Distinct(Ids(added))
    && |added| == |Unfinished(s')|
    && RecoveredStore(s') == s'
  }

  /** What `RecoverStrandedTasks` leaves behind after a complete scan is a recovery. */
  lemma ScanIsExact(s: Store, pages: seq<seq<string>>)
    requires Keyed(s) && Complete(pages, s)
    ensures DemotedAt(s, ScannedIds(pages)) == RecoveredStore(s)
    ensures Recovers(s, DemotedAt(s, ScannedIds(pages)), Payloads(s, ScannedIds(pages)))
  {
    CompleteEnumerates(pages, s);
    FullScanDemotesAll(s, ScannedIds(pages));
    RecoveryExact(s, ScannedIds(pages));
  }
}
