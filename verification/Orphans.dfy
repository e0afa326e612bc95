/**
 * Whom a live lock belongs to. Unless a crash or a cancellation orphans it, to a worker that is
 * on its way to releasing it; a task refused by a lock is then refused for a reason.
 */
module Orphans {
  import opened Locks
  import opened Protocol
  import opened Conservation
  import opened Exclusion

  predicate HoldsLock(a: Worker, project: string, token: Token) {
    Holding(a) && a.hold.project == project && a.hold.token == token
  }

  ghost predicate HeldBySomeone(s: System, project: string)
    requires project in s.locks
  {
    exists w | w in s.workers :: HoldsLock(s.workers[w], project, s.locks[project].token)
  }

  /** Every live lock is held by a worker between its acquire and its release. */
  ghost predicate NoOrphans(s: System) {
    forall p | p in s.locks && Live(s.locks, p, s.now) :: HeldBySomeone(s, p)
  }

  /** Tokens of different holders differ, and the next token is new. */
  predicate TokensOk(s: System) {
    TokensDiffer(s) && forall w | w in s.workers && Holding(s.workers[w]) :: s.workers[w].hold.token < s.nextToken
  }

  lemma TokensKept(s: System, s': System)
    requires TokensOk(s) && s.nextToken <= s'.nextToken && s'.workers.Keys == s.workers.Keys
    requires forall w | w in s.workers && Holding(s'.workers[w]) ::
               Holding(s.workers[w]) && s'.workers[w].hold.token == s.workers[w].hold.token
    ensures TokensOk(s')
  {
    forall v, w | v in s'.workers && w in s'.workers && v != w && Holding(s'.workers[v]) && Holding(s'.workers[w])
      ensures s'.workers[v].hold.token != s'.workers[w].hold.token
    {
      assert s.workers[v].hold.token != s.workers[w].hold.token;
    }
  }

  lemma TokensAcquire(c: Config, s: System, w: nat)
    requires TokensOk(s) && w in s.workers && s.workers[w].Got?
    ensures TokensOk(AcquireStep(c, s, w))
  {
    var s' := AcquireStep(c, s, w);
    forall v, u | v in s'.workers && u in s'.workers && v != u && Holding(s'.workers[v]) && Holding(s'.workers[u])
      ensures s'.workers[v].hold.token != s'.workers[u].hold.token
    {
      assert v != w && u != w ==> s.workers[v].hold.token != s.workers[u].hold.token;
    }
  }

  lemma TokensOther(c: Config, s: System, l: Label)
    requires TokensOk(s) && Enabled(c, s, l) && !Writes(s, l) && !l.Cancel? && !l.Abandon?
    ensures TokensOk(Next(c, s, l))
  {
    if l.Acquire? {
      TokensAcquire(c, s, l.w);
    } else if l.Refresh? || l.StopHeartbeat? || l.Release? || l.Crash? || l.Recover? {
      TokensHolder(c, s, l);
    } else {
      TokensKept(s, Next(c, s, l));
    }
  }

  lemma TokensHolder(c: Config, s: System, l: Label)
    requires TokensOk(s) && Enabled(c, s, l)
    requires l.Refresh? || l.StopHeartbeat? || l.Release? || l.Crash? || l.Recover?
    ensures TokensOk(Next(c, s, l))
  {
    TokensKept(s, Next(c, s, l));
  }

  lemma TokensCancel(c: Config, s: System, l: Label)
    requires TokensOk(s) && Enabled(c, s, l) && (l.Cancel? || l.Abandon?) && !Writes(s, l)
    ensures TokensOk(Next(c, s, l))
  {
    if l.Cancel? {
      var a := CancelDrops(c, s, l.w);
      TokensKept(s, Drop(s, l.w, a));
    } else {
      var b, a := AbandonDrops(c, s, l.w);
      TokensKept(s, Drop(b, l.w, a));
    }
  }

  /** Whatever happens, tokens are unique. */
  lemma TokensStep(c: Config, s: System, l: Label)
    requires TokensOk(s) && Enabled(c, s, l)
    ensures TokensOk(Next(c, s, l))
  {
    if Writes(s, l) {
      var t, a := WriterStep(c, s, l);
      TokensKept(s, Write(s, l.w, t, a));
    } else if l.Cancel? || l.Abandon? {
      TokensCancel(c, s, l);
    } else {
      TokensOther(c, s, l);
    }
  }

  // ---- preservation ----------------------------------------------------------

  predicate KeepsHold(a: Worker, a': Worker) {
    Holding(a) ==> Holding(a') && a'.hold.project == a.hold.project && a'.hold.token == a.hold.token
  }

  lemma OrphansKept(s: System, s': System)
    requires NoOrphans(s) && s'.locks == s.locks && s.now <= s'.now && s.workers.Keys <= s'.workers.Keys
    requires forall w | w in s.workers :: KeepsHold(s.workers[w], s'.workers[w])
    ensures NoOrphans(s')
  {
    forall p | p in s'.locks && Live(s'.locks, p, s'.now)
      ensures HeldBySomeone(s', p)
    {
      assert HeldBySomeone(s, p);
      var w :| w in s.workers && HoldsLock(s.workers[w], p, s.locks[p].token);
      assert KeepsHold(s.workers[w], s'.workers[w]);
      assert HoldsLock(s'.workers[w], p, s'.locks[p].token);
    }
  }

  lemma OrphansAcquire(c: Config, s: System, w: nat)
    requires NoOrphans(s) && w in s.workers && s.workers[w].Got?
    ensures NoOrphans(AcquireStep(c, s, w))
  {
    var s' := AcquireStep(c, s, w);
    forall p | p in s'.locks && Live(s'.locks, p, s'.now)
      ensures HeldBySomeone(s', p)
    {
      if p in s.locks && s'.locks[p] == s.locks[p] && Live(s.locks, p, s.now) {
        var v :| v in s.workers && HoldsLock(s.workers[v], p, s.locks[p].token);
        assert HoldsLock(s'.workers[v], p, s'.locks[p].token);
      } else {
        assert HoldsLock(s'.workers[w], p, s'.locks[p].token);
      }
    }
  }

  lemma OrphansRefresh(c: Config, s: System, w: nat)
    requires NoOrphans(s) && w in s.workers && Beats(s.workers[w])
    ensures NoOrphans(RefreshStep(c, s, w))
  {
    var s' := RefreshStep(c, s, w);
    forall p | p in s'.locks && Live(s'.locks, p, s'.now)
      ensures HeldBySomeone(s', p)
    {
      assert HeldBySomeone(s, p);
      var v :| v in s.workers && HoldsLock(s.workers[v], p, s.locks[p].token);
      assert HoldsLock(s'.workers[v], p, s'.locks[p].token);
    }
  }

  lemma OrphansRelease(c: Config, s: System, w: nat)
    requires NoOrphans(s) && Enabled(c, s, Release(w))
    ensures NoOrphans(Next(c, s, Release(w)))
  {
    var s' := Next(c, s, Release(w));
    forall p | p in s'.locks && Live(s'.locks, p, s'.now)
      ensures HeldBySomeone(s', p)
    {
      assert HeldBySomeone(s, p);
      var v :| v in s.workers && HoldsLock(s.workers[v], p, s.locks[p].token);
      assert HoldsLock(s'.workers[v], p, s'.locks[p].token);
    }
  }

  lemma OrphansWorkerStep(c: Config, s: System, l: Label)
    requires NoOrphans(s) && Enabled(c, s, l) && (Writes(s, l) || l.Cancel?)
    ensures NoOrphans(Next(c, s, l))
  {
    if Writes(s, l) {
      var t, a := WriterStep(c, s, l);
      OrphansKept(s, Write(s, l.w, t, a));
    } else {
      var a := CancelDrops(c, s, l.w);
      OrphansKept(s, Drop(s, l.w, a));
    }
  }

  /** The worker has the live lock of the project it holds. */
  predicate HasLock(s: System, a: Worker) {
    Holding(a) && Owned(s.locks, a.hold.project, a.hold.token, s.now)
  }

  /** A crash of a lock owner, or a cancellation that leaves a lock behind. */
  predicate OrphansLock(s: System, l: Label) {
    match l
    case Crash(w) => At(s, w) && HasLock(s, s.workers[w])
    case Abandon(w) =>
      && At(s, w)
      && ((s.workers[w].Got? && !Live(s.locks, s.workers[w].task.project, s.now))
          || (s.workers[w].Releasing? && HasLock(s, s.workers[w])))
    case _ => false
  }

  /** A worker without a live lock can go away. */
  lemma OrphansLeave(s: System, s': System, w: nat)
    requires NoOrphans(s) && w in s.workers && !HasLock(s, s.workers[w])
    requires s'.locks == s.locks && s'.now == s.now && s'.workers.Keys == s.workers.Keys
    requires forall v | v in s.workers && v != w :: s'.workers[v] == s.workers[v]
    ensures NoOrphans(s')
  {
    forall p | p in s'.locks && Live(s'.locks, p, s'.now)
      ensures HeldBySomeone(s', p)
    {
      assert HeldBySomeone(s, p);
      var v :| v in s.workers && HoldsLock(s.workers[v], p, s.locks[p].token);
      assert HoldsLock(s'.workers[v], p, s'.locks[p].token);
    }
  }

  lemma OrphansAbandon(c: Config, s: System, w: nat)
    requires NoOrphans(s) && Enabled(c, s, Abandon(w)) && !OrphansLock(s, Abandon(w))
    ensures NoOrphans(AbandonStep(c, s, w))
  {
    var b, a := AbandonDrops(c, s, w);
    if s.workers[w].Streaming? {
      OrphansKept(s, Drop(b, w, a));
    } else {
      OrphansLeave(s, Drop(b, w, a), w);
    }
  }

  lemma OrphansPassive(c: Config, s: System, l: Label)
    requires NoOrphans(s) && Enabled(c, s, l)
    requires || l.Create? || l.EnqueueNew? || l.Dequeue? || l.Requeue? || l.RetryEnqueue? || l.StopHeartbeat?
             || l.Tick? || l.CrashHandler? || l.LoseQueue? || l.Recover?
    ensures NoOrphans(Next(c, s, l))
  {
    OrphansKept(s, Next(c, s, l));
  }

  lemma OrphansKeptBy(c: Config, s: System, l: Label)
    requires NoOrphans(s) && Enabled(c, s, l) && !OrphansLock(s, l)
    ensures NoOrphans(Next(c, s, l))
  {
    if Writes(s, l) || l.Cancel? {
      OrphansWorkerStep(c, s, l);
    } else if l.Acquire? {
      OrphansAcquire(c, s, l.w);
    } else if l.Refresh? {
      OrphansRefresh(c, s, l.w);
    } else if l.Release? {
      OrphansRelease(c, s, l.w);
    } else if l.Abandon? {
      OrphansAbandon(c, s, l.w);
    } else if l.Crash? {
      OrphansLeave(s, Drop(s, l.w, Stopped), l.w);
    } else {
      OrphansPassive(c, s, l);
    }
  }

  /** The lock of a worker that left without a release belongs to nobody. */
  lemma LeftBehind(s: System, s': System, w: nat)
    requires TokensOk(s) && w in s.workers && HasLock(s, s.workers[w])
    requires s'.locks == s.locks && s'.now == s.now && s'.workers == s.workers[w := Stopped]
    ensures !NoOrphans(s')
  {
    var p := s.workers[w].hold.project;
    forall v | v in s'.workers
      ensures !HoldsLock(s'.workers[v], p, s'.locks[p].token)
    {}
    assert !HeldBySomeone(s', p);
  }

  /** So does a lock that was set for a worker that never learned of it. */
  lemma NeverLearned(c: Config, s: System, w: nat)
    requires TokensOk(s) && 0.0 < c.ttl
    requires w in s.workers && s.workers[w].Got? && !Live(s.locks, s.workers[w].task.project, s.now)
    ensures !NoOrphans(AbandonStep(c, s, w))
  {
    var s' := AbandonStep(c, s, w);
    var p := s.workers[w].task.project;
    assert s'.locks[p] == Lease(s.nextToken, s.now + c.ttl);
    forall v | v in s'.workers
      ensures !HoldsLock(s'.workers[v], p, s'.locks[p].token)
    {}
    assert !HeldBySomeone(s', p);
  }

  /** Every live lock keeps a living holder in a step iff the step does not orphan one. */
  lemma OrphansStep(c: Config, s: System, l: Label)
    requires NoOrphans(s) && TokensOk(s) && Enabled(c, s, l) && 0.0 < c.ttl
    ensures NoOrphans(Next(c, s, l)) <==> !OrphansLock(s, l)
  {
    if !OrphansLock(s, l) {
      OrphansKeptBy(c, s, l);
    } else if s.workers[l.w].Got? {
      NeverLearned(c, s, l.w);
    } else {
      LeftBehind(s, Next(c, s, l), l.w);
    }
  }

  /** A worker is refused only while another live worker holds the project's lock. */
  lemma RefusedForAReason(c: Config, s: System, w: nat) returns (holder: nat)
    requires NoOrphans(s) && Enabled(c, s, Acquire(w)) && Next(c, s, Acquire(w)).workers[w].Refused?
    ensures holder in s.workers && holder != w
    ensures HoldsLock(s.workers[holder], s.workers[w].task.project, s.locks[s.workers[w].task.project].token)
  {
    var p := s.workers[w].task.project;
    assert HeldBySomeone(s, p);
    holder :| holder in s.workers && HoldsLock(s.workers[holder], p, s.locks[p].token);
  }

  // ---- runs ------------------------------------------------------------------

  lemma {:induction false} TokensRun(c: Config, s: System, ls: seq<Label>)
    requires TokensOk(s) && CanRun(c, s, ls)
    ensures TokensOk(Run(c, s, ls))
    decreases |ls|
  {
    if ls != [] {
      TokensStep(c, s, ls[0]);
      TokensRun(c, Next(c, s, ls[0]), ls[1..]);
    }
  }

  /** No step of the run orphans a lock. */
  ghost predicate Tended(c: Config, s: System, ls: seq<Label>)
    requires CanRun(c, s, ls)
    decreases |ls|
  {
    ls == [] || (!OrphansLock(s, ls[0]) && Tended(c, Next(c, s, ls[0]), ls[1..]))
  }

  lemma {:induction false} TendedRun(c: Config, s: System, ls: seq<Label>)
    requires NoOrphans(s) && CanRun(c, s, ls) && Tended(c, s, ls)
    ensures NoOrphans(Run(c, s, ls))
    decreases |ls|
  {
    if ls != [] {
      OrphansKeptBy(c, s, ls[0]);
      TendedRun(c, Next(c, s, ls[0]), ls[1..]);
    }
  }
}
