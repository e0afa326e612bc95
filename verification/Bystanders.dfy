/**
 * An execution among other workers that keep their locks alive or give them back meanwhile.
 * Whatever they do, and however it interleaves, the execution has the effect the worker promises.
 */
module Bystanders {
  import opened Tasks
  import opened Locks
  import opened Protocol
  import opened Workers
  import opened Conformance
  import opened Orphans
  import opened Interleaving

  // ---- beats and steps under the lock, the other way round -------------------

  lemma TickLater(c: Config, s: System, d: real, l: Label, w: nat)
    requires IsLocked(l, w) && Enabled(c, s, Tick(d)) && Enabled(c, Next(c, s, Tick(d)), l)
    ensures Enabled(c, s, l) && Enabled(c, Next(c, s, l), Tick(d))
  {
    TickIs(c, s, d);
    LockedBlind(c, Next(c, s, Tick(d)), l, w, s.now, s.locks);
    assert Next(c, s, Tick(d)).(now := s.now, locks := s.locks) == s;
    LockedKeeps(c, s, l, w);
    var s' := Next(c, s, l);
    forall v | At(s', v)
      ensures InTime(c, s'.workers[v], s'.now + d)
    {
      assert At(s, v) && InTime(c, s.workers[v], s.now + d);
    }
  }

  lemma SameKind(c: Config, s: System, u: System, l: Label, w: nat)
    requires IsLocked(l, w) && Enabled(c, u, l) && w in s.workers
    requires u.workers[w].Locked? ==> s.workers[w].Locked?
    requires u.workers[w].Streaming? ==> s.workers[w].Streaming?
    requires u.workers[w].Retrying? ==> s.workers[w].Retrying?
    ensures Enabled(c, s, l)
  {}

  lemma RefreshLater(c: Config, s: System, l: Label, w: nat)
    requires IsLocked(l, w) && Enabled(c, s, Refresh(w)) && Enabled(c, Next(c, s, Refresh(w)), l)
    ensures Enabled(c, s, l) && Enabled(c, Next(c, s, l), Refresh(w))
  {
    RefreshIs(c, s, w);
    SameKind(c, s, Next(c, s, Refresh(w)), l, w);
    LockedKeeps(c, s, l, w);
  }

  /** A beat and a step under the lock after it can change places. */
  lemma BeatLater(c: Config, s: System, b: Label, l: Label, w: nat)
    requires IsLocked(l, w) && IsBeat(b, w)
    requires Enabled(c, s, b) && Enabled(c, Next(c, s, b), l)
    ensures Enabled(c, s, l) && Enabled(c, Next(c, s, l), b)
    ensures Next(c, Next(c, s, l), b) == Next(c, Next(c, s, b), l)
  {
    if b.Tick? {
      TickLater(c, s, b.d, l, w);
    } else {
      RefreshLater(c, s, l, w);
    }
    BeatsCommute(c, s, l, b, w);
  }

  lemma {:induction false} BeatLast(c: Config, s: System, ms: seq<Label>, b: Label, bs: seq<Label>, w: nat)
    requires (forall l | l in ms :: IsLocked(l, w)) && IsBeat(b, w)
    requires Enabled(c, s, b) && CanRun(c, Next(c, s, b), ms + bs)
    ensures CanRun(c, s, ms + ([b] + bs)) && Run(c, s, ms + ([b] + bs)) == Run(c, Next(c, s, b), ms + bs)
    decreases |ms|
  {
    if ms == [] {
      assert ms + ([b] + bs) == [b] + bs && ms + bs == bs;
      RunPrepend(c, s, b, bs);
    } else {
      var m, rest := ms[0], ms[1..];
      assert m in ms && forall l | l in rest :: l in ms;
      assert ms == [m] + rest;
      ConcatAssociates([m], rest, [b] + bs);
      ConcatAssociates([m], rest, bs);
      RunSplit(c, Next(c, s, b), m, rest + bs);
      BeatLater(c, s, b, m, w);
      BeatLast(c, Next(c, s, m), rest, b, bs, w);
      RunPrepend(c, s, m, rest + ([b] + bs));
    }
  }

  /** Every interleaving leads where the steps under the lock lead with the beats after them. */
  lemma {:induction false} Unshuffle(
    c: Config, s: System, ls: seq<Label>, ms: seq<Label>, bs: seq<Label>, w: nat)
    requires (forall l | l in ms :: IsLocked(l, w)) && (forall l | l in bs :: IsBeat(l, w))
    requires CanRun(c, s, ls) && Shuffle(ls, ms, bs)
    ensures CanRun(c, s, ms + bs) && Run(c, s, ms + bs) == Run(c, s, ls)
    decreases |ls|
  {
    if ls == [] {
      assert ms + bs == [];
    } else {
      var l, rest := ls[0], ls[1..];
      if ms != [] && l == ms[0] && Shuffle(rest, ms[1..], bs) {
        assert forall m | m in ms[1..] :: m in ms;
        Unshuffle(c, Next(c, s, l), rest, ms[1..], bs, w);
        RunPrepend(c, s, l, ms[1..] + bs);
        ConcatAssociates([l], ms[1..], bs);
        assert ms == [l] + ms[1..];
      } else {
        assert l in bs && forall b | b in bs[1..] :: b in bs;
        Unshuffle(c, Next(c, s, l), rest, ms, bs[1..], w);
        BeatLast(c, s, ms, l, bs[1..], w);
        assert [l] + bs[1..] == bs;
      }
    }
  }

  // ---- what beats do ---------------------------------------------------------

  /** When the refreshes among `bs` happen. */
  function Times(now: real, bs: seq<Label>): seq<real>
    decreases |bs|
  {
    if bs == [] then []
    else if bs[0].Tick? then Times(now + bs[0].d, bs[1..])
    else [now] + Times(now, bs[1..])
  }

  function Elapsed(bs: seq<Label>): real {
    if bs == [] then 0.0 else (if bs[0].Tick? then bs[0].d else 0.0) + Elapsed(bs[1..])
  }

  lemma BeatEffect(c: Config, s: System, b: Label, w: nat)
    requires IsBeat(b, w) && Enabled(c, s, b) && w in s.workers && s.workers[w].Leaving?
    ensures OnlyBeaten(s, Next(c, s, b), w)
    ensures b.Tick? ==>
              && Next(c, s, b).now == s.now + b.d && Next(c, s, b).locks == s.locks
              && Next(c, s, b).workers[w].hold == s.workers[w].hold
    ensures !b.Tick? ==>
              var h := s.workers[w].hold;
              && h.beating && Next(c, s, b).now == s.now
              && Next(c, s, b).locks == Refreshed(s.locks, h.project, h.token, c.ttl, s.now)
              && (Next(c, s, b).workers[w].hold.beating <==> Owned(s.locks, h.project, h.token, s.now))
  {
    var s' := Next(c, s, b);
    assert s'.workers == s.workers[w := s'.workers[w]];
  }

  lemma OnlyBeatenOn(s: System, s': System, s'': System, w: nat)
    requires OnlyBeaten(s, s', w) && OnlyBeaten(s', s'', w)
    ensures OnlyBeaten(s, s'', w)
  {}

  /** Any run of beats has the effect of the heartbeat at the times of its refreshes. */
  lemma {:induction false} BeatsAre(c: Config, s: System, bs: seq<Label>, w: nat)
    requires CanRun(c, s, bs) && (forall b | b in bs :: IsBeat(b, w)) && w in s.workers && s.workers[w].Leaving?
    ensures OnlyBeaten(s, Run(c, s, bs), w) && Run(c, s, bs).now == s.now + Elapsed(bs)
    ensures var h := s.workers[w].hold;
            && (h.beating ==> Run(c, s, bs).locks == Beaten(s.locks, h.project, h.token, c.ttl, Times(s.now, bs)))
            && (!h.beating ==> Run(c, s, bs).locks == s.locks)
    decreases |bs|
  {
    if bs != [] {
      assert bs[0] in bs && forall b | b in bs[1..] :: b in bs;
      var s' := Next(c, s, bs[0]);
      BeatEffect(c, s, bs[0], w);
      BeatsAre(c, s', bs[1..], w);
      OnlyBeatenOn(s, s', Run(c, s', bs[1..]), w);
      if !bs[0].Tick? {
        BeatenFirst(s.locks, s.workers[w].hold, c.ttl, s.now, Times(s.now, bs[1..]));
      }
    }
  }

  lemma BeatenFirst(l: Table, h: Hold, ttl: real, now: real, times: seq<real>)
    ensures Beaten(l, h.project, h.token, ttl, [now] + times)
            == if Owned(l, h.project, h.token, now)
               then Beaten(Refreshed(l, h.project, h.token, ttl, now), h.project, h.token, ttl, times)
               else l
  {
    assert ([now] + times)[0] == now && ([now] + times)[1..] == times;
  }

  // ---- what one worker sees --------------------------------------------------

  /** Another worker keeps its lock alive or gives it back. */
  predicate Foreign(l: Label, w: nat) {
    (l.Refresh? || l.StopHeartbeat? || l.Release?) && l.w != w
  }

  /** The steps of an execution of `w` between its acquire and its release. */
  predicate Inner(l: Label, w: nat) {
    IsLocked(l, w) || IsBeat(l, w) || l == StopHeartbeat(w)
  }

  /** The system without the other workers and their locks. */
  function View(s: System, w: nat, p: string): System
    requires w in s.workers
  {
    s.(workers := map[w := s.workers[w]], locks := if p in s.locks then map[p := s.locks[p]] else map[])
  }

  /** The lock of `p` names `w`, live or not. */
  predicate Guards(s: System, w: nat, p: string) {
    && w in s.workers && Holding(s.workers[w]) && s.workers[w].hold.project == p
    && p in s.locks && s.locks[p].token == s.workers[w].hold.token
  }

  /** A foreign step touches only its own worker, the heartbeat of that, and the lock of its project. */
  lemma ForeignEffect(c: Config, s: System, l: Label)
    requires Enabled(c, s, l) && (l.Refresh? || l.StopHeartbeat? || l.Release?)
    ensures var s', h := Next(c, s, l), s.workers[l.w].hold;
            && s' == s.(workers := s'.workers, locks := s'.locks)
            && l.w in s'.workers && s'.workers == s.workers[l.w := s'.workers[l.w]]
            && Holding(s.workers[l.w]) && Carried(s'.workers[l.w]) == Carried(s.workers[l.w])
            && (s'.locks == s.locks
                || (Owned(s.locks, h.project, h.token, s.now)
                    && s'.locks - {h.project} == s.locks - {h.project}))
  {
    var s', h := Next(c, s, l), s.workers[l.w].hold;
    assert s'.workers == s.workers[l.w := s'.workers[l.w]];
    assert forall p | p != h.project :: (p in s'.locks <==> p in s.locks) && (p in s.locks ==> s'.locks[p] == s.locks[p]);
  }

  lemma LocksApart(l: Table, l': Table, q: string, p: string)
    requires l' - {q} == l - {q} && p != q
    ensures SameLock(l', l, p)
  {
    assert p in l' - {q} <==> p in l - {q};
    assert p in l ==> (l - {q})[p] == l[p];
    assert p in l' ==> (l' - {q})[p] == l'[p];
  }

  lemma ForeignUnseen(c: Config, s: System, l: Label, w: nat, p: string)
    requires Enabled(c, s, l) && Foreign(l, w) && Guards(s, w, p) && TokensOk(s)
    ensures Guards(Next(c, s, l), w, p) && View(Next(c, s, l), w, p) == View(s, w, p)
    ensures OthersCarryOn(s, Next(c, s, l), w)
  {
    ForeignEffect(c, s, l);
    var s', q := Next(c, s, l), s.workers[l.w].hold.project;
    assert s.workers[l.w].hold.token != s.workers[w].hold.token;
    if s'.locks != s.locks {
      LocksApart(s.locks, s'.locks, q, p);
    }
    assert View(s', w, p).locks == View(s, w, p).locks;
  }

  /** The other workers carry what they carried. */
  predicate OthersCarryOn(s: System, s': System, w: nat) {
    && s'.workers.Keys == s.workers.Keys
    && forall v | v in s.workers && v != w :: Carried(s'.workers[v]) == Carried(s.workers[v])
  }

  lemma LockedSeen(c: Config, s: System, l: Label, w: nat, p: string)
    requires Enabled(c, s, l) && IsLocked(l, w) && Guards(s, w, p)
    ensures Guards(Next(c, s, l), w, p) && OthersCarryOn(s, Next(c, s, l), w)
    ensures Enabled(c, View(s, w, p), l) && Next(c, View(s, w, p), l) == View(Next(c, s, l), w, p)
  {
    LockedKeeps(c, s, l, w);
    SameKind(c, View(s, w, p), s, l, w);
    LockedAlike(c, s, View(s, w, p), l, w);
    var s', v' := Next(c, s, l), Next(c, View(s, w, p), l);
    LockedKeeps(c, View(s, w, p), l, w);
    assert v'.workers == map[w := s'.workers[w]];
  }

  /** A step under the lock depends on nothing of other workers and of locks. */
  lemma LockedAlike(c: Config, s: System, u: System, l: Label, w: nat)
    requires IsLocked(l, w) && Enabled(c, s, l) && Enabled(c, u, l) && u.workers[w] == s.workers[w]
    requires u == s.(workers := u.workers, locks := u.locks)
    ensures var s', u' := Next(c, s, l), Next(c, u, l);
            u' == s'.(workers := u'.workers, locks := u'.locks) && u'.workers[w] == s'.workers[w]
  {}

  lemma TickSeen(c: Config, s: System, d: real, w: nat, p: string)
    requires Enabled(c, s, Tick(d)) && Guards(s, w, p)
    ensures Guards(Next(c, s, Tick(d)), w, p) && OthersCarryOn(s, Next(c, s, Tick(d)), w)
    ensures Enabled(c, View(s, w, p), Tick(d)) && Next(c, View(s, w, p), Tick(d)) == View(Next(c, s, Tick(d)), w, p)
  {
    assert At(s, w) && InTime(c, s.workers[w], s.now + d);
  }

  lemma RefreshSeen(c: Config, s: System, w: nat, p: string)
    requires Enabled(c, s, Refresh(w)) && Guards(s, w, p)
    ensures Guards(Next(c, s, Refresh(w)), w, p) && OthersCarryOn(s, Next(c, s, Refresh(w)), w)
    ensures Enabled(c, View(s, w, p), Refresh(w))
    ensures Next(c, View(s, w, p), Refresh(w)) == View(Next(c, s, Refresh(w)), w, p)
  {
    var s', v' := Next(c, s, Refresh(w)), Next(c, View(s, w, p), Refresh(w));
    assert v'.workers == map[w := s'.workers[w]];
    assert v'.locks == View(s', w, p).locks;
  }

  lemma StopSeen(c: Config, s: System, w: nat, p: string)
    requires Enabled(c, s, StopHeartbeat(w)) && Guards(s, w, p)
    ensures Guards(Next(c, s, StopHeartbeat(w)), w, p) && OthersCarryOn(s, Next(c, s, StopHeartbeat(w)), w)
    ensures Enabled(c, View(s, w, p), StopHeartbeat(w))
    ensures Next(c, View(s, w, p), StopHeartbeat(w)) == View(Next(c, s, StopHeartbeat(w)), w, p)
  {
    var s', v' := Next(c, s, StopHeartbeat(w)), Next(c, View(s, w, p), StopHeartbeat(w));
    assert v'.workers == map[w := s'.workers[w]];
  }

  lemma InnerSeen(c: Config, s: System, l: Label, w: nat, p: string)
    requires Enabled(c, s, l) && Inner(l, w) && Guards(s, w, p)
    ensures Guards(Next(c, s, l), w, p) && OthersCarryOn(s, Next(c, s, l), w)
    ensures Enabled(c, View(s, w, p), l) && Next(c, View(s, w, p), l) == View(Next(c, s, l), w, p)
  {
    if IsLocked(l, w) {
      LockedSeen(c, s, l, w, p);
    } else if l.Tick? {
      TickSeen(c, s, l.d, w, p);
    } else if l.Refresh? {
      RefreshSeen(c, s, w, p);
    } else {
      StopSeen(c, s, w, p);
    }
  }

  function Own(ls: seq<Label>, w: nat): seq<Label> {
    if ls == [] then [] else (if Foreign(ls[0], w) then [] else [ls[0]]) + Own(ls[1..], w)
  }

  /** A run among bystanders is, in the worker's view, the run of its own steps. */
  lemma {:induction false} RunSeen(c: Config, s: System, ls: seq<Label>, w: nat, p: string)
    requires CanRun(c, s, ls) && Guards(s, w, p) && TokensOk(s)
    requires forall l | l in ls :: Foreign(l, w) || Inner(l, w)
    ensures Guards(Run(c, s, ls), w, p) && OthersCarryOn(s, Run(c, s, ls), w)
    ensures CanRun(c, View(s, w, p), Own(ls, w))
    ensures Run(c, View(s, w, p), Own(ls, w)) == View(Run(c, s, ls), w, p)
    decreases |ls|
  {
    if ls != [] {
      var l, rest := ls[0], ls[1..];
      assert l in ls && forall m | m in rest :: m in ls;
      var s' := Next(c, s, l);
      TokensStep(c, s, l);
      if Foreign(l, w) {
        ForeignUnseen(c, s, l, w, p);
        RunSeen(c, s', rest, w, p);
        assert Own(ls, w) == Own(rest, w);
      } else {
        InnerSeen(c, s, l, w, p);
        RunSeen(c, s', rest, w, p);
        RunPrepend(c, View(s, w, p), l, Own(rest, w));
      }
    }
  }

  // ---- the execution, alone --------------------------------------------------

  /** What `w`, alone with its lock, has done when it is about to release. */
  predicate ReadyToRelease(c: Config, s: System, s': System, w: nat, env: Env)
    requires w in s.workers && s.workers[w].Locked?
  {
    var Locked(t, h) := s.workers[w];
    && s'.store == StoreAfter(s.store, c.maxRetries, t, env)
    && s'.queue == s.queue + Requeued(c.maxRetries, t, env)
    && s'.handlers == s.handlers
    && s'.locks == Beaten(s.locks, h.project, h.token, c.ttl, env.beats)
    && w in s'.workers && s'.workers[w].Releasing?
    && s'.workers[w].hold.project == h.project && s'.workers[w].hold.token == h.token
    && (s'.workers[w].stop <==> Begins(t, env) && env.outcome.Cancelled?)
  }

  lemma {:induction false} WaitsAre(c: Config, s: System, waits: seq<Label>)
    requires CanRun(c, s, waits) && forall l | l in waits :: l.Tick?
    ensures Run(c, s, waits) == s.(now := s.now + Elapsed(waits))
    decreases |waits|
  {
    if waits != [] {
      assert waits[0] in waits && forall l | l in waits[1..] :: l in waits;
      TickIs(c, s, waits[0].d);
      WaitsAre(c, Next(c, s, waits[0]), waits[1..]);
    }
  }

  lemma MixedAre(c: Config, s: System, w: nat, env: Env, mixed: seq<Label>, beats: seq<Label>)
    requires w in s.workers && s.workers[w].Locked? && s.workers[w].hold.beating && CanRun(c, s, mixed)
    requires Shuffle(mixed, LockedSteps(c.maxRetries, w, s.workers[w].task, env), beats)
    requires (forall b | b in beats :: IsBeat(b, w)) && env.beats == Times(s.now, beats)
    ensures var Locked(t, h) := s.workers[w];
            var s' := Run(c, s, mixed);
            && s'.store == StoreAfter(s.store, c.maxRetries, t, env)
            && s'.queue == s.queue + Requeued(c.maxRetries, t, env)
            && s'.handlers == s.handlers
            && s'.locks == Beaten(s.locks, h.project, h.token, c.ttl, env.beats)
            && w in s'.workers && s'.workers[w].Leaving?
            && s'.workers[w].hold.project == h.project && s'.workers[w].hold.token == h.token
            && (s'.workers[w].stop <==> Begins(t, env) && env.outcome.Cancelled?)
  {
    var steps := LockedSteps(c.maxRetries, w, s.workers[w].task, env);
    Unshuffle(c, s, mixed, steps, beats, w);
    RunLockedConforms(c, s, w, env);
    var s1 := Run(c, s, steps);
    SplitRun(c, s, steps, beats);
    BeatsAre(c, s1, beats, w);
  }

  lemma {:induction false} SplitRun(c: Config, s: System, ls: seq<Label>, ms: seq<Label>)
    requires CanRun(c, s, ls + ms)
    ensures CanRun(c, s, ls) && CanRun(c, Run(c, s, ls), ms) && Run(c, s, ls + ms) == Run(c, Run(c, s, ls), ms)
    decreases |ls|
  {
    if ls == [] {
      assert ls + ms == ms;
    } else {
      assert ls == [ls[0]] + ls[1..];
      ConcatAssociates([ls[0]], ls[1..], ms);
      RunSplit(c, s, ls[0], ls[1..] + ms);
      SplitRun(c, Next(c, s, ls[0]), ls[1..], ms);
    }
  }

  lemma AloneReady(
    c: Config, s: System, w: nat, env: Env, mixed: seq<Label>, beats: seq<Label>, waits: seq<Label>)
    requires w in s.workers && s.workers[w].Locked? && s.workers[w].hold.beating
    requires CanRun(c, s, mixed + [StopHeartbeat(w)] + waits)
    requires Shuffle(mixed, LockedSteps(c.maxRetries, w, s.workers[w].task, env), beats)
    requires (forall b | b in beats :: IsBeat(b, w)) && env.beats == Times(s.now, beats)
    requires forall l | l in waits :: l.Tick?
    ensures ReadyToRelease(c, s, Run(c, s, mixed + [StopHeartbeat(w)] + waits), w, env)
  {
    SplitRun(c, s, mixed + [StopHeartbeat(w)], waits);
    SplitRun(c, s, mixed, [StopHeartbeat(w)]);
    MixedAre(c, s, w, env, mixed, beats);
    var s1 := Run(c, s, mixed);
    RunOfOne(c, s1, StopHeartbeat(w));
    WaitsAre(c, Run(c, s, mixed + [StopHeartbeat(w)]), waits);
  }

  // ---- the execution among others --------------------------------------------

  /** The lock of `p` is the same in both. */
  predicate SameLock(l: Table, l': Table, p: string) {
    (p in l <==> p in l') && (p in l ==> l[p] == l'[p])
  }

  lemma BeatenAlike(l: Table, l': Table, p: string, token: Token, ttl: real, beats: seq<real>)
    requires SameLock(l, l', p)
    ensures SameLock(Beaten(l, p, token, ttl, beats), Beaten(l', p, token, ttl, beats), p)
    decreases |beats|
  {
    if beats != [] && Owned(l, p, token, beats[0]) {
      BeatenAlike(Refreshed(l, p, token, ttl, beats[0]), Refreshed(l', p, token, ttl, beats[0]), p, token, ttl, beats[1..]);
    }
  }

  /** What the execution promises, except for the locks and heartbeats of others. */
  predicate PromisedEffect(c: Config, s: System, s': System, w: nat, t: Task, env: Env) {
    && s'.store == StoreAfter(s.store, c.maxRetries, t, env)
    && s'.queue == s.queue + Requeued(c.maxRetries, t, env)
    && s'.handlers == s.handlers
    && SameLock(s'.locks, LocksAfter(s.locks, t.project, s.nextToken, c.ttl, env), t.project)
    && w in s'.workers
    && s'.workers[w] == (if Begins(t, env) && env.outcome.Cancelled? then Stopped else Idle)
    && OthersCarryOn(s, s', w)
  }

  /** `ls` is an execution of `w` after its acquire, up to its release, among foreign steps. */
  predicate AmongOthers(
    maxRetries: int, ls: seq<Label>, w: nat, t: Task, env: Env,
    mixed: seq<Label>, beats: seq<Label>, waits: seq<Label>)
  {
    && (forall l | l in ls :: Foreign(l, w) || Inner(l, w))
    && Own(ls, w) == mixed + [StopHeartbeat(w)] + waits
    && Shuffle(mixed, LockedSteps(maxRetries, w, t, env), beats)
    && (forall b | b in beats :: IsBeat(b, w))
    && (forall l | l in waits :: l.Tick?)
  }

  lemma AcquireGuards(c: Config, s: System, w: nat)
    requires w in s.workers && s.workers[w].Got? && TokensOk(s) && !Live(s.locks, s.workers[w].task.project, s.now)
    ensures var s1, t := AcquireStep(c, s, w), s.workers[w].task;
            && Guards(s1, w, t.project) && TokensOk(s1) && OthersCarryOn(s, s1, w)
            && s1.workers[w] == Locked(t, Hold(t.project, s.nextToken, s.now, true))
            && s1.locks == Acquired(s.locks, t.project, s.nextToken, c.ttl, s.now)
            && s1.store == s.store && s1.queue == s.queue && s1.handlers == s.handlers && s1.now == s.now
  {
    TokensAcquire(c, s, w);
  }

  /**
   * Every run of an execution, however its steps interleave with its heartbeat, the clock, and
   * other workers that refresh or release their locks, has the effect `Worker.Execute` promises
   * for the times at which it acquired, refreshed and released.
   */
  lemma EveryExecutionConforms(
    c: Config, s: System, w: nat, env: Env, ls: seq<Label>, mixed: seq<Label>, beats: seq<Label>, waits: seq<Label>)
    requires w in s.workers && s.workers[w].Got? && TokensOk(s)
    requires !Live(s.locks, s.workers[w].task.project, s.now)
    requires AmongOthers(c.maxRetries, ls, w, s.workers[w].task, env, mixed, beats, waits)
    requires CanRun(c, AcquireStep(c, s, w), ls)
    requires env.acquireAt == s.now && env.beats == Times(s.now, beats)
    requires env.releaseAt == Run(c, AcquireStep(c, s, w), ls).now
    ensures var s2 := Run(c, AcquireStep(c, s, w), ls);
            && Leads(c, s, [Acquire(w)] + ls, s2) && Enabled(c, s2, Release(w))
            && PromisedEffect(c, s, Next(c, s2, Release(w)), w, s.workers[w].task, env)
  {
    var t := s.workers[w].task;
    var s1 := AcquireStep(c, s, w);
    AcquireGuards(c, s, w);
    AmongOthersConform(c, s1, w, t, env, ls, mixed, beats, waits);
    RunPrepend(c, s, Acquire(w), ls);
  }

  lemma AmongOthersConform(
    c: Config, s: System, w: nat, t: Task, env: Env,
    ls: seq<Label>, mixed: seq<Label>, beats: seq<Label>, waits: seq<Label>)
    requires Guards(s, w, t.project) && TokensOk(s) && s.workers[w].Locked? && s.workers[w].task == t
    requires s.workers[w].hold.beating && CanRun(c, s, ls)
    requires AmongOthers(c.maxRetries, ls, w, t, env, mixed, beats, waits)
    requires env.beats == Times(s.now, beats) && env.releaseAt == Run(c, s, ls).now
    ensures var s2 := Run(c, s, ls);
            && Enabled(c, s2, Release(w)) && LockedPromise(c, s, Next(c, s2, Release(w)), w, t, env)
  {
    var p, s2 := t.project, Run(c, s, ls);
    RunSeen(c, s, ls, w, p);
    AloneReady(c, View(s, w, p), w, env, mixed, beats, waits);
    BeatenAlike(s.locks, View(s, w, p).locks, p, s.workers[w].hold.token, c.ttl, env.beats);
    ReleaseEffect(c, s, s2, w, t, env);
  }

  /** `PromisedEffect`, seen from the state after the acquire. */
  predicate LockedPromise(c: Config, s: System, s': System, w: nat, t: Task, env: Env)
    requires w in s.workers && s.workers[w].Locked?
  {
    var token := s.workers[w].hold.token;
    && s'.store == StoreAfter(s.store, c.maxRetries, t, env)
    && s'.queue == s.queue + Requeued(c.maxRetries, t, env)
    && s'.handlers == s.handlers
    && SameLock(s'.locks,
                Released(Beaten(s.locks, t.project, token, c.ttl, env.beats), t.project, token, env.releaseAt),
                t.project)
    && w in s'.workers
    && s'.workers[w] == (if Begins(t, env) && env.outcome.Cancelled? then Stopped else Idle)
    && OthersCarryOn(s, s', w)
  }

  lemma ReleaseEffect(c: Config, s1: System, s2: System, w: nat, t: Task, env: Env)
    requires w in s1.workers && s1.workers[w].Locked? && s1.workers[w].task == t
    requires w in s2.workers && s1.workers[w].hold.project == t.project
    requires ReadyToRelease(c, View(s1, w, t.project), View(s2, w, t.project), w, env) && env.releaseAt == s2.now
    requires var h := s1.workers[w].hold;
             SameLock(Beaten(s1.locks, t.project, h.token, c.ttl, env.beats),
                      Beaten(View(s1, w, t.project).locks, t.project, h.token, c.ttl, env.beats), t.project)
    ensures Enabled(c, s2, Release(w))
    ensures var s3, h := Next(c, s2, Release(w)), s1.workers[w].hold;
            && s3.store == StoreAfter(s1.store, c.maxRetries, t, env)
            && s3.queue == s1.queue + Requeued(c.maxRetries, t, env) && s3.handlers == s1.handlers
            && SameLock(s3.locks,
                        Released(Beaten(s1.locks, t.project, h.token, c.ttl, env.beats), t.project, h.token, env.releaseAt),
                        t.project)
            && s3.workers == s2.workers[w := if Begins(t, env) && env.outcome.Cancelled? then Stopped else Idle]
  {
    assert s2.workers[w] == View(s2, w, t.project).workers[w];
    assert SameLock(s2.locks, View(s2, w, t.project).locks, t.project);
  }
}
