/**
 * A whole execution with its heartbeat. The steps under the lock and the beats run side by
 * side in the source; every interleaving of them is a run of the protocol with the effect
 * the worker promises.
 */
module Interleaving {
  import opened Tasks
  import opened Locks
  import opened Scheduling
  import opened Protocol
  import opened Workers
  import opened Conformance

  // ---- heartbeats ------------------------------------------------------------

  /** No other worker has a deadline before `end`. */
  predicate OthersCalm(c: Config, s: System, w: nat, end: real) {
    forall v | v in s.workers && v != w :: InTime(c, s.workers[v], end)
  }

  /**
   * The heartbeat comes once per interval, at most `delay` late, until a refresh fails; the
   * execution ends at `end`, in time for the next beat unless the heartbeat has failed.
   */
  predicate Paced(c: Config, l: Table, h: Hold, beats: seq<real>, end: real)
    decreases |beats|
  {
    if beats == [] then
      h.refreshed <= end <= h.refreshed + c.heartbeat + c.delay
    else
      && h.refreshed + c.heartbeat <= beats[0] <= h.refreshed + c.heartbeat + c.delay
      && beats[0] <= end
      && (Owned(l, h.project, h.token, beats[0]) ==>
            Paced(c, Refreshed(l, h.project, h.token, c.ttl, beats[0]), h.(refreshed := beats[0]), beats[1..], end))
  }

  /** A step of the heartbeat of `w`, or of the clock. */
  predicate IsBeat(l: Label, w: nat) {
    l.Tick? || l == Refresh(w)
  }

  /** A step `w` takes under the lock. */
  predicate IsLocked(l: Label, w: nat) {
    (l.EngineFail? || l.Start? || l.Finish? || l.RetryEnqueue?) && l.w == w
  }

  /** Only the clock, the locks and the hold of `w` have moved. */
  predicate OnlyBeaten(s: System, s': System, w: nat) {
    && s'.store == s.store && s'.queue == s.queue && s'.handlers == s.handlers
    && w in s.workers && w in s'.workers && s.workers[w].Leaving? && s'.workers[w].Leaving?
    && s'.workers == s.workers[w := s'.workers[w]]
    && s'.workers[w].stop == s.workers[w].stop
    && s'.workers[w].hold.project == s.workers[w].hold.project
    && s'.workers[w].hold.token == s.workers[w].hold.token
  }

  lemma DoTick(c: Config, s0: System, pre: seq<Label>, s: System, w: nat, to: real)
    returns (ls: seq<Label>, s': System)
    requires Leads(c, s0, pre, s) && OthersCalm(c, s, w, to) && w in s.workers && s.workers[w].Leaving?
    requires s.now <= to && InTime(c, s.workers[w], to)
    ensures Leads(c, s0, pre + ls, s') && s' == s.(now := to)
    ensures forall l | l in ls :: IsBeat(l, w)
  {
    assert s.now + (to - s.now) == to;
    ls := [Tick(to - s.now)];
    var run;
    run, s' := Do(c, s0, pre, s, Tick(to - s.now));
  }

  /** One beat: the clock moves on, and the lease is refreshed if it is still the worker's. */
  lemma DoBeat(c: Config, s0: System, pre: seq<Label>, s: System, w: nat, at: real)
    returns (ls: seq<Label>, s': System)
    requires Leads(c, s0, pre, s) && OthersCalm(c, s, w, at)
    requires w in s.workers && s.workers[w].Leaving? && s.workers[w].hold.beating && s.now <= at
    requires var h := s.workers[w].hold;
             h.refreshed + c.heartbeat <= at <= h.refreshed + c.heartbeat + c.delay
    ensures Leads(c, s0, pre + ls, s') && OnlyBeaten(s, s', w) && s'.now == at
    ensures forall l | l in ls :: IsBeat(l, w)
    ensures var h := s.workers[w].hold;
            && s'.locks == Refreshed(s.locks, h.project, h.token, c.ttl, at)
            && s'.workers[w].hold
               == if Owned(s.locks, h.project, h.token, at) then h.(refreshed := at) else h.(beating := false)
  {
    ls, s' := DoTick(c, s0, pre, s, w, at);
    var run;
    run, s' := Do(c, s0, pre + ls, s', Refresh(w));
    assert pre + ls + [Refresh(w)] == pre + (ls + [Refresh(w)]);
    ls := ls + [Refresh(w)];
  }

  lemma CalmBefore(c: Config, s: System, s': System, w: nat, end: real, at: real)
    requires OthersCalm(c, s, w, end) && at <= end
    requires w in s'.workers && s'.workers == s.workers[w := s'.workers[w]]
    ensures OthersCalm(c, s', w, at)
  {}

  /** The heartbeat coroutine is a run of `Refresh` steps. */
  lemma {:induction false} BeatsConform(
    c: Config, s0: System, pre: seq<Label>, s: System, w: nat, beats: seq<real>, end: real)
    returns (ls: seq<Label>, s': System)
    requires Leads(c, s0, pre, s) && OthersCalm(c, s, w, end) && 0.0 <= c.heartbeat
    requires w in s.workers && s.workers[w].Leaving? && s.workers[w].hold.beating
    requires s.now == s.workers[w].hold.refreshed && Paced(c, s.locks, s.workers[w].hold, beats, end)
    ensures Leads(c, s0, pre + ls, s') && OnlyBeaten(s, s', w) && s'.now == end
    ensures s'.locks == Beaten(s.locks, s.workers[w].hold.project, s.workers[w].hold.token, c.ttl, beats)
    ensures forall l | l in ls :: IsBeat(l, w)
    decreases |beats|
  {
    if beats == [] {
      ls, s' := DoTick(c, s0, pre, s, w, end);
    } else {
      CalmBefore(c, s, s, w, end, beats[0]);
      var first, s1 := DoBeat(c, s0, pre, s, w, beats[0]);
      CalmBefore(c, s, s1, w, end, end);
      var rest;
      if s1.workers[w].hold.beating {
        rest, s' := BeatsConform(c, s0, pre + first, s1, w, beats[1..], end);
      } else {
        rest, s' := DoTick(c, s0, pre + first, s1, w, end);
      }
      ls := first + rest;
      assert pre + first + rest == pre + ls;
    }
  }

  // ---- interleaving ----------------------------------------------------------

  /** `ls` interleaves `ms` and `bs`. */
  predicate Shuffle(ls: seq<Label>, ms: seq<Label>, bs: seq<Label>)
    decreases |ls|
  {
    if ls == [] then ms == [] && bs == []
    else
      || (ms != [] && ls[0] == ms[0] && Shuffle(ls[1..], ms[1..], bs))
      || (bs != [] && ls[0] == bs[0] && Shuffle(ls[1..], ms, bs[1..]))
  }

  /** Steps under the lock keep the hold of `w`, the clock and the locks. */
  lemma LockedKeeps(c: Config, s: System, l: Label, w: nat)
    requires IsLocked(l, w) && Enabled(c, s, l)
    ensures var s' := Next(c, s, l);
            && w in s.workers && w in s'.workers && Beats(s.workers[w]) && Beats(s'.workers[w])
            && s'.workers == s.workers[w := s'.workers[w]] && s'.workers[w].hold == s.workers[w].hold
            && s'.now == s.now && s'.locks == s.locks
  {}

  /** They do not look at the clock or the locks. */
  lemma LockedBlind(c: Config, s: System, l: Label, w: nat, now: real, locks: Table)
    requires IsLocked(l, w) && Enabled(c, s, l)
    ensures Enabled(c, s.(now := now, locks := locks), l)
    ensures Next(c, s.(now := now, locks := locks), l) == Next(c, s, l).(now := now, locks := locks)
  {}

  function WithHoldOf(s: System, w: nat, h: Hold): System
    requires w in s.workers && Beats(s.workers[w])
  {
    s.(workers := s.workers[w := WithHold(s.workers[w], h)])
  }

  lemma EngineFailPasses(c: Config, s: System, w: nat, h: Hold)
    requires Enabled(c, s, EngineFail(w))
    ensures var s' := Next(c, s, EngineFail(w));
            && w in s'.workers && Beats(s'.workers[w]) && Enabled(c, WithHoldOf(s, w, h), EngineFail(w))
            && Next(c, WithHoldOf(s, w, h), EngineFail(w)) == WithHoldOf(s', w, h)
  {
    var s', u := Next(c, s, EngineFail(w)), WithHoldOf(s, w, h);
    assert Next(c, u, EngineFail(w)).workers == WithHoldOf(s', w, h).workers;
  }

  lemma StartPasses(c: Config, s: System, w: nat, probe: Probe, h: Hold)
    requires Enabled(c, s, Start(w, probe))
    ensures var s' := Next(c, s, Start(w, probe));
            && w in s'.workers && Beats(s'.workers[w]) && Enabled(c, WithHoldOf(s, w, h), Start(w, probe))
            && Next(c, WithHoldOf(s, w, h), Start(w, probe)) == WithHoldOf(s', w, h)
  {
    var s', u := Next(c, s, Start(w, probe)), WithHoldOf(s, w, h);
    assert Next(c, u, Start(w, probe)).workers == WithHoldOf(s', w, h).workers;
  }

  lemma FinishPasses(c: Config, s: System, w: nat, outcome: Outcome, h: Hold)
    requires Enabled(c, s, Finish(w, outcome))
    ensures var s' := Next(c, s, Finish(w, outcome));
            && w in s'.workers && Beats(s'.workers[w]) && Enabled(c, WithHoldOf(s, w, h), Finish(w, outcome))
            && Next(c, WithHoldOf(s, w, h), Finish(w, outcome)) == WithHoldOf(s', w, h)
  {
    var s', u := Next(c, s, Finish(w, outcome)), WithHoldOf(s, w, h);
    assert Next(c, u, Finish(w, outcome)).workers == WithHoldOf(s', w, h).workers;
  }

  lemma RetryPasses(c: Config, s: System, w: nat, h: Hold)
    requires Enabled(c, s, RetryEnqueue(w))
    ensures var s' := Next(c, s, RetryEnqueue(w));
            && w in s'.workers && Beats(s'.workers[w]) && Enabled(c, WithHoldOf(s, w, h), RetryEnqueue(w))
            && Next(c, WithHoldOf(s, w, h), RetryEnqueue(w)) == WithHoldOf(s', w, h)
  {
    var s', u := Next(c, s, RetryEnqueue(w)), WithHoldOf(s, w, h);
    assert Next(c, u, RetryEnqueue(w)).workers == WithHoldOf(s', w, h).workers;
  }

  /** And they pass the hold on, whatever it says. */
  lemma LockedPasses(c: Config, s: System, l: Label, w: nat, h: Hold)
    requires IsLocked(l, w) && Enabled(c, s, l)
    ensures var s' := Next(c, s, l);
            && w in s.workers && Beats(s.workers[w]) && w in s'.workers && Beats(s'.workers[w])
            && Enabled(c, WithHoldOf(s, w, h), l) && Next(c, WithHoldOf(s, w, h), l) == WithHoldOf(s', w, h)
  {
    match l {
      case EngineFail(_) => EngineFailPasses(c, s, w, h);
      case Start(_, probe) => StartPasses(c, s, w, probe, h);
      case Finish(_, outcome) => FinishPasses(c, s, w, outcome, h);
      case RetryEnqueue(_) => RetryPasses(c, s, w, h);
    }
  }

  lemma TickEarlier(c: Config, s: System, l: Label, d: real, w: nat)
    requires IsLocked(l, w) && Enabled(c, s, l) && Enabled(c, Next(c, s, l), Tick(d))
    ensures Enabled(c, s, Tick(d))
  {
    var s' := Next(c, s, l);
    LockedKeeps(c, s, l, w);
    forall v | At(s, v)
      ensures InTime(c, s.workers[v], s.now + d)
    {
      assert At(s', v) && InTime(c, s'.workers[v], s'.now + d);
    }
  }

  lemma TicksCommute(c: Config, s: System, l: Label, d: real, w: nat)
    requires IsLocked(l, w) && Enabled(c, s, l) && Enabled(c, Next(c, s, l), Tick(d))
    ensures Enabled(c, s, Tick(d)) && Enabled(c, Next(c, s, Tick(d)), l)
    ensures Next(c, Next(c, s, Tick(d)), l) == Next(c, Next(c, s, l), Tick(d))
  {
    TickEarlier(c, s, l, d, w);
    LockedKeeps(c, s, l, w);
    LockedBlind(c, s, l, w, s.now + d, s.locks);
    TickIs(c, s, d);
    TickIs(c, Next(c, s, l), d);
  }

  lemma TickIs(c: Config, s: System, d: real)
    requires Enabled(c, s, Tick(d))
    ensures Next(c, s, Tick(d)) == s.(now := s.now + d, locks := s.locks)
  {}

  /** A refresh changes the locks and the hold. */
  function HoldAfter(s: System, h: Hold): Hold {
    if Owned(s.locks, h.project, h.token, s.now) then h.(refreshed := s.now) else h.(beating := false)
  }

  lemma RefreshIs(c: Config, s: System, w: nat)
    requires Enabled(c, s, Refresh(w))
    ensures var h := s.workers[w].hold;
            Next(c, s, Refresh(w))
            == WithHoldOf(s.(now := s.now, locks := Refreshed(s.locks, h.project, h.token, c.ttl, s.now)), w, HoldAfter(s, h))
  {}

  lemma RefreshesCommute(c: Config, s: System, l: Label, w: nat)
    requires IsLocked(l, w) && Enabled(c, s, l) && Enabled(c, Next(c, s, l), Refresh(w))
    ensures Enabled(c, s, Refresh(w)) && Enabled(c, Next(c, s, Refresh(w)), l)
    ensures Next(c, Next(c, s, Refresh(w)), l) == Next(c, Next(c, s, l), Refresh(w))
  {
    LockedKeeps(c, s, l, w);
    var h := s.workers[w].hold;
    var locks := Refreshed(s.locks, h.project, h.token, c.ttl, s.now);
    var s1 := s.(now := s.now, locks := locks);
    RefreshIs(c, s, w);
    RefreshIs(c, Next(c, s, l), w);
    LockedBlind(c, s, l, w, s.now, locks);
    LockedPasses(c, s1, l, w, HoldAfter(s, h));
  }

  /** A step under the lock and a beat after it can change places. */
  lemma BeatsCommute(c: Config, s: System, l: Label, b: Label, w: nat)
    requires IsLocked(l, w) && IsBeat(b, w)
    requires Enabled(c, s, l) && Enabled(c, Next(c, s, l), b)
    ensures Enabled(c, s, b) && Enabled(c, Next(c, s, b), l)
    ensures Next(c, Next(c, s, b), l) == Next(c, Next(c, s, l), b)
  {
    if b.Tick? {
      TicksCommute(c, s, l, b.d, w);
    } else {
      RefreshesCommute(c, s, l, w);
    }
  }

  /** The first beat may come before all steps under the lock. */
  lemma {:induction false} BeatFirst(c: Config, s: System, ms: seq<Label>, b: Label, bs: seq<Label>, w: nat)
    requires (forall l | l in ms :: IsLocked(l, w)) && IsBeat(b, w)
    requires CanRun(c, s, ms + ([b] + bs))
    ensures Enabled(c, s, b) && CanRun(c, Next(c, s, b), ms + bs)
    ensures Run(c, Next(c, s, b), ms + bs) == Run(c, s, ms + ([b] + bs))
    decreases |ms|
  {
    if ms == [] {
      assert ms + ([b] + bs) == [b] + bs && ms + bs == bs;
      RunSplit(c, s, b, bs);
    } else {
      var m, rest := ms[0], ms[1..];
      assert m in ms && forall l | l in rest :: l in ms;
      assert ms == [m] + rest;
      ConcatAssociates([m], rest, [b] + bs);
      ConcatAssociates([m], rest, bs);
      RunSplit(c, s, m, rest + ([b] + bs));
      BeatFirst(c, Next(c, s, m), rest, b, bs, w);
      BeatsCommute(c, s, m, b, w);
      RunPrepend(c, Next(c, s, b), m, rest + bs);
    }
  }

  lemma RunSplit(c: Config, s: System, l: Label, ls: seq<Label>)
    requires CanRun(c, s, [l] + ls)
    ensures Enabled(c, s, l) && CanRun(c, Next(c, s, l), ls)
    ensures Run(c, s, [l] + ls) == Run(c, Next(c, s, l), ls)
  {
    assert ([l] + ls)[0] == l && ([l] + ls)[1..] == ls;
  }

  /** So every interleaving of the two leads to the same state. */
  lemma {:induction false} ShufflesAgree(
    c: Config, s: System, ls: seq<Label>, ms: seq<Label>, bs: seq<Label>, w: nat)
    requires (forall l | l in ms :: IsLocked(l, w)) && (forall l | l in bs :: IsBeat(l, w))
    requires CanRun(c, s, ms + bs) && Shuffle(ls, ms, bs)
    ensures CanRun(c, s, ls) && Run(c, s, ls) == Run(c, s, ms + bs)
    decreases |ls|
  {
    if ls == [] {
      assert ms + bs == [];
    } else {
      var l, rest := ls[0], ls[1..];
      if ms != [] && l == ms[0] && Shuffle(rest, ms[1..], bs) {
        assert forall m | m in ms[1..] :: m in ms;
        assert ms == [l] + ms[1..];
        ConcatAssociates([l], ms[1..], bs);
        RunSplit(c, s, l, ms[1..] + bs);
        ShufflesAgree(c, Next(c, s, l), rest, ms[1..], bs, w);
      } else {
        assert l in bs && forall b | b in bs[1..] :: b in bs;
        assert [l] + bs[1..] == bs;
        BeatFirst(c, s, ms, l, bs[1..], w);
        ShufflesAgree(c, Next(c, s, l), rest, ms, bs[1..], w);
      }
      RunPrepend(c, s, l, rest);
      assert [l] + rest == ls;
    }
  }

  // ---- a whole execution -----------------------------------------------------

  /** The effect `Worker.Execute` promises, and the worker back in its loop or, cancelled, out of it. */
  predicate ExecutionEffect(c: Config, s: System, s': System, w: nat, t: Task, env: Env) {
    && s'.now == env.releaseAt && s'.handlers == s.handlers
    && s'.store == StoreAfter(s.store, c.maxRetries, t, env)
    && s'.queue == s.queue + Requeued(c.maxRetries, t, env)
    && s'.locks == LocksAfter(s.locks, t.project, s.nextToken, c.ttl, env)
    && s'.workers == s.workers[w := if Begins(t, env) && env.outcome.Cancelled? then Stopped else Idle]
  }

  /** The steps of an execution whose steps under the lock and beats are interleaved as `mixed`. */
  function ExecutionSteps(w: nat, mixed: seq<Label>): seq<Label> {
    [Acquire(w)] + mixed + [StopHeartbeat(w)] + [Release(w)]
  }

  lemma LockedThenBeats(c: Config, s: System, w: nat, env: Env) returns (beats: seq<Label>, s': System)
    requires 0.0 <= c.heartbeat && w in s.workers && s.workers[w].Locked? && OthersCalm(c, s, w, env.releaseAt)
    requires s.workers[w].hold.beating && s.now == s.workers[w].hold.refreshed
    requires Paced(c, s.locks, s.workers[w].hold, env.beats, env.releaseAt)
    ensures forall l | l in beats :: IsBeat(l, w)
    ensures var Locked(t, h) := s.workers[w];
            && Leads(c, s, LockedSteps(c.maxRetries, w, t, env) + beats, s')
            && s'.now == env.releaseAt && s'.handlers == s.handlers
            && s'.store == StoreAfter(s.store, c.maxRetries, t, env)
            && s'.queue == s.queue + Requeued(c.maxRetries, t, env)
            && s'.locks == Beaten(s.locks, h.project, h.token, c.ttl, env.beats)
            && w in s'.workers && s'.workers[w].Leaving?
            && s'.workers[w].hold.project == h.project && s'.workers[w].hold.token == h.token
            && (s'.workers[w].stop <==> Begins(t, env) && env.outcome.Cancelled?)
            && s'.workers == s.workers[w := s'.workers[w]]
  {
    var Locked(t, h) := s.workers[w];
    var steps := LockedSteps(c.maxRetries, w, t, env);
    RunLockedConforms(c, s, w, env);
    var s1 := Run(c, s, steps);
    CalmBefore(c, s, s1, w, env.releaseAt, env.releaseAt);
    beats, s' := BeatsConform(c, s, steps, s1, w, env.beats, env.releaseAt);
  }

  /**
   * A whole `Worker.Execute` with a well-paced heartbeat is a run of the protocol, and however
   * its steps and its beats are interleaved, the effect is the one `Execute` promises.
   */
  lemma ExecutionConforms(c: Config, s: System, w: nat, env: Env) returns (beats: seq<Label>, s': System)
    requires 0.0 <= c.heartbeat && w in s.workers && s.workers[w].Got? && OthersCalm(c, s, w, env.releaseAt)
    requires s.now == env.acquireAt && !Live(s.locks, s.workers[w].task.project, s.now)
    requires var p, token := s.workers[w].task.project, s.nextToken;
             Paced(c, Acquired(s.locks, p, token, c.ttl, s.now), Hold(p, token, s.now, true), env.beats, env.releaseAt)
    ensures ExecutionEffect(c, s, s', w, s.workers[w].task, env)
    ensures forall mixed | Shuffle(mixed, LockedSteps(c.maxRetries, w, s.workers[w].task, env), beats) ::
              Leads(c, s, ExecutionSteps(w, mixed), s')
  {
    var t := s.workers[w].task;
    var steps := LockedSteps(c.maxRetries, w, t, env);
    var s1 := AcquireStep(c, s, w);
    CalmBefore(c, s, s1, w, env.releaseAt, env.releaseAt);
    var s2;
    beats, s2 := LockedThenBeats(c, s1, w, env);
    s' := Left(s2, w);
    forall mixed | Shuffle(mixed, steps, beats)
      ensures Leads(c, s, ExecutionSteps(w, mixed), s')
    {
      ShufflesAgree(c, s1, mixed, steps, beats, w);
      RunPrepend(c, s, Acquire(w), mixed);
      var ms, u := DoLeave(c, s, [Acquire(w)] + mixed, s2, w);
    }
  }
}
