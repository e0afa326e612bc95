/**
 * What one attempt at a task means for those who watch it. Every attempt ends with DONE, a
 * retriable failure included, so a stream never outlives the attempt during which it began.
 */
module Attempts {
  import opened Tasks
  import opened Events
  import opened Broadcast
  import opened Truncation
  import opened Workers

  function Texts(posts: seq<Posted>): (ms: seq<Message>)
    ensures |ms| == |posts|
    ensures forall i | 0 <= i < |posts| :: ms[i] == posts[i].message
  {
    seq(|posts|, i requires 0 <= i < |posts| => posts[i].message)
  }

  /** The messages of one attempt at `t`. */
  function Spoken(maxRetries: int, t: Task, env: Env): seq<Message> {
    Texts(Said(maxRetries, t, env))
  }

  /** The events of one attempt: those of its stream, if it gets as far as streaming. */
  function EventsOf(t: Task, env: Env): (items: seq<Item>)
    ensures |items| == if Begins(t, env) then |env.progress| else 0
  {
    if Begins(t, env)
    then seq(|env.progress|, i requires 0 <= i < |env.progress| => Item(env.progress[i].0, env.progress[i].1))
    else []
  }

  function AsMessages(items: seq<Item>): (ms: seq<Message>)
    requires forall i | 0 <= i < |items| :: items[i].Item?
    ensures |ms| == |items|
    ensures forall i | 0 <= i < |items| :: ms[i] == Event(items[i].kind, items[i].text)
  {
    seq(|items|, i requires 0 <= i < |items| => Event(items[i].kind, items[i].text))
  }

  lemma {:induction false} BeforeTheDone(items: seq<Item>, rest: seq<Message>)
    requires forall i | 0 <= i < |items| :: items[i].Item?
    ensures BeforeDone(AsMessages(items) + ([Done] + rest)) == items
  {
    var log := AsMessages(items) + ([Done] + rest);
    if items == [] {
      assert log[0] == Done;
    } else {
      BeforeTheDone(items[1..], rest);
      assert log[0] == Event(items[0].kind, items[0].text);
      assert log[1..] == AsMessages(items[1..]) + ([Done] + rest);
    }
  }

  /** An attempt speaks its events, then DONE, then perhaps DONE again. */
  lemma SpokenIs(maxRetries: int, t: Task, env: Env, from: nat)
    requires from <= |EventsOf(t, env)|
    ensures from <= |Spoken(maxRetries, t, env)|
    ensures forall i | 0 <= i < |EventsOf(t, env)| :: EventsOf(t, env)[i].Item?
    ensures exists rest :: Spoken(maxRetries, t, env)[from..] == AsMessages(EventsOf(t, env)[from..]) + ([Done] + rest)
  {
    var n := |EventsOf(t, env)|;
    var spoken := Spoken(maxRetries, t, env);
    assert spoken[from..n] == AsMessages(EventsOf(t, env)[from..]);
    assert spoken[n..] == [Done] + spoken[n + 1..];
    assert spoken[from..] == spoken[from..n] + spoken[n..];
    assert spoken[from..] == AsMessages(EventsOf(t, env)[from..]) + ([Done] + spoken[n + 1..]);
  }

  /**
   * A subscriber that joins during an attempt, after its first `from` events, is due just the
   * rest of that attempt through its first terminal event, whatever is published afterwards.
   */
  lemma AttemptIsAll(maxRetries: int, t: Task, env: Env, from: nat, later: seq<Message>)
    requires from <= |EventsOf(t, env)|
    ensures from <= |Spoken(maxRetries, t, env)|
    ensures Due(Spoken(maxRetries, t, env)[from..] + later) == ThroughTerminal(EventsOf(t, env)[from..])
  {
    SpokenIs(maxRetries, t, env, from);
    var items := EventsOf(t, env)[from..];
    var rest :| Spoken(maxRetries, t, env)[from..] == AsMessages(items) + ([Done] + rest);
    assert AsMessages(items) + ([Done] + rest) + later == AsMessages(items) + ([Done] + (rest + later));
    BeforeTheDone(items, rest + later);
  }

  lemma {:induction false} EndsTerminalIff(items: seq<Item>)
    ensures EndsTerminal(ThroughTerminal(items)) <==> exists k | 0 <= k < |items| :: Terminal(items[k])
  {
    if items != [] {
      EndsTerminalIff(items[1..]);
      if !Terminal(items[0]) {
        var rest := ThroughTerminal(items[1..]);
        assert ThroughTerminal(items) == [items[0]] + rest;
        assert (exists k | 0 <= k < |items| :: Terminal(items[k]))
               <==> (exists k | 0 <= k < |items[1..]| :: Terminal(items[1..][k])) by {
          if k :| 0 <= k < |items| && Terminal(items[k]) {
            assert items[1..][k - 1] == items[k];
          }
        }
      }
    }
  }

  /** Some event of the attempt from number `from` on is terminal. */
  predicate SpeaksTerminal(t: Task, env: Env, from: nat)
    requires from <= |EventsOf(t, env)|
  {
    exists k | from <= k < |EventsOf(t, env)| :: Terminal(EventsOf(t, env)[k])
  }

  /** So it gets a terminal frame iff that very attempt publishes a terminal event after it joined. */
  lemma TerminalFrameIff(maxRetries: int, t: Task, env: Env, from: nat, later: seq<Message>)
    requires from <= |EventsOf(t, env)|
    ensures from <= |Spoken(maxRetries, t, env)|
    ensures EndsTerminal(Due(Spoken(maxRetries, t, env)[from..] + later)) <==> SpeaksTerminal(t, env, from)
  {
    var items := EventsOf(t, env);
    AttemptIsAll(maxRetries, t, env, from, later);
    EndsTerminalIff(items[from..]);
    if k :| from <= k < |items| && Terminal(items[k]) {
      assert items[from..][k - from] == items[k];
    }
  }

  /** Subscriber `i`, if it stayed connected and is over, has sent the rest of the attempt. */
  predicate EndsRight(c: Channel, i: nat, t: Task, env: Env, from: nat)
    requires i in c.subs && from <= |EventsOf(t, env)|
  {
    c.subs[i].over && !c.subs[i].left ==>
      && c.subs[i].got == ThroughTerminal(EventsOf(t, env)[from..])
      && (EndsTerminal(c.subs[i].got) <==> SpeaksTerminal(t, env, from))
  }

  /** What the workers say after `i` joins, `from` events into the attempt. */
  predicate Hears(c: Channel, i: nat, maxRetries: int, t: Task, env: Env, from: nat, later: seq<Message>) {
    && i in c.subs && c.subs[i].join <= |c.log| && from <= |Spoken(maxRetries, t, env)|
    && WorkersOnly(c.log[c.subs[i].join..]) == Spoken(maxRetries, t, env)[from..] + later
  }

  /** Whatever others do, and whatever is published later, the stream of `i` ends right. */
  ghost predicate AttemptIsSafe(c: Channel, i: nat, maxRetries: int, t: Task, env: Env, from: nat)
    requires i !in c.subs && from <= |EventsOf(t, env)|
  {
    forall steps, c', later | Leads(Next(c, Join(i)), steps, c') && Hears(c', i, maxRetries, t, env, from, later) ::
      EndsRight(c', i, t, env, from)
  }

  lemma SafeAttempt(before: seq<Step>, i: nat, maxRetries: int, t: Task, env: Env, from: nat)
    requires CanRun(START, before) && i !in Run(START, before).subs && from <= |EventsOf(t, env)|
    requires NothingOwed(Run(START, before))
    ensures AttemptIsSafe(Run(START, before), i, maxRetries, t, env, from)
  {
    var c := Run(START, before);
    SafeToJoinIff(before, i);
    forall steps, c', later | Leads(Next(c, Join(i)), steps, c') && Hears(c', i, maxRetries, t, env, from, later)
      ensures EndsRight(c', i, t, env, from)
    {
      AttemptIsAll(maxRetries, t, env, from, later);
      TerminalFrameIff(maxRetries, t, env, from, later);
    }
  }

  /** An owed DONE cuts the attempt off, if it has any event left. */
  lemma CutAttempt(before: seq<Step>, i: nat, maxRetries: int, t: Task, env: Env, from: nat)
    requires CanRun(START, before) && i !in Run(START, before).subs && from < |EventsOf(t, env)|
    requires !NothingOwed(Run(START, before))
    ensures !AttemptIsSafe(Run(START, before), i, maxRetries, t, env, from)
  {
    RunKeeps(START, before);
    AttemptIsAll(maxRetries, t, env, from, []);
    var steps, c' := OwedDoneCuts(Run(START, before), i, Spoken(maxRetries, t, env)[from..]);
    assert Hears(c', i, maxRetries, t, env, from, []);
    assert |ThroughTerminal(EventsOf(t, env)[from..])| > 0;
  }

  /**
   * On the channel, with any number of other subscribers: the stream of one that joins during an
   * attempt, and stays connected, ends with the rest of that attempt, and with a terminal frame
   * iff the attempt publishes a terminal event after it joined. That holds however things go on
   * iff no DONE is owed as it joins, or the attempt has no event left.
   */
  lemma StreamEndsWithAttempt(before: seq<Step>, i: nat, maxRetries: int, t: Task, env: Env, from: nat)
    requires CanRun(START, before) && i !in Run(START, before).subs && from <= |EventsOf(t, env)|
    ensures AttemptIsSafe(Run(START, before), i, maxRetries, t, env, from)
            <==> NothingOwed(Run(START, before)) || from == |EventsOf(t, env)|
  {
    var c := Run(START, before);
    if NothingOwed(c) {
      SafeAttempt(before, i, maxRetries, t, env, from);
    } else if from < |EventsOf(t, env)| {
      CutAttempt(before, i, maxRetries, t, env, from);
    } else {
      NothingLeftToSay(before, i, maxRetries, t, env);
    }
  }

  /** At the end of an attempt its DONE is next, so any stream that joins there stays empty. */
  lemma NothingLeftToSay(before: seq<Step>, i: nat, maxRetries: int, t: Task, env: Env)
    requires CanRun(START, before) && i !in Run(START, before).subs
    ensures AttemptIsSafe(Run(START, before), i, maxRetries, t, env, |EventsOf(t, env)|)
  {
    var c, n := Run(START, before), |EventsOf(t, env)|;
    RunKeeps(START, before);
    StepKeeps(c, Join(i));
    forall steps, c', later | Leads(Next(c, Join(i)), steps, c') && Hears(c', i, maxRetries, t, env, n, later)
      ensures EndsRight(c', i, t, env, n)
    {
      RunKeeps(Next(c, Join(i)), steps);
      GetsItsDue(c', i);
      SpokenIs(maxRetries, t, env, n);
      var log := c'.log[c'.subs[i].join..];
      assert WorkersOnly(log)[0] == Done;
      FirstIsDone(log);
    }
  }

  lemma FirstIsDone(log: seq<Entry>)
    requires WorkersOnly(log) != [] && WorkersOnly(log)[0] == Done
    ensures Due(Messages(log)) == []
  {
    assert Messages(log)[0] == Done;
  }

  /** Such a DONE is owed after a failed attempt, by one that has yet to send it. */
  lemma LateDoneCutsRetry(i: nat, maxRetries: int, t: Task, env: Env, from: nat)
    returns (before: seq<Step>)
    requires i != 0 && from < |EventsOf(t, env)|
    ensures CanRun(START, before) && i !in Run(START, before).subs
    ensures WorkersOnly(Run(START, before).log) == [Event(FAILURE, ""), Done]
    ensures !AttemptIsSafe(Run(START, before), i, maxRetries, t, env, from)
  {
    var c1 := Next(START, Join(0));
    var c2 := Next(c1, Post(Event(FAILURE, "")));
    var c3 := Next(c2, Post(Done));
    var c4 := Next(c3, Receive(0));
    Extend(START, [], START, Join(0));
    Extend(START, [] + [Join(0)], c1, Post(Event(FAILURE, "")));
    Extend(START, [] + [Join(0)] + [Post(Event(FAILURE, ""))], c2, Post(Done));
    Extend(START, [] + [Join(0)] + [Post(Event(FAILURE, ""))] + [Post(Done)], c3, Receive(0));
    before := [] + [Join(0)] + [Post(Event(FAILURE, ""))] + [Post(Done)] + [Receive(0)];
    assert c4.subs[0].closing && Owes(c4, c4.subs[0]);
    assert c4.log == [FromWorker(Event(FAILURE, "")), FromWorker(Done)];
    assert c4.log[1..] == [FromWorker(Done)] && c4.log[1..][1..] == [];
    assert WorkersOnly(c4.log[1..]) == [Done] + WorkersOnly(c4.log[1..][1..]);
    CutAttempt(before, i, maxRetries, t, env, from);
  }

  /**
   * A retry hides what it achieves: after a retriable failure without a terminal event, a
   * subscriber of the first attempt gets no terminal frame, though one of the second does.
   */
  lemma RetryHidesItsEnd(maxRetries: int, t: Task, env: Env, again: Env)
    requires Retries(maxRetries, t, env) && !SpeaksTerminal(t, env, 0)
    requires SpeaksTerminal(Workers.Ended(maxRetries, t, env), again, 0)
    ensures var u := Workers.Ended(maxRetries, t, env);
            && !EndsTerminal(Due(Spoken(maxRetries, t, env) + Spoken(maxRetries, u, again)))
            && EndsTerminal(Due(Spoken(maxRetries, u, again)))
  {
    var u := Workers.Ended(maxRetries, t, env);
    var first, second := Spoken(maxRetries, t, env), Spoken(maxRetries, u, again);
    TerminalFrameIff(maxRetries, t, env, 0, second);
    TerminalFrameIff(maxRetries, u, again, 0, []);
    assert first[0..] == first && second[0..] + [] == second;
  }
}
