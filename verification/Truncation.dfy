/**
 * A subscriber that has sent a terminal frame closes the channel, and its DONE may come late: it
 * then cuts off one that joined in between, during a retry say. This is exactly when.
 */
module Truncation {
  import opened Events
  import opened Broadcast

  // ---- what the workers say --------------------------------------------------

  /** The log as it would be if subscribers never sent a DONE. */
  function WorkersOnly(log: seq<Entry>): seq<Message> {
    if log == [] then []
    else (if log[0].FromWorker? then [log[0].message] else []) + WorkersOnly(log[1..])
  }

  /** No subscriber's DONE in this stretch comes before its first terminal event. */
  predicate DonesFollowIn(log: seq<Entry>) {
    log == [] || (log[0].FromWorker? && (IsTerminal(log[0].message) || DonesFollowIn(log[1..])))
  }

  lemma {:induction false} DonesAreLate(log: seq<Entry>)
    requires DonesFollowIn(log)
    ensures Due(Messages(log)) == Due(WorkersOnly(log))
  {
    if log != [] {
      var m, ms := log[0].message, WorkersOnly(log[1..]);
      assert Messages(log) == [m] + Messages(log[1..]);
      assert WorkersOnly(log) == [m] + ms;
      if m.Done? || IsTerminal(m) {
        DueStops(m, Messages(log[1..]));
        DueStops(m, ms);
      } else {
        DonesAreLate(log[1..]);
        assert Messages(log)[1..] == Messages(log[1..]) && WorkersOnly(log)[1..] == ms;
        DueHead(Messages(log));
        DueHead(WorkersOnly(log));
      }
    }
  }

  // ---- owed DONEs ------------------------------------------------------------

  /** The subscriber is going to send a DONE for what is on the channel already, if it stays. */
  predicate Owes(c: Channel, u: Sub) {
    u.closing || (!u.over && u.pos <= |c.log| && EndsTerminal(Due(Messages(c.log[u.pos..]))))
  }

  predicate NothingOwed(c: Channel) {
    forall j | j in c.subs :: !Owes(c, c.subs[j])
  }

  /** A DONE the subscriber has in mind answers a terminal event from `from` on. */
  predicate Clear(c: Channel, from: nat, u: Sub) {
    && (u.closing ==> exists k | from <= k < |c.log| :: IsTerminal(MessageOf(c.log[k])))
    && (!u.over && u.pos < from <= |c.log| ==> !EndsTerminal(Due(Messages(c.log[u.pos..from]))))
  }

  /** Every DONE of a subscriber from `from` on, sent or in mind, answers a terminal event from there on. */
  predicate ClearFrom(c: Channel, from: nat) {
    && from <= |c.log|
    && (forall d | from <= d < |c.log| && c.log[d].FromSubscriber? ::
          exists k | from <= k < d :: IsTerminal(MessageOf(c.log[k])))
    && (forall j | j in c.subs :: c.subs[j].pos <= |c.log| && Clear(c, from, c.subs[j]))
  }

  lemma JoinIsClear(c: Channel, i: nat)
    requires Inv(c) && NothingOwed(c) && i !in c.subs
    ensures ClearFrom(Next(c, Join(i)), |c.log|)
  {
    var c' := Next(c, Join(i));
    forall j | j in c'.subs
      ensures c'.subs[j].pos <= |c'.log| && Clear(c', |c.log|, c'.subs[j])
    {
      if j != i {
        assert SubOk(c, c.subs[j]) && !Owes(c, c.subs[j]);
        assert c.log[c.subs[j].pos..|c.log|] == c.log[c.subs[j].pos..];
      }
    }
  }

  lemma ClearExtends(c: Channel, c': Channel, from: nat, u: Sub)
    requires Clear(c, from, u) && from <= |c.log| && c.log <= c'.log
    ensures Clear(c', from, u)
  {
    if u.closing {
      var k :| from <= k < |c.log| && IsTerminal(MessageOf(c.log[k]));
      assert IsTerminal(MessageOf(c'.log[k]));
    }
    if u.pos < from {
      assert c'.log[u.pos..from] == c.log[u.pos..from];
    }
  }

  lemma SentExtends(c: Channel, c': Channel, from: nat)
    requires ClearFrom(c, from) && c.log <= c'.log
    ensures forall d | from <= d < |c.log| && c'.log[d].FromSubscriber? ::
              exists k | from <= k < d :: IsTerminal(MessageOf(c'.log[k]))
  {
    forall d | from <= d < |c.log| && c'.log[d].FromSubscriber?
      ensures exists k | from <= k < d :: IsTerminal(MessageOf(c'.log[k]))
    {
      var k :| from <= k < d && IsTerminal(MessageOf(c.log[k]));
      assert IsTerminal(MessageOf(c'.log[k]));
    }
  }

  /** What ends terminally after one more message, ended terminally with it. */
  lemma EndsLater(log: seq<Message>)
    requires log != [] && !log[0].Done? && !IsTerminal(log[0]) && EndsTerminal(Due(log[1..]))
    ensures EndsTerminal(Due(log))
  {
    DueHead(log);
  }

  lemma EndsNow(m: Message, rest: seq<Message>)
    requires IsTerminal(m)
    ensures EndsTerminal(Due([m] + rest))
  {
    DueStops(m, rest);
    DueOfOne(m);
  }

  lemma ReadIsClear(c: Channel, from: nat, u: Sub)
    requires Clear(c, from, u) && !u.over && u.pos < |c.log| && from <= |c.log|
    ensures Clear(c, from, Read(u, MessageOf(c.log[u.pos])))
  {
    var m := MessageOf(c.log[u.pos]);
    if u.pos < from {
      var ahead := Messages(c.log[u.pos..from]);
      assert ahead == [m] + Messages(c.log[u.pos + 1..from]);
      if IsTerminal(m) {
        EndsNow(m, Messages(c.log[u.pos + 1..from]));
      } else if !m.Done? && EndsTerminal(Due(Messages(c.log[u.pos + 1..from]))) {
        assert ahead[1..] == Messages(c.log[u.pos + 1..from]);
        EndsLater(ahead);
      }
    }
  }

  lemma ClearReceive(c: Channel, from: nat, i: nat)
    requires ClearFrom(c, from) && Enabled(c, Receive(i))
    ensures ClearFrom(Next(c, Receive(i)), from)
  {
    var c' := Next(c, Receive(i));
    ReadIsClear(c, from, c.subs[i]);
    SentExtends(c, c', from);
    forall j | j in c'.subs
      ensures Clear(c', from, c'.subs[j])
    {
      ClearExtends(c, c', from, c'.subs[j]);
    }
  }

  lemma ClearSend(c: Channel, from: nat, i: nat)
    requires ClearFrom(c, from) && Enabled(c, SendDone(i))
    ensures ClearFrom(Next(c, SendDone(i)), from)
  {
    var c' := Next(c, SendDone(i));
    SentExtends(c, c', from);
    var k :| from <= k < |c.log| && IsTerminal(MessageOf(c.log[k]));
    assert IsTerminal(MessageOf(c'.log[k]));
    forall j | j in c'.subs
      ensures Clear(c', from, c'.subs[j])
    {
      ClearExtends(c, c', from, if j == i then c.subs[i].(closing := false) else c.subs[j]);
    }
  }

  lemma ClearOther(c: Channel, from: nat, step: Step)
    requires ClearFrom(c, from) && Enabled(c, step) && !step.Receive? && !step.SendDone?
    ensures ClearFrom(Next(c, step), from)
  {
    var c' := Next(c, step);
    SentExtends(c, c', from);
    forall j | j in c'.subs
      ensures c'.subs[j].pos <= |c'.log| && Clear(c', from, c'.subs[j])
    {
      ClearExtends(c, c', from, if j in c.subs then c'.subs[j] else Sub(|c.log|, |c.log|, [], false, false, false));
    }
  }

  lemma ClearStep(c: Channel, from: nat, step: Step)
    requires ClearFrom(c, from) && Enabled(c, step)
    ensures ClearFrom(Next(c, step), from)
  {
    match step {
      case Receive(i) => ClearReceive(c, from, i);
      case SendDone(i) => ClearSend(c, from, i);
      case _ => ClearOther(c, from, step);
    }
  }

  /** Subscriber `i` joined at `from`. */
  predicate JoinedAt(c: Channel, i: nat, from: nat) {
    i in c.subs && c.subs[i].join == from
  }

  lemma {:induction false} ClearRun(c: Channel, from: nat, steps: seq<Step>, i: nat)
    requires Inv(c) && ClearFrom(c, from) && JoinedAt(c, i, from) && CanRun(c, steps)
    ensures var c' := Run(c, steps);
            Inv(c') && ClearFrom(c', from) && JoinedAt(c', i, from)
    decreases |steps|
  {
    if steps != [] {
      ClearStep(c, from, steps[0]);
      StepKeeps(c, steps[0]);
      ClearRun(Next(c, steps[0]), from, steps[1..], i);
    }
  }

  lemma {:induction false} TailDonesFollow(c: Channel, from: nat, at: nat)
    requires ClearFrom(c, from) && from <= at <= |c.log|
    requires forall k | from <= k < at :: !IsTerminal(MessageOf(c.log[k]))
    ensures DonesFollowIn(c.log[at..])
    decreases |c.log| - at
  {
    if at < |c.log| && !IsTerminal(MessageOf(c.log[at])) {
      TailDonesFollow(c, from, at + 1);
      assert c.log[at..][1..] == c.log[at + 1..];
    }
  }

  /** The DONEs of subscribers make no difference to what is due from `from` on. */
  predicate Uncut(c: Channel, from: nat)
    requires from <= |c.log|
  {
    Due(Messages(c.log[from..])) == Due(WorkersOnly(c.log[from..]))
  }

  /**
   * No DONE of another subscriber truncates one that joined when no DONE was owed: in every
   * continuation it is due exactly what the workers alone say.
   */
  lemma DoneNeverTruncates(c: Channel, i: nat, steps: seq<Step>)
    requires Inv(c) && i !in c.subs && NothingOwed(c) && CanRun(Next(c, Join(i)), steps)
    ensures var c' := Run(Next(c, Join(i)), steps);
            Inv(c') && JoinedAt(c', i, |c.log|) && |c.log| <= |c'.log| && Uncut(c', |c.log|)
  {
    JoinIsClear(c, i);
    StepKeeps(c, Join(i));
    ClearRun(Next(c, Join(i)), |c.log|, steps, i);
    var c' := Run(Next(c, Join(i)), steps);
    TailDonesFollow(c', |c.log|, |c.log|);
    DonesAreLate(c'.log[|c.log|..]);
  }

  /** One that joins before any terminal event finds nothing owed. */
  lemma InTimeMeansNothingOwed(c: Channel)
    requires Inv(c) && forall k | 0 <= k < |c.log| :: !IsTerminal(MessageOf(c.log[k]))
    ensures NothingOwed(c)
  {
    forall j | j in c.subs
      ensures !Owes(c, c.subs[j])
    {
      assert SubOk(c, c.subs[j]);
      NoTerminalDue(Messages(c.log[c.subs[j].pos..]));
    }
  }

  lemma {:induction false} NoTerminalDue(log: seq<Message>)
    requires forall k | 0 <= k < |log| :: !IsTerminal(log[k])
    ensures !EndsTerminal(Due(log))
  {
    if log != [] && !log[0].Done? {
      DueHead(log);
      NoTerminalDue(log[1..]);
    }
  }

  // ---- an owed DONE cuts -----------------------------------------------------

  ghost predicate Leads(c: Channel, steps: seq<Step>, c': Channel) {
    CanRun(c, steps) && Run(c, steps) == c'
  }

  lemma {:induction false} Extend(c: Channel, steps: seq<Step>, c': Channel, step: Step)
    requires Leads(c, steps, c') && Enabled(c', step)
    ensures Leads(c, steps + [step], Next(c', step))
    decreases |steps|
  {
    if steps == [] {
      assert [step][1..] == [];
    } else {
      Extend(Next(c, steps[0]), steps[1..], c', step);
      assert (steps + [step])[1..] == steps[1..] + [step];
    }
  }

  /** A subscriber that owes a DONE reads on until it is about to send it. */
  lemma {:induction false} ReadToTheEnd(c0: Channel, pre: seq<Step>, c: Channel, j: nat)
    returns (steps: seq<Step>, c': Channel)
    requires Leads(c0, pre, c) && j in c.subs && Owes(c, c.subs[j])
    ensures Leads(c0, steps, c') && c'.log == c.log && j in c'.subs && c'.subs[j].closing
    ensures forall i | i in c.subs && i != j :: i in c'.subs && c'.subs[i] == c.subs[i]
    decreases |c.log| - c.subs[j].pos
  {
    steps, c' := pre, c;
    var u := c.subs[j];
    if !u.closing {
      var ahead := Messages(c.log[u.pos..]);
      StillOwed(ahead);
      assert ahead[1..] == Messages(c.log[u.pos + 1..]);
      Extend(c0, pre, c, Receive(j));
      steps, c' := ReadToTheEnd(c0, pre + [Receive(j)], Next(c, Receive(j)), j);
    }
  }

  lemma LastOfMore(item: Item, rest: seq<Item>)
    requires EndsTerminal([item] + rest) && !Terminal(item)
    ensures EndsTerminal(rest)
  {}

  lemma StillOwed(log: seq<Message>)
    requires EndsTerminal(Due(log))
    ensures log != [] && !log[0].Done? && (IsTerminal(log[0]) || EndsTerminal(Due(log[1..])))
  {
    if !log[0].Done? && !IsTerminal(log[0]) {
      DueHead(log);
      var rest := Due(log[1..]);
      if log[0].Event? {
        var item := Item(log[0].kind, log[0].text);
        assert Due(log) == [item] + rest;
        LastOfMore(item, rest);
      } else {
        assert Due(log) == rest;
      }
    }
  }

  lemma {:induction false} PostAll(c0: Channel, pre: seq<Step>, c: Channel, said: seq<Message>)
    returns (steps: seq<Step>, c': Channel)
    requires Leads(c0, pre, c)
    ensures Leads(c0, steps, c') && c'.subs == c.subs && c.log <= c'.log
    ensures WorkersOnly(c'.log[|c.log|..]) == said
    decreases |said|
  {
    steps, c' := pre, c;
    if said == [] {
      assert c'.log[|c.log|..] == [];
    } else {
      var step := Post(said[0]);
      Extend(c0, pre, c, step);
      steps, c' := PostAll(c0, pre + [step], Next(c, step), said[1..]);
      assert c'.log[|c.log|..] == [FromWorker(said[0])] + c'.log[|c.log| + 1..];
      assert c'.log[|c.log|..][1..] == c'.log[|c.log| + 1..];
    }
  }

  /** The DONE that is owed at the join is the first that the new subscriber gets. */
  lemma CutOff(c: Channel, i: nat) returns (steps: seq<Step>, c': Channel)
    requires i !in c.subs && !NothingOwed(c)
    ensures Leads(Next(c, Join(i)), steps, c') && JoinedAt(c', i, |c.log|)
    ensures |c'.log| == |c.log| + 1 && c'.log[|c.log|].FromSubscriber?
    ensures c'.subs[i].got == [] && c'.subs[i].over && !c'.subs[i].left
  {
    var j :| j in c.subs && Owes(c, c.subs[j]);
    var c0 := Next(c, Join(i));
    steps, c' := ReadToTheEnd(c0, [], c0, j);
    Extend(c0, steps, c', SendDone(j));
    steps, c' := steps + [SendDone(j)], Next(c', SendDone(j));
    Extend(c0, steps, c', Receive(i));
    steps, c' := steps + [Receive(i)], Next(c', Receive(i));
  }

  /**
   * If a DONE is owed at the join, then whatever the workers go on to say, in some continuation
   * the new subscriber stays connected, gets nothing of it, and is over.
   */
  lemma OwedDoneCuts(c: Channel, i: nat, said: seq<Message>) returns (steps: seq<Step>, c': Channel)
    requires i !in c.subs && !NothingOwed(c)
    ensures Leads(Next(c, Join(i)), steps, c') && JoinedAt(c', i, |c.log|) && |c.log| <= |c'.log|
    ensures WorkersOnly(c'.log[|c.log|..]) == said
    ensures c'.subs[i].got == [] && c'.subs[i].over && !c'.subs[i].left
  {
    var cut;
    steps, cut := CutOff(c, i);
    steps, c' := PostAll(Next(c, Join(i)), steps, cut, said);
    var log := c'.log[|c.log|..];
    assert log[0] == cut.log[|c.log|] && log[1..] == c'.log[|cut.log|..];
  }

  /** Once over, a connected subscriber has sent what is due of what the workers said since it joined. */
  predicate ServedByWorkers(c: Channel, i: nat)
    requires i in c.subs && c.subs[i].join <= |c.log|
  {
    c.subs[i].over && !c.subs[i].left ==> c.subs[i].got == Due(WorkersOnly(c.log[c.subs[i].join..]))
  }

  /** A subscriber that joins now is served right, however things go on. */
  ghost predicate SafeToJoin(c: Channel, i: nat)
    requires i !in c.subs
  {
    forall steps, c' | Leads(Next(c, Join(i)), steps, c') ::
      JoinedAt(c', i, |c.log|) && |c.log| <= |c'.log| && ServedByWorkers(c', i)
  }

  /** Exactly when a subscriber is safe from the DONEs of others: when none is owed as it joins. */
  lemma SafeToJoinIff(before: seq<Step>, i: nat)
    requires CanRun(START, before) && i !in Run(START, before).subs
    ensures SafeToJoin(Run(START, before), i) <==> NothingOwed(Run(START, before))
  {
    RunKeeps(START, before);
    var c := Run(START, before);
    if NothingOwed(c) {
      forall steps, c' | Leads(Next(c, Join(i)), steps, c')
        ensures JoinedAt(c', i, |c.log|) && |c.log| <= |c'.log| && ServedByWorkers(c', i)
      {
        DoneNeverTruncates(c, i, steps);
        GetsItsDue(c', i);
      }
    } else {
      var m := Event(COMPLETE, "");
      var steps, c' := OwedDoneCuts(c, i, [m]);
      DueOfOne(m);
      assert !ServedByWorkers(c', i);
    }
  }
}
