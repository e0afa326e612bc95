/**
 * Several subscribers on one channel. Each closes the channel after its terminal frame, for
 * the others too; each connected one sends what the channel then makes its due.
 */
module Broadcast {
  import opened Events

  /** A log entry: a worker's message, or the DONE a subscriber sends when it is finished. */
  datatype Entry = FromWorker(message: Message) | FromSubscriber(sub: nat)

  /**
   * A subscriber that joined at `join`, has read up to `pos` and sent the frames `got`. It is
   * `over` when it reads no more: it saw the end of the stream, or its client has `left`.
   */
  datatype Sub = Sub(join: nat, pos: nat, got: seq<Item>, over: bool, closing: bool, left: bool)

  datatype Channel = Channel(log: seq<Entry>, subs: map<nat, Sub>)

  const START: Channel := Channel([], map[])

  datatype Step = Post(message: Message) | Join(sub: nat) | Receive(sub: nat) | SendDone(sub: nat) | Leave(sub: nat)

  function MessageOf(e: Entry): Message {
    match e
    case FromWorker(m) => m
    case FromSubscriber(_) => Done
  }

  function Read(u: Sub, m: Message): Sub {
    var v := u.(pos := u.pos + 1);
    match m
    case Done => v.(over := true)
    case Garbled => v
    case Event(kind, text) =>
      var item := Item(kind, text);
      v.(got := u.got + [item], over := Terminal(item), closing := Terminal(item))
  }

  predicate Enabled(c: Channel, step: Step) {
    match step
    case Post(_) => true
    case Join(i) => i !in c.subs
    case Receive(i) => i in c.subs && !c.subs[i].over && c.subs[i].pos < |c.log|
    case SendDone(i) => i in c.subs && c.subs[i].closing
    case Leave(i) => i in c.subs
  }

  function Next(c: Channel, step: Step): Channel
    requires Enabled(c, step)
  {
    match step
    case Post(m) => c.(log := c.log + [FromWorker(m)])
    case Join(i) => c.(subs := c.subs[i := Sub(|c.log|, |c.log|, [], false, false, false)])
    case Receive(i) => c.(subs := c.subs[i := Read(c.subs[i], MessageOf(c.log[c.subs[i].pos]))])
    case SendDone(i) =>
      c.(log := c.log + [FromSubscriber(i)], subs := c.subs[i := c.subs[i].(closing := false)])
    case Leave(i) => c.(subs := c.subs[i := c.subs[i].(over := true, closing := false, left := true)])
  }

  predicate CanRun(c: Channel, steps: seq<Step>)
    decreases |steps|
  {
    steps == [] || (Enabled(c, steps[0]) && CanRun(Next(c, steps[0]), steps[1..]))
  }

  function Run(c: Channel, steps: seq<Step>): Channel
    requires CanRun(c, steps)
    decreases |steps|
  {
    if steps == [] then c else Run(Next(c, steps[0]), steps[1..])
  }

  // ---- what a subscriber gets ------------------------------------------------

  function Messages(log: seq<Entry>): (ms: seq<Message>)
    ensures |ms| == |log|
    ensures forall i | 0 <= i < |log| :: ms[i] == MessageOf(log[i])
  {
    seq(|log|, i requires 0 <= i < |log| => MessageOf(log[i]))
  }

  predicate IsTerminal(m: Message) {
    m.Event? && Terminal(Item(m.kind, m.text))
  }

  /** The frames a connected subscriber owes for this stretch of the log. */
  function Due(log: seq<Message>): seq<Item> {
    ThroughTerminal(BeforeDone(log))
  }

  /** Neither a DONE nor a terminal event. */
  predicate Open(log: seq<Message>) {
    forall i | 0 <= i < |log| :: !log[i].Done? && !IsTerminal(log[i])
  }

  lemma {:induction false} OpenEvents(log: seq<Message>, rest: seq<Message>)
    requires Open(log)
    ensures BeforeDone(log + rest) == BeforeDone(log) + BeforeDone(rest)
  {
    if log == [] {
      assert log + rest == rest;
    } else {
      assert !log[0].Done? && !IsTerminal(log[0]);
      OpenEvents(log[1..], rest);
      assert (log + rest)[1..] == log[1..] + rest && (log + rest)[0] == log[0];
    }
  }

  lemma {:induction false} OpenIsNotTerminal(log: seq<Message>)
    requires Open(log)
    ensures forall i | 0 <= i < |BeforeDone(log)| :: !Terminal(BeforeDone(log)[i])
  {
    if log != [] {
      assert !log[0].Done? && !IsTerminal(log[0]);
      OpenIsNotTerminal(log[1..]);
    }
  }

  lemma {:induction false} NoTerminalYet(items: seq<Item>, rest: seq<Item>)
    requires forall i | 0 <= i < |items| :: !Terminal(items[i])
    ensures ThroughTerminal(items + rest) == items + ThroughTerminal(rest)
  {
    if items == [] {
      assert items + rest == rest;
    } else {
      NoTerminalYet(items[1..], rest);
      assert (items + rest)[1..] == items[1..] + rest;
    }
  }

  lemma DueAfterOpen(log: seq<Message>, rest: seq<Message>)
    requires Open(log)
    ensures Due(log + rest) == Due(log) + Due(rest)
  {
    OpenEvents(log, rest);
    OpenIsNotTerminal(log);
    NoTerminalYet(BeforeDone(log), BeforeDone(rest));
    NoTerminalYet(BeforeDone(log), []);
    assert BeforeDone(log) + [] == BeforeDone(log);
  }

  lemma DueHead(log: seq<Message>)
    requires log != [] && !log[0].Done? && !IsTerminal(log[0])
    ensures Due(log) == (match log[0] case Event(kind, text) => [Item(kind, text)] case Garbled => []) + Due(log[1..])
  {
    if log[0].Event? {
      var item := Item(log[0].kind, log[0].text);
      assert BeforeDone(log) == [item] + BeforeDone(log[1..]);
      assert ([item] + BeforeDone(log[1..]))[1..] == BeforeDone(log[1..]);
    } else {
      assert BeforeDone(log) == BeforeDone(log[1..]);
    }
  }

  /** A stretch that ended the stream: all that comes later is not due. */
  predicate Ended(log: seq<Message>) {
    log != [] && Open(log[..|log| - 1]) && (log[|log| - 1].Done? || IsTerminal(log[|log| - 1]))
  }

  lemma NothingDueAfterEnd(log: seq<Message>, rest: seq<Message>)
    requires Ended(log)
    ensures Due(log + rest) == Due(log)
  {
    var before, m := log[..|log| - 1], log[|log| - 1];
    assert log == before + [m] && log + rest == before + ([m] + rest);
    DueAfterOpen(before, [m]);
    DueAfterOpen(before, [m] + rest);
    DueStops(m, rest);
  }

  lemma DueStops(m: Message, rest: seq<Message>)
    requires m.Done? || IsTerminal(m)
    ensures Due([m] + rest) == Due([m])
  {
    assert ([m] + rest)[0] == m && ([m] + rest)[1..] == rest;
    if IsTerminal(m) {
      var item := Item(m.kind, m.text);
      assert BeforeDone([m] + rest) == [item] + BeforeDone(rest);
      assert BeforeDone([m]) == [item] + BeforeDone([m][1..]);
    }
  }

  // ---- the invariant ---------------------------------------------------------

  /** A connected subscriber has sent what is due for what it read, and stops just at an end. */
  predicate SubOk(c: Channel, u: Sub) {
    && u.join <= u.pos <= |c.log|
    && (u.left ==> u.over)
    && (!u.left ==> Served(u, Messages(c.log[u.join..u.pos])))
    && (u.closing ==> exists k | u.join <= k < u.pos :: IsTerminal(MessageOf(c.log[k])))
  }

  predicate Served(u: Sub, log: seq<Message>) {
    u.got == Due(log) && if u.over then Ended(log) else Open(log)
  }

  predicate Inv(c: Channel) {
    forall i | i in c.subs :: SubOk(c, c.subs[i])
  }

  lemma SubOkExtends(c: Channel, c': Channel, u: Sub)
    requires SubOk(c, u) && c.log <= c'.log
    ensures SubOk(c', u)
  {
    assert c'.log[u.join..u.pos] == c.log[u.join..u.pos];
    if u.closing {
      var k :| u.join <= k < u.pos && IsTerminal(MessageOf(c.log[k]));
      assert IsTerminal(MessageOf(c'.log[k]));
    }
  }

  lemma DueOfOne(m: Message)
    ensures Due([m]) == match m case Event(kind, text) => [Item(kind, text)] case _ => []
  {
    assert [m][1..] == [];
    match m {
      case Event(kind, text) =>
        var item := Item(kind, text);
        assert BeforeDone([m]) == [item] + BeforeDone([m][1..]) == [item];
        assert [item][1..] == [] && ThroughTerminal([item]) == [item];
      case Garbled => assert BeforeDone([m]) == [] + BeforeDone([m][1..]) == [];
      case Done =>
    }
  }

  lemma ReadServes(u: Sub, log: seq<Message>, m: Message)
    requires !u.over && Served(u, log)
    ensures Served(Read(u, m), log + [m])
  {
    DueAfterOpen(log, [m]);
    DueOfOne(m);
    assert (log + [m])[..|log|] == log;
    assert u.got == Due(log);
  }

  lemma ReadKeepsSub(c: Channel, u: Sub)
    requires SubOk(c, u) && !u.over && u.pos < |c.log| && (u.left ==> u.over)
    ensures SubOk(c, Read(u, MessageOf(c.log[u.pos])))
  {
    var m := MessageOf(c.log[u.pos]);
    assert Messages(c.log[u.join..u.pos + 1]) == Messages(c.log[u.join..u.pos]) + [m];
    ReadServes(u, Messages(c.log[u.join..u.pos]), m);
  }

  lemma ReceiveKeeps(c: Channel, i: nat)
    requires Inv(c) && Enabled(c, Receive(i))
    ensures Inv(Next(c, Receive(i)))
  {
    var c' := Next(c, Receive(i));
    ReadKeepsSub(c, c.subs[i]);
    forall j | j in c'.subs
      ensures SubOk(c', c'.subs[j])
    {
      SubOkExtends(c, c', if j == i then c'.subs[i] else c.subs[j]);
    }
  }

  lemma SendDoneKeeps(c: Channel, i: nat)
    requires Inv(c) && Enabled(c, SendDone(i))
    ensures Inv(Next(c, SendDone(i)))
  {
    var c' := Next(c, SendDone(i));
    forall j | j in c'.subs
      ensures SubOk(c', c'.subs[j])
    {
      SubOkExtends(c, c', c.subs[j]);
    }
  }

  lemma PostKeeps(c: Channel, m: Message)
    requires Inv(c)
    ensures Inv(Next(c, Post(m)))
  {
    var c' := Next(c, Post(m));
    forall j | j in c'.subs
      ensures SubOk(c', c'.subs[j])
    {
      SubOkExtends(c, c', c.subs[j]);
    }
  }

  lemma StepKeeps(c: Channel, step: Step)
    requires Inv(c) && Enabled(c, step)
    ensures Inv(Next(c, step))
  {
    match step {
      case Post(m) => PostKeeps(c, m);
      case Join(i) => assert Messages(c.log[|c.log|..|c.log|]) == [];
      case Receive(i) => ReceiveKeeps(c, i);
      case SendDone(i) => SendDoneKeeps(c, i);
      case Leave(i) =>
    }
  }

  lemma {:induction false} RunKeeps(c: Channel, steps: seq<Step>)
    requires Inv(c) && CanRun(c, steps)
    ensures Inv(Run(c, steps))
    decreases |steps|
  {
    if steps != [] {
      StepKeeps(c, steps[0]);
      RunKeeps(Next(c, steps[0]), steps[1..]);
    }
  }

  // ---- delivery --------------------------------------------------------------

  /**
   * In every reachable state, a connected subscriber has sent exactly what is due for the part
   * of the log it read since it joined, and once it is over, what is due for the whole log
   * from there on.
   */
  lemma EachGetsItsDue(steps: seq<Step>, i: nat)
    requires CanRun(START, steps) && i in Run(START, steps).subs
    ensures var c := Run(START, steps);
            var u := c.subs[i];
            && u.join <= u.pos <= |c.log|
            && (!u.left ==> u.got == Due(Messages(c.log[u.join..u.pos])))
            && (!u.left && u.over ==> u.got == Due(Messages(c.log[u.join..])))
  {
    RunKeeps(START, steps);
    GetsItsDue(Run(START, steps), i);
  }

  lemma GetsItsDue(c: Channel, i: nat)
    requires Inv(c) && i in c.subs
    ensures var u := c.subs[i];
            && u.join <= u.pos <= |c.log|
            && (!u.left ==> u.got == Due(Messages(c.log[u.join..u.pos])))
            && (!u.left && u.over ==> u.got == Due(Messages(c.log[u.join..])))
  {
    var u := c.subs[i];
    assert SubOk(c, u);
    if !u.left && u.over {
      var read, rest := Messages(c.log[u.join..u.pos]), Messages(c.log[u.pos..]);
      assert Messages(c.log[u.join..]) == read + rest;
      NothingDueAfterEnd(read, rest);
    }
  }
}
