/**
 * Server-sent events: the pub/sub channel, the subscriber loop with its keepalives, and the
 * frame generator of the stream endpoint.
 */
module Events {
  import opened Wrappers
  import opened Tasks

  /** A pub/sub message: an event, the `__DONE__` sentinel, or text the subscriber skips. */
  datatype Message = Event(kind: string, text: string) | Done | Garbled

  datatype Posted = Posted(id: TaskId, message: Message)

  /** Redis pub/sub, seen as the log of everything ever published. */
  class EventBus {
    var log: seq<Posted>

    constructor ()
      ensures log == []
    {
      log := [];
    }

    method Publish(id: TaskId, kind: string, text: string)
      modifies this
      ensures log == old(log) + [Posted(id, Event(kind, text))]
    {
      log := log + [Posted(id, Event(kind, text))];
    }

    method Close(id: TaskId)
      modifies this
      ensures log == old(log) + [Posted(id, Done)]
    {
      log := log + [Posted(id, Done)];
    }
  }

  // ---- the subscriber loop ---------------------------------------------------

  /** One poll of the channel, and the clock after it. */
  datatype Poll = Poll(now: real, got: Option<Message>)

  datatype Item = Keepalive | Item(kind: string, text: string)

  datatype Yielded = Yielded(at: real, item: Item)

  /** What the loop yields, when the previous yield (or the subscription) was at `last`. */
  function Yields(last: real, interval: real, polls: seq<Poll>): seq<Yielded>
    decreases |polls|
  {
    if polls == [] then []
    else
      var now := polls[0].now;
      match polls[0].got
      case None =>
        if now - last >= interval then [Yielded(now, Keepalive)] + Yields(now, interval, polls[1..])
        else Yields(last, interval, polls[1..])
      case Some(Garbled) => Yields(last, interval, polls[1..])
      case Some(Done) => []
      case Some(Event(kind, text)) => [Yielded(now, Item(kind, text))] + Yields(now, interval, polls[1..])
  }

  /** What the loop adds to its output at the poll `p`: an event at once, a keepalive when it is due. */
  function Answer(start: real, interval: real, out: seq<Yielded>, p: Poll): seq<Yielded> {
    var last := if out == [] then start else out[|out| - 1].at;
    match p.got
    case Some(Event(kind, text)) => [Yielded(p.now, Item(kind, text))]
    case None => if last + interval <= p.now then [Yielded(p.now, Keepalive)] else []
    case _ => []
  }

  /**
   * The output poll by poll: `outs[i]` is all that was yielded up to the poll number `i`. The loop
   * goes through the polls in order and ends with the first DONE.
   */
  predicate History(start: real, interval: real, polls: seq<Poll>, outs: seq<seq<Yielded>>) {
    && 0 < |outs| <= |polls| + 1 && outs[0] == []
    && (forall i | 0 <= i < |outs| - 1 :: outs[i + 1] == outs[i] + Answer(start, interval, outs[i], polls[i]))
    && (forall i | 0 <= i < |outs| - 2 :: polls[i].got != Some(Done))
    && (|outs| == |polls| + 1 || (|outs| > 1 && polls[|outs| - 2].got == Some(Done)))
  }

  lemma {:induction false} YieldsSnoc(start: real, interval: real, polls: seq<Poll>, p: Poll)
    requires forall i | 0 <= i < |polls| :: polls[i].got != Some(Done)
    ensures var out := Yields(start, interval, polls);
            Yields(start, interval, polls + [p]) == out + Answer(start, interval, out, p)
    decreases |polls|
  {
    if polls == [] {
      assert [p][1..] == [];
    } else {
      assert polls[0].got != Some(Done);
      var now := polls[0].now;
      var speaks := (polls[0].got.None? && now - start >= interval) || (polls[0].got.Some? && polls[0].got.value.Event?);
      YieldsSnoc(if speaks then now else start, interval, polls[1..], p);
      assert (polls + [p])[1..] == polls[1..] + [p];
    }
  }

  /** After the first DONE there is no more. */
  lemma {:induction false} YieldsStop(start: real, interval: real, polls: seq<Poll>, n: nat)
    requires n < |polls| && polls[n].got == Some(Done)
    ensures Yields(start, interval, polls) == Yields(start, interval, polls[..n + 1])
    decreases |polls|
  {
    var now := polls[0].now;
    assert polls[..n + 1][1..] == polls[1..][..n];
    if n > 0 && polls[0].got != Some(Done) {
      var speaks := (polls[0].got.None? && now - start >= interval) || (polls[0].got.Some? && polls[0].got.value.Event?);
      YieldsStop(if speaks then now else start, interval, polls[1..], n - 1);
    }
  }

  /** The polls up to the first DONE, that included. */
  lemma {:induction false} FirstDone(polls: seq<Poll>) returns (n: nat)
    ensures n <= |polls| && forall i | 0 <= i < n - 1 :: polls[i].got != Some(Done)
    ensures if n == 0 then polls == [] else n == |polls| || polls[n - 1].got == Some(Done)
  {
    if polls == [] {
      n := 0;
    } else if polls[0].got == Some(Done) {
      n := 1;
    } else {
      n := FirstDone(polls[1..]);
      n := n + 1;
      assert forall i | 0 < i < n - 1 :: polls[i] == polls[1..][i - 1];
    }
  }

  lemma YieldsHaveHistory(start: real, interval: real, polls: seq<Poll>) returns (outs: seq<seq<Yielded>>)
    ensures History(start, interval, polls, outs) && outs[|outs| - 1] == Yields(start, interval, polls)
  {
    var n := FirstDone(polls);
    outs := seq(n + 1, i requires 0 <= i <= n => Yields(start, interval, polls[..i]));
    forall i | 0 <= i < n
      ensures outs[i + 1] == outs[i] + Answer(start, interval, outs[i], polls[i])
    {
      YieldsSnoc(start, interval, polls[..i], polls[i]);
      assert polls[..i + 1] == polls[..i] + [polls[i]];
    }
    if n > 0 && polls[n - 1].got == Some(Done) {
      YieldsStop(start, interval, polls, n - 1);
    } else {
      assert polls[..n] == polls;
    }
  }

  method Subscribe(start: real, interval: real, polls: seq<Poll>) returns (out: seq<Yielded>)
    ensures out == Yields(start, interval, polls)
    ensures exists outs :: History(start, interval, polls, outs) && outs[|outs| - 1] == out
  {
    ghost var outs := YieldsHaveHistory(start, interval, polls);
    out := [];
    var lastYieldTime := start;
    var i := 0;
    while i < |polls|
      invariant 0 <= i <= |polls|
      invariant Yields(start, interval, polls) == out + Yields(lastYieldTime, interval, polls[i..])
    {
      var poll := polls[i];
      ghost var rest := polls[i..];
      assert rest[0] == poll && rest[1..] == polls[i + 1..];
      i := i + 1;
      match poll.got {
        case None =>
          if poll.now - lastYieldTime >= interval {
            lastYieldTime := poll.now;
            out := out + [Yielded(poll.now, Keepalive)];
          }
        case Some(Garbled) =>
        case Some(Done) => return;
        case Some(Event(kind, text)) =>
          lastYieldTime := poll.now;
          out := out + [Yielded(poll.now, Item(kind, text))];
      }
    }
  }

  // ---- delivery --------------------------------------------------------------

  /** The channel log as the polls saw it. */
  function Received(polls: seq<Poll>): seq<Message> {
    if polls == [] then []
    else (match polls[0].got case None => [] case Some(m) => [m]) + Received(polls[1..])
  }

  /** The events of a log before its first DONE. */
  function BeforeDone(log: seq<Message>): seq<Item> {
    if log == [] || log[0].Done? then []
    else (match log[0] case Event(kind, text) => [Item(kind, text)] case Garbled => []) + BeforeDone(log[1..])
  }

  function Items(out: seq<Yielded>): seq<Item> {
    if out == [] then [] else [out[0].item] + Items(out[1..])
  }

  function WithoutKeepalives(items: seq<Item>): seq<Item> {
    if items == [] then []
    else (if items[0].Keepalive? then [] else [items[0]]) + WithoutKeepalives(items[1..])
  }

  lemma {:induction false} SubscriberDelivers(last: real, interval: real, polls: seq<Poll>)
    ensures WithoutKeepalives(Items(Yields(last, interval, polls))) == BeforeDone(Received(polls))
    decreases |polls|
  {
    if polls != [] {
      var now := polls[0].now;
      var later := if (polls[0].got.None? && now - last < interval) || polls[0].got == Some(Garbled) then last else now;
      SubscriberDelivers(later, interval, polls[1..]);
      var rest := Yields(later, interval, polls[1..]);
      match polls[0].got {
        case None =>
          assert ([Yielded(now, Keepalive)] + rest)[1..] == rest;
          assert Received(polls) == Received(polls[1..]);
        case Some(Garbled) => assert Received(polls)[1..] == Received(polls[1..]);
        case Some(Done) =>
        case Some(Event(kind, text)) =>
          assert ([Yielded(now, Item(kind, text))] + rest)[1..] == rest;
          assert Received(polls)[1..] == Received(polls[1..]);
      }
    }
  }

  // ---- keepalives ------------------------------------------------------------

  /** The time of the yield before `k`, or of the subscription. */
  function Before(start: real, out: seq<Yielded>, k: nat): real
    requires k < |out|
  {
    if k == 0 then start else out[k - 1].at
  }

  /** No keepalive comes earlier than one interval after the previous yield. */
  lemma {:induction false} KeepalivesAreSpaced(start: real, interval: real, polls: seq<Poll>, k: nat)
    requires k < |Yields(start, interval, polls)|
    ensures var out := Yields(start, interval, polls);
            out[k].item.Keepalive? ==> out[k].at - Before(start, out, k) >= interval
    decreases |polls|
  {
    var now := polls[0].now;
    match polls[0].got {
      case None =>
        if now - start >= interval {
          if k > 0 {
            KeepalivesAreSpaced(now, interval, polls[1..], k - 1);
          }
        } else {
          KeepalivesAreSpaced(start, interval, polls[1..], k);
        }
      case Some(Garbled) => KeepalivesAreSpaced(start, interval, polls[1..], k);
      case Some(Event(_, _)) =>
        if k > 0 {
          KeepalivesAreSpaced(now, interval, polls[1..], k - 1);
        }
    }
  }

  /** Empty polls that each take at most `p`. */
  predicate QuietWithin(from: real, p: real, polls: seq<Poll>)
    decreases |polls|
  {
    polls != [] ==> polls[0].got.None? && polls[0].now <= from + p && QuietWithin(polls[0].now, p, polls[1..])
  }

  /**
   * While the channel is quiet, yields come at most interval + `p` apart: the loop last looked
   * at `from`, less than one interval after the previous yield at `last`.
   */
  lemma {:induction false} KeepalivesAreDue(
    last: real, from: real, interval: real, p: real, polls: seq<Poll>, k: nat)
    requires 0.0 < interval && from - last < interval && QuietWithin(from, p, polls)
    requires k < |Yields(last, interval, polls)|
    ensures var out := Yields(last, interval, polls);
            out[k].item.Keepalive? && out[k].at - Before(last, out, k) < interval + p
    decreases |polls|
  {
    var now := polls[0].now;
    if now - last >= interval {
      if k > 0 {
        KeepalivesAreDue(now, now, interval, p, polls[1..], k - 1);
      }
    } else {
      KeepalivesAreDue(last, now, interval, p, polls[1..], k);
    }
  }

  /** And the loop never goes quiet: after an empty poll less than one interval has passed since a yield. */
  lemma {:induction false} NeverSilent(start: real, interval: real, polls: seq<Poll>)
    requires 0.0 < interval && polls != [] && polls[|polls| - 1].got == None
    requires forall i | 0 <= i < |polls| :: polls[i].got != Some(Done)
    ensures polls[|polls| - 1].now - LastYield(start, Yields(start, interval, polls)) < interval
    decreases |polls|
  {
    var now := polls[0].now;
    assert polls[0].got != Some(Done);
    var later := if (polls[0].got.None? && now - start < interval) || polls[0].got == Some(Garbled) then start else now;
    var rest := Yields(later, interval, polls[1..]);
    if |polls| > 1 {
      NeverSilent(later, interval, polls[1..]);
      assert LastYield(start, Yields(start, interval, polls)) == LastYield(later, rest);
    }
  }

  /** The time of the last yield, or of the subscription. */
  function LastYield(start: real, out: seq<Yielded>): real {
    if out == [] then start else out[|out| - 1].at
  }

  // ---- the stream endpoint ---------------------------------------------------

  const COMPLETE := "workflow_complete"
  const FAILURE := "workflow_failed"

  predicate Terminal(item: Item) {
    item.Item? && (item.kind == COMPLETE || item.kind == FAILURE)
  }

  /** The items through the first terminal one. */
  function ThroughTerminal(items: seq<Item>): seq<Item> {
    if items == [] then []
    else if Terminal(items[0]) then [items[0]]
    else [items[0]] + ThroughTerminal(items[1..])
  }

  /** The frames sent when the client is seen to have left before item number `connected`. */
  function Frames(items: seq<Item>, connected: nat): seq<Item> {
    if items == [] || connected == 0 then []
    else if Terminal(items[0]) then [items[0]]
    else [items[0]] + Frames(items[1..], connected - 1)
  }

  predicate EndsTerminal(frames: seq<Item>) {
    frames != [] && Terminal(frames[|frames| - 1])
  }

  predicate IsFinal(item: Item) {
    item.Item? && item.kind in {"workflow_complete", "workflow_failed"}
  }

  /** The frames are the items, in order, until the client has left or a final one was sent. */
  predicate Sends(items: seq<Item>, connected: nat, frames: seq<Item>) {
    && |frames| <= |items| && |frames| <= connected
    && (forall k | 0 <= k < |frames| :: frames[k] == items[k])
    && (forall k | 0 <= k < |frames| - 1 :: !IsFinal(frames[k]))
    && (|frames| == |items| || |frames| == connected || (|frames| > 0 && IsFinal(frames[|frames| - 1])))
  }

  lemma {:induction false} FramesSend(items: seq<Item>, connected: nat)
    ensures Sends(items, connected, Frames(items, connected))
    decreases |items|
  {
    if items != [] && connected > 0 {
      FramesSend(items[1..], connected - 1);
    }
  }

  lemma FramesFrom(items: seq<Item>, connected: nat, i: nat, frames: seq<Item>)
    requires i < |items| && i < connected
    ensures frames + Frames(items[i..], connected - i)
            == frames + [items[i]]
               + if Terminal(items[i]) then [] else Frames(items[i + 1..], connected - (i + 1))
    ensures EndsTerminal(frames + [items[i]]) <==> Terminal(items[i])
  {
    var rest := items[i..];
    assert rest[0] == items[i] && rest[1..] == items[i + 1..];
  }

  lemma FinalIsTerminal(frames: seq<Item>)
    ensures EndsTerminal(frames) <==> frames != [] && IsFinal(frames[|frames| - 1])
  {}

  /** The frame loop. It closes the channel exactly when it ends on a terminal frame. */
  method EventGenerator(bus: EventBus, id: TaskId, items: seq<Item>, connected: nat) returns (frames: seq<Item>)
    modifies bus
    ensures frames == Frames(items, connected) && Sends(items, connected, frames)
    ensures bus.log == old(bus.log) + if EndsTerminal(frames) then [Posted(id, Done)] else []
    ensures bus.log == old(bus.log) + if frames != [] && IsFinal(frames[|frames| - 1]) then [Posted(id, Done)] else []
  {
    frames := [];
    var i, streaming := 0, true;
    while streaming && i < |items|
      invariant 0 <= i <= |items| && (streaming ==> i <= connected)
      invariant Frames(items, connected) == frames + if streaming then Frames(items[i..], connected - i) else []
      invariant streaming ==> !EndsTerminal(frames) && bus.log == old(bus.log)
      invariant !streaming ==> bus.log == old(bus.log) + if EndsTerminal(frames) then [Posted(id, Done)] else []
      decreases |items| - i, streaming
    {
      if i == connected {
        streaming := false;
      } else {
        FramesFrom(items, connected, i, frames);
        frames := frames + [items[i]];
        if items[i].Item? && (items[i].kind == COMPLETE || items[i].kind == FAILURE) {
          bus.Close(id);
          streaming := false;
        }
        i := i + 1;
      }
    }
    FramesSend(items, connected);
    FinalIsTerminal(frames);
  }

  lemma {:induction false} FramesAreACut(items: seq<Item>, connected: nat)
    ensures Frames(items, connected) == ThroughTerminal(if connected < |items| then items[..connected] else items)
    decreases |items|
  {
    if items != [] && connected > 0 {
      FramesAreACut(items[1..], connected - 1);
      if connected < |items| {
        assert items[..connected][1..] == items[1..][..connected - 1];
      }
    }
  }

  /** Only the last frame can be terminal. */
  lemma {:induction false} TerminalIsUniqueAndLast(items: seq<Item>, k: nat)
    requires k < |ThroughTerminal(items)|
    ensures Terminal(ThroughTerminal(items)[k]) ==> k == |ThroughTerminal(items)| - 1
  {
    if k > 0 {
      TerminalIsUniqueAndLast(items[1..], k - 1);
    }
  }

  lemma WithoutKeepalivesOf(item: Item, rest: seq<Item>)
    ensures WithoutKeepalives([item] + rest) == (if item.Keepalive? then [] else [item]) + WithoutKeepalives(rest)
  {
    assert ([item] + rest)[0] == item && ([item] + rest)[1..] == rest;
  }

  lemma ThroughTerminalOf(item: Item, rest: seq<Item>)
    ensures ThroughTerminal([item] + rest) == [item] + if Terminal(item) then [] else ThroughTerminal(rest)
  {
    assert ([item] + rest)[0] == item && ([item] + rest)[1..] == rest;
  }

  lemma {:induction false} CutCommutes(items: seq<Item>)
    ensures WithoutKeepalives(ThroughTerminal(items)) == ThroughTerminal(WithoutKeepalives(items))
  {
    if items != [] {
      var item, rest := items[0], items[1..];
      CutCommutes(rest);
      assert items == [item] + rest;
      ThroughTerminalOf(item, rest);
      WithoutKeepalivesOf(item, rest);
      WithoutKeepalivesOf(item, if Terminal(item) then [] else ThroughTerminal(rest));
      if item.Keepalive? {
        assert [] + WithoutKeepalives(rest) == WithoutKeepalives(rest);
        assert [] + WithoutKeepalives(ThroughTerminal(rest)) == WithoutKeepalives(ThroughTerminal(rest));
      } else {
        ThroughTerminalOf(item, WithoutKeepalives(rest));
      }
    }
  }

  /**
   * SSE delivery: with keepalives erased, a connected subscriber gets exactly the channel log
   * from its join point, through the first terminal event or up to the first DONE.
   */
  lemma StreamDelivers(start: real, interval: real, polls: seq<Poll>, connected: nat)
    requires connected >= |Items(Yields(start, interval, polls))|
    ensures WithoutKeepalives(Frames(Items(Yields(start, interval, polls)), connected))
            == ThroughTerminal(BeforeDone(Received(polls)))
  {
    FramesAreACut(Items(Yields(start, interval, polls)), connected);
    CutCommutes(Items(Yields(start, interval, polls)));
    SubscriberDelivers(start, interval, polls);
  }
}
