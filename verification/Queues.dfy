/** The FIFO of task snapshots: a Redis list pushed on the left and popped on the right. */
module Queues {
  import opened Wrappers
  import opened Tasks

  /** The queue in service order, given the Redis list (head first). */
  function InOrder(list: seq<Task>): (q: seq<Task>)
    ensures |q| == |list|
    ensures forall i | 0 <= i < |q| :: q[i] == list[|list| - 1 - i]
  {
    if list == [] then [] else InOrder(list[1..]) + [list[0]]
  }

  lemma {:induction false} PopIsHead(list: seq<Task>)
    requires list != []
    ensures var n := |list| - 1;
            InOrder(list)[0] == list[n] && InOrder(list)[1..] == InOrder(list[..n])
  {
    var n := |list| - 1;
    if n > 0 {
      PopIsHead(list[1..]);
      assert list[..n][1..] == list[1..][..n - 1];
    }
  }

  /** The Redis queue refines the in-memory FIFO: enqueue appends, dequeue takes the first. */
  class TaskQueue {
    var list: seq<Task>

    constructor ()
      ensures Contents() == []
    {
      list := [];
    }

    function Contents(): seq<Task>
      reads this
    {
      InOrder(list)
    }

    method Enqueue(payload: Task)
      modifies this
      ensures Contents() == old(Contents()) + [payload]
    {
      list := [payload] + list;  // LPUSH
    }

    method Dequeue() returns (head: Option<Task>)
      modifies this
      ensures old(Contents()) == [] ==> head == None && Contents() == []
      ensures old(Contents()) != [] ==> head == Some(old(Contents())[0]) && Contents() == old(Contents())[1..]
    {
      if list == [] {
        return None;  // BRPOP timed out
      }
      PopIsHead(list);
      var n := |list| - 1;
      head, list := Some(list[n]), list[..n];  // BRPOP
    }

    method Size() returns (n: nat)
      ensures n == |Contents()|
    {
      n := |list|;
    }
  }
}
