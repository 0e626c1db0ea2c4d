/** The queues of internal/order/queue.go and internal/queue, and the one FIFO both implement. */
module Queues {
  import opened Basics
  import opened Pipeline

  datatype Delivery =
    | Delivered(msg: Message)
    | QueueClosed
    | Cancelled     // the call ended with the context's or the client's error
    | WouldBlock    // the goroutine sleeps on an empty queue until somebody posts a token

  /** The in-memory producer; the fate of a call says whether it fails. */
  class FakeProducer {
    var messages: seq<Message>

    constructor ()
      ensures messages == []
    {
      messages := [];
    }

    method PublishOrderCreated(msg: Message, fate: Outcome) returns (ok: bool)
      modifies this
      ensures ok == (fate == Done)
      ensures messages == if fate == CleanError then old(messages) else old(messages) + [msg]
    {
      if fate == CleanError {
        return false;
      }
      messages := messages + [msg];
      return fate == Done;
    }
  }

  /** The in-memory queue: a list and a one-slot notify channel. */
  class FakeQueue {
    var msgs: seq<Message>
    var notified: bool
    var closed: bool

    constructor ()
      ensures msgs == [] && !notified && !closed
    {
      msgs, notified, closed := [], false, false;
    }

    method Enqueue(msg: Message)
      modifies this`msgs, this`notified
      ensures msgs == old(msgs) + [msg] && notified
    {
      msgs := msgs + [msg];
      notified := true;
    }

    method Close()
      modifies this`closed, this`notified
      ensures closed && notified
    {
      closed := true;
      notified := true;
    }

    /**
     * One call of Dequeue with nobody else running. The context is done or not throughout, and
     * when both cases of the select are ready, preferDone says which one the runtime picks.
     */
    method Dequeue(done: bool, preferDone: bool) returns (r: Delivery)
      modifies this`msgs, this`notified
      ensures old(msgs) != [] ==>
        r == Delivered(old(msgs)[0]) && msgs == old(msgs)[1..] && notified == old(notified)
      ensures old(msgs) == [] ==> msgs == [] && !r.Delivered?
      ensures old(msgs) == [] && closed ==> r == QueueClosed && notified == old(notified)
      ensures old(msgs) == [] && !closed ==> r == if done then Cancelled else WouldBlock
      ensures old(msgs) == [] && !closed && !done ==> !notified
    {
      while true
        invariant old(msgs) != [] ==> msgs == old(msgs) && notified == old(notified)
        invariant old(msgs) == [] ==> msgs == []
        invariant old(msgs) == [] && closed ==> notified == old(notified)
        decreases notified
      {
        if |msgs| > 0 {
          r := Delivered(msgs[0]);
          msgs := msgs[1..];
          return;
        }
        if closed {
          return QueueClosed;
        }
        if done && (preferDone || !notified) {
          return Cancelled;
        }
        if !notified {
          return WouldBlock;
        }
        notified := false;
      }
    }
  }

  /** The in-memory retry queue, delivering requeued messages back to the processing queue. */
  class FakeRetryQueue {
    var requeued: seq<Message>
    var deadLettered: seq<Message>
    const processingQueue: FakeQueue?    // null when the queue is not linked
    var failRequeue: bool
    var failDeadLetter: bool

    constructor (processing: FakeQueue?)
      ensures requeued == [] && deadLettered == [] && processingQueue == processing
      ensures !failRequeue && !failDeadLetter
    {
      requeued, deadLettered, processingQueue := [], [], processing;
      failRequeue, failDeadLetter := false, false;
    }

    method Requeue(msg: Message) returns (ok: bool)
      modifies this`requeued, processingQueue
      ensures ok == !failRequeue
      ensures requeued == if ok then old(requeued) + [msg] else old(requeued)
      ensures processingQueue != null ==>
        && processingQueue.msgs == (if ok then old(processingQueue.msgs) + [msg] else old(processingQueue.msgs))
        && processingQueue.notified == (ok || old(processingQueue.notified))
        && processingQueue.closed == old(processingQueue.closed)
    {
      if failRequeue {
        return false;
      }
      requeued := requeued + [msg];
      if processingQueue != null {
        processingQueue.Enqueue(msg);
      }
      return true;
    }

    method DeadLetter(msg: Message) returns (ok: bool)
      modifies this`deadLettered
      ensures ok == !failDeadLetter
      ensures deadLettered == if ok then old(deadLettered) + [msg] else old(deadLettered)
    {
      if failDeadLetter {
        return false;
      }
      deadLettered := deadLettered + [msg];
      return true;
    }
  }

  // ---- Redis ----

  function Reverse<T>(s: seq<T>): (r: seq<T>)
    ensures |r| == |s|
    ensures forall k :: 0 <= k < |s| ==> r[k] == s[|s| - 1 - k]
  {
    if s == [] then [] else Reverse(s[1..]) + [s[0]]
  }

  /** The two Redis lists, head first: LPUSH adds at the head, BRPOP takes from the tail. */
  class RedisLists {
    var processing: seq<Message>
    var deadLetters: seq<Message>

    constructor ()
      ensures processing == [] && deadLetters == []
    {
      processing, deadLetters := [], [];
    }

    /** The processing list in the order in which it will be consumed. */
    ghost function Waiting(): seq<Message>
      reads this
    {
      Reverse(processing)
    }

    method PublishOrderCreated(msg: Message, fate: Outcome) returns (ok: bool)
      modifies this`processing
      ensures ok == (fate == Done)
      ensures Waiting() == if fate == CleanError then old(Waiting()) else old(Waiting()) + [msg]
      ensures processing == if fate == CleanError then old(processing) else [msg] + old(processing)
    {
      if fate != CleanError {
        processing := [msg] + processing;
      }
      return fate == Done;
    }

    method Requeue(msg: Message, fate: Outcome) returns (ok: bool)
      modifies this`processing
      ensures ok == (fate == Done)
      ensures Waiting() == if fate == CleanError then old(Waiting()) else old(Waiting()) + [msg]
      ensures processing == if fate == CleanError then old(processing) else [msg] + old(processing)
    {
      if fate != CleanError {
        processing := [msg] + processing;
      }
      return fate == Done;
    }

    method DeadLetter(msg: Message, fate: Outcome) returns (ok: bool)
      modifies this`deadLetters
      ensures ok == (fate == Done)
      ensures Reverse(deadLetters) == old(Reverse(deadLetters)) + if fate == CleanError then [] else [msg]
      ensures deadLetters == if fate == CleanError then old(deadLetters) else [msg] + old(deadLetters)
    {
      if fate != CleanError {
        deadLetters := [msg] + deadLetters;
      }
      return fate == Done;
    }

    /**
     * BRPOP. The client stays blocked on an empty list; a cancelled or broken call may have popped a
     * message that the client never sees.
     */
    method Dequeue(fate: Outcome) returns (r: Delivery)
      modifies this`processing
      ensures Waiting() == if old(Waiting()) == [] || fate == CleanError then old(Waiting()) else old(Waiting())[1..]
      ensures fate != Done ==> r == Cancelled
      ensures fate == Done ==> r == if old(Waiting()) == [] then WouldBlock else Delivered(old(Waiting())[0])
      ensures old(processing) != [] && fate == Done ==>
        var last := |old(processing)| - 1;
        r == Delivered(old(processing)[last]) && processing == old(processing)[..last]
    {
      if processing == [] {
        return if fate == Done then WouldBlock else Cancelled;
      }
      var n := |processing| - 1;
      var msg := processing[n];
      if fate != CleanError {
        processing := processing[..n];
      }
      return if fate == Done then Delivered(msg) else Cancelled;
    }
  }

  // ---- Two queues, one FIFO ----

  datatype QueueOp<T> = Push(x: T) | Pop

  /** What a client sees of a list of operations, and the list of values left over. */
  datatype Trace<T> = Trace(left: seq<T>, seen: seq<Option<T>>)

  /** Append and take from the front, as FakeQueue does. */
  function FakeRun<T>(q: seq<T>, ops: seq<QueueOp<T>>): Trace<T>
    decreases |ops|
  {
    if ops == [] then Trace(q, [])
    else
      match ops[0]
      case Push(x) => FakeRun(q + [x], ops[1..])
      case Pop =>
        if q == [] then var t := FakeRun(q, ops[1..]); t.(seen := [None] + t.seen)
        else var t := FakeRun(q[1..], ops[1..]); t.(seen := [Some(q[0])] + t.seen)
  }

  /** Push at the head and pop at the tail, as the Redis list does. */
  function RedisRun<T>(list: seq<T>, ops: seq<QueueOp<T>>): Trace<T>
    decreases |ops|
  {
    if ops == [] then Trace(list, [])
    else
      match ops[0]
      case Push(x) => RedisRun([x] + list, ops[1..])
      case Pop =>
        if list == [] then var t := RedisRun(list, ops[1..]); t.(seen := [None] + t.seen)
        else
          var t := RedisRun(list[..|list| - 1], ops[1..]);
          t.(seen := [Some(list[|list| - 1])] + t.seen)
  }

  /** No sequence of pushes and pops tells the Redis list from the in-memory queue. */
  lemma {:induction false} TwoQueuesOneFifo<T>(list: seq<T>, ops: seq<QueueOp<T>>)
    ensures RedisRun(list, ops).seen == FakeRun(Reverse(list), ops).seen
    ensures Reverse(RedisRun(list, ops).left) == FakeRun(Reverse(list), ops).left
    decreases |ops|
  {
    if ops == [] {
    } else {
      match ops[0]
      case Push(x) =>
        assert Reverse([x] + list) == Reverse(list) + [x];
        TwoQueuesOneFifo([x] + list, ops[1..]);
      case Pop =>
        if list == [] {
          TwoQueuesOneFifo(list, ops[1..]);
        } else {
          assert Reverse(list[..|list| - 1]) == Reverse(list)[1..];
          TwoQueuesOneFifo(list[..|list| - 1], ops[1..]);
        }
    }
  }

  /**
   * First in, first out: what a run has popped, followed by what is left, is what was there
   * followed by what was pushed. A pushed value, a requeued message too, comes out behind everything already
   * queued.
   */
  lemma {:induction false} PoppedInOrder<T>(q: seq<T>, ops: seq<QueueOp<T>>)
    ensures Popped(FakeRun(q, ops).seen) + FakeRun(q, ops).left == q + Pushed(ops)
    decreases |ops|
  {
    if ops == [] {
    } else {
      match ops[0]
      case Push(x) =>
        PoppedInOrder(q + [x], ops[1..]);
        assert q + [x] + Pushed(ops[1..]) == q + ([x] + Pushed(ops[1..]));
      case Pop =>
        if q == [] {
          PoppedInOrder(q, ops[1..]);
          var t := FakeRun(q, ops[1..]);
          assert ([None] + t.seen)[1..] == t.seen;
        } else {
          PoppedInOrder(q[1..], ops[1..]);
          var t := FakeRun(q[1..], ops[1..]);
          var seen := [Some(q[0])] + t.seen;
          assert seen[0] == Some(q[0]) && seen[1..] == t.seen;
          assert Popped(seen) == [q[0]] + Popped(t.seen);
          assert Popped(seen) + t.left == [q[0]] + (Popped(t.seen) + t.left);
          assert [q[0]] + (q[1..] + Pushed(ops[1..])) == q + Pushed(ops[1..]);
          assert Pushed(ops) == Pushed(ops[1..]);
        }
    }
  }

  function Popped<T>(seen: seq<Option<T>>): seq<T> {
    if seen == [] then []
    else (if seen[0].Some? then [seen[0].value] else []) + Popped(seen[1..])
  }

  function Pushed<T>(ops: seq<QueueOp<T>>): seq<T> {
    if ops == [] then []
    else (if ops[0].Push? then [ops[0].x] else []) + Pushed(ops[1..])
  }
}
