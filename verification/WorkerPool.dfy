/** The worker loop, proved to be a run of the pipeline that ends. */
module WorkerPool {
  import opened Basics
  import opened Pipeline
  import opened Projection
  import opened Guarantees
  import opened Outcomes
  import opened Iteration
  import opened Queues
  import opened Service
  import Money

  /** The processor of the worker binary declines the amount that it parses from this text. */
  lemma FailureTotalIsParsed()
    ensures Money.Parse("13.37") == Some(FAILURE_TOTAL)
  {
    Money.PlainAmount('1', '3', '3', '7');
    assert ['1', '3'] + "." + ['3', '7'] == "13.37";
  }

  /** An iteration keeps the invariant and uses up work. */
  lemma IterationUsesWork(c: Config, s: State, w: nat, f: Fates, retry: Outcome)
    requires Inv(ANYTHING, c, s) && w < |s.workers| && s.workers[w].Waiting? && s.queue != []
    ensures Inv(ANYTHING, c, Iterated(c, s, w, f, retry))
    ensures 0 <= Work(c, Iterated(c, s, w, f, retry)) < Work(c, s)
  {
    var steps := IterationSteps(c, s, w, f, retry);
    IterationIsRun(ANYTHING, c, s, w, f, retry);
    RunUsesWork(ANYTHING, c, s, steps);
    RunKeepsInv(ANYTHING, c, s, steps);
    WorkNonNegative(ANYTHING, c, Iterated(c, s, w, f, retry));
  }

  /** One more iteration extends the run so far and uses up work. */
  lemma OneMore(c: Config, s: State, ts: seq<Step>, g: State, w: nat, f: Fates, retry: Outcome)
    returns (ts': seq<Step>)
    requires Run(ANYTHING, c, s, ts) && WorkersOnly(ts) && g == End(ANYTHING, c, s, ts)
    requires Inv(ANYTHING, c, g) && w < |g.workers| && g.workers[w].Waiting? && g.queue != []
    ensures var g' := Iterated(c, g, w, f, retry);
      && Run(ANYTHING, c, s, ts') && WorkersOnly(ts') && End(ANYTHING, c, s, ts') == g'
      && Inv(ANYTHING, c, g')
      && 0 <= Work(c, g') < Work(c, g)
  {
    IterationIsRun(ANYTHING, c, g, w, f, retry);
    IterationUsesWork(c, g, w, f, retry);
    ts' := Extended(c, s, ts, g, IterationSteps(c, g, w, f, retry));
  }

  lemma Extended(c: Config, s: State, ts: seq<Step>, g: State, more: seq<Step>) returns (ts': seq<Step>)
    requires Run(ANYTHING, c, s, ts) && WorkersOnly(ts) && g == End(ANYTHING, c, s, ts)
    requires Run(ANYTHING, c, g, more) && WorkersOnly(more)
    ensures Run(ANYTHING, c, s, ts') && WorkersOnly(ts') && End(ANYTHING, c, s, ts') == End(ANYTHING, c, g, more)
  {
    ts' := ts + more;
    RunsCompose(ANYTHING, c, s, ts, more);
  }

  /** The run ts of worker steps has come from s to g. */
  ghost predicate Follows(c: Config, s: State, ts: seq<Step>, g: State) {
    Run(ANYTHING, c, s, ts) && WorkersOnly(ts) && g == End(ANYTHING, c, s, ts)
  }

  class OrderWorker {
    const queue: FakeQueue
    const retryQueue: FakeRetryQueue
    const service: OrderService
    const maxRetries: nat

    constructor (queue: FakeQueue, retryQueue: FakeRetryQueue, service: OrderService, maxRetries: nat)
      requires retryQueue.processingQueue == queue
      ensures this.queue == queue && this.retryQueue == retryQueue
      ensures this.service == service && this.maxRetries == maxRetries
    {
      this.queue, this.retryQueue, this.service, this.maxRetries := queue, retryQueue, service, maxRetries;
    }

    /** How the retry queue answers for this message. */
    function RetryOutcome(msg: Message): Outcome
      reads retryQueue
    {
      var fails := if msg.retryCount < maxRetries then retryQueue.failRequeue else retryQueue.failDeadLetter;
      if fails then CleanError else Done
    }

    function Config(): Config {
      Pipeline.Config.Config(maxRetries, service.repo.sentinel)
    }

    method HandleProcessError(msg: Message)
      requires retryQueue.processingQueue == queue
      modifies retryQueue`requeued, retryQueue`deadLettered, queue
      ensures queue.msgs == old(queue.msgs) + Requeued(Config(), msg, true, old(RetryOutcome(msg)))
      ensures retryQueue.deadLettered
           == old(retryQueue.deadLettered) + Buried(Config(), msg, true, old(RetryOutcome(msg)))
      ensures msg.retryCount < maxRetries && !old(retryQueue.failRequeue) ==>
        && queue.msgs == old(queue.msgs) + [msg.(retryCount := msg.retryCount + 1)]
        && retryQueue.deadLettered == old(retryQueue.deadLettered)
      ensures msg.retryCount >= maxRetries && !old(retryQueue.failDeadLetter) ==>
        && retryQueue.deadLettered == old(retryQueue.deadLettered) + [msg]
        && queue.msgs == old(queue.msgs)
      ensures (if msg.retryCount < maxRetries then old(retryQueue.failRequeue) else old(retryQueue.failDeadLetter)) ==>
        queue.msgs == old(queue.msgs) && retryQueue.deadLettered == old(retryQueue.deadLettered)
      ensures queue.closed == old(queue.closed)
    {
      if msg.retryCount < maxRetries {
        var retryMsg := msg;
        retryMsg := retryMsg.(retryCount := retryMsg.retryCount + 1);
        var ok := retryQueue.Requeue(retryMsg);
        return;
      }
      var ok := retryQueue.DeadLetter(msg);
    }

    /** The retry queue delivers to the queue that the worker reads. */
    predicate Wired() {
      retryQueue.processingQueue == queue
    }

    /** One message: process it and, if that fails, hand it to HandleProcessError. */
    method Handle(msg: Message, f: Fates) returns (failed: bool)
      requires Wired()
      modifies queue, retryQueue`requeued, retryQueue`deadLettered,
               service.repo.inner`orders, service.metrics
      ensures var e := ProcessEffect(service.repo.sentinel, old(service.repo.inner.orders),
                                     old(service.metrics.Value()), msg.orderId, f);
        && service.repo.inner.orders == e.orders && service.metrics.Value() == e.metrics
        && queue.msgs == old(queue.msgs) + Requeued(Config(), msg, e.failed, old(RetryOutcome(msg)))
        && retryQueue.deadLettered
           == old(retryQueue.deadLettered) + Buried(Config(), msg, e.failed, old(RetryOutcome(msg)))
        && failed == e.failed
      ensures failed && msg.retryCount < maxRetries && !old(retryQueue.failRequeue) ==>
        && queue.msgs == old(queue.msgs) + [msg.(retryCount := msg.retryCount + 1)]
        && retryQueue.deadLettered == old(retryQueue.deadLettered)
      ensures failed && msg.retryCount >= maxRetries && !old(retryQueue.failDeadLetter) ==>
        && retryQueue.deadLettered == old(retryQueue.deadLettered) + [msg]
        && queue.msgs == old(queue.msgs)
      ensures !failed ==> queue.msgs == old(queue.msgs) && retryQueue.deadLettered == old(retryQueue.deadLettered)
      ensures queue.closed == old(queue.closed)
    {
      var err := service.Process(msg.orderId, f);
      if err != None {
        HandleProcessError(msg);
      }
      return err != None;
    }

    /** The state s of the pipeline shows this worker, about to dequeue, with its queues and its store. */
    ghost predicate Shows(s: State, w: nat)
      reads queue, retryQueue, service.repo.inner, service.metrics
    {
      && s.queue == queue.msgs
      && s.dead == retryQueue.deadLettered
      && s.orders == service.repo.inner.orders
      && s.metrics == service.metrics.Value()
      && w < |s.workers| && s.workers[w].Waiting?
    }

    /** The rest of an iteration, after the dequeue: it ends where the pipeline's own iteration ends. */
    method Turn(msg: Message, f: Fates, ghost s: State, ghost ts: seq<Step>, ghost g: State, ghost w: nat)
      returns (ghost ts': seq<Step>, ghost g': State)
      requires Wired() && w < |g.workers| && g.workers[w].Waiting?
      requires g.queue == [msg] + queue.msgs && g.dead == retryQueue.deadLettered
      requires g.orders == service.repo.inner.orders && g.metrics == service.metrics.Value()
      requires Inv(ANYTHING, Config(), s) && Follows(Config(), s, ts, g)
      modifies queue, retryQueue`requeued, retryQueue`deadLettered,
               service.repo.inner`orders, service.metrics
      ensures Shows(g', w) && Follows(Config(), s, ts', g')
      ensures 0 <= Work(Config(), g') < Work(Config(), g)
      ensures queue.closed == old(queue.closed)
    {
      ghost var retry := RetryOutcome(msg);
      RunKeepsInv(ANYTHING, Config(), s, ts);
      IterationIsAtomic(Config(), g, w, f, retry);
      var failed := Handle(msg, f);
      ts' := OneMore(Config(), s, ts, g, w, f, retry);
      g' := Iterated(Config(), g, w, f, retry);
    }

    /** One pass through the loop: dequeue and, if there was a message, handle it. */
    method Pass(done: bool, preferDone: bool, f: Fates,
                ghost s: State, ghost ts: seq<Step>, ghost g: State, ghost w: nat)
      returns (r: Delivery, ghost ts': seq<Step>, ghost g': State)
      requires Wired() && Shows(g, w)
      requires Inv(ANYTHING, Config(), s) && Follows(Config(), s, ts, g)
      modifies queue, retryQueue`requeued, retryQueue`deadLettered,
               service.repo.inner`orders, service.metrics
      ensures Shows(g', w) && Follows(Config(), s, ts', g') && queue.closed == old(queue.closed)
      ensures r.Delivered? ==> 0 <= Work(Config(), g') < Work(Config(), g)
      ensures !r.Delivered? ==>
        queue.msgs == [] && r == if old(queue.closed) then QueueClosed else if done then Cancelled else WouldBlock
    {
      r := queue.Dequeue(done, preferDone);
      ts', g' := ts, g;
      if r.Delivered? {
        assert g.queue == [r.msg] + queue.msgs;
        ts', g' := Turn(r.msg, f, s, ts, g, w);
      }
    }

    /**
     * The loop on a queue that nobody else writes to: whatever the repository calls, payments and
     * clocks do, it takes the pipeline through a run of worker steps, and it ends, with an empty
     * queue, after at most as many iterations as there is work in it. It stops when Dequeue fails or
     * would sleep.
     */
    method RunLoop(done: bool, preferDone: bool, fates: nat -> Fates, ghost s: State, ghost w: nat)
      returns (last: Delivery, ghost ts: seq<Step>)
      requires Wired() && Shows(s, w) && Inv(ANYTHING, Config(), s)
      modifies queue, retryQueue`requeued, retryQueue`deadLettered,
               service.repo.inner`orders, service.metrics
      ensures Run(ANYTHING, Config(), s, ts) && WorkersOnly(ts)
      ensures Shows(End(ANYTHING, Config(), s, ts), w)
      ensures queue.msgs == []
      ensures last == if old(queue.closed) then QueueClosed else if done then Cancelled else WouldBlock
      ensures |ts| <= Work(Config(), s)
    {
      ghost var g := s;
      ts := [];
      var n: nat := 0;
      while true
        invariant Follows(Config(), s, ts, g) && Shows(g, w)
        invariant queue.closed == old(queue.closed)
        decreases Work(Config(), g)
      {
        last, ts, g := Pass(done, preferDone, fates(n), s, ts, g, w);
        if !last.Delivered? {
          DrainIsBounded(ANYTHING, Config(), s, ts);
          return;
        }
        n := n + 1;
      }
    }
  }
}
