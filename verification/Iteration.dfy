/** One uninterrupted iteration of a worker's loop, as a run of the pipeline. */
module Iteration {
  import opened Basics
  import opened OrderModel
  import opened Pipeline
  import opened Guarantees
  import opened Outcomes

  /** How the repository calls of one Process end, and what its clock and its processor say. */
  datatype Fates = Fates(load: Outcome, screen: Outcome, claim: Outcome, record: Outcome,
                         approved: bool, claimedAt: int, processedAt: int)

  /** Service.Process is still running in worker w. */
  predicate InProcess(s: State, w: nat) {
    w < |s.workers| && s.workers[w].Busy() && !s.workers[w].Failing?
  }

  /** The step that the worker takes next. */
  function FatedStep(s: State, w: nat, f: Fates): (t: Step)
    requires InProcess(s, w)
    ensures Enabled(s, t) && t.ByWorker() && t.w == w && !t.Crash?
  {
    match s.workers[w]
    case Fetched(_) => Load(w, f.load)
    case Checked(_, _) => Screen(w, f.screen)
    case Claiming(_, _) => Claim(w, f.claimedAt, f.claim)
    case Paying(_, _) => Pay(w, f.approved)
    case Recording(_, _, _) => Record(w, f.processedAt, f.record)
  }

  function Stage(worker: Worker): nat {
    match worker
    case Fetched(_) => 5
    case Checked(_, _) => 4
    case Claiming(_, _) => 3
    case Paying(_, _) => 2
    case Recording(_, _, _) => 1
    case _ => 0
  }

  function StageOf(s: State, w: nat): nat {
    if w < |s.workers| then Stage(s.workers[w]) else 0
  }

  lemma LoadFalls(s: State, w: nat, outcome: Outcome)
    requires w < |s.workers| && s.workers[w].Fetched?
    ensures StageOf(LoadStep(s, w, outcome), w) < 5
  {
  }

  lemma ClaimFalls(s: State, w: nat, now: int, outcome: Outcome)
    requires w < |s.workers| && s.workers[w].Claiming?
    ensures StageOf(ClaimStep(s, w, now, outcome), w) < 3
  {
  }

  lemma RecordFalls(s: State, w: nat, now: int, outcome: Outcome)
    requires w < |s.workers| && s.workers[w].Recording?
    ensures StageOf(RecordStep(s, w, now, outcome), w) < 1
  {
  }

  lemma StageFalls(c: Config, s: State, w: nat, f: Fates)
    requires InProcess(s, w)
    ensures StageOf(Apply(c, s, FatedStep(s, w, f)), w) < StageOf(s, w)
  {
    match s.workers[w]
    case Fetched(_) => LoadFalls(s, w, f.load);
    case Checked(_, _) =>
    case Claiming(_, _) => ClaimFalls(s, w, f.claimedAt, f.claim);
    case Paying(_, _) =>
    case Recording(_, _, _) => RecordFalls(s, w, f.processedAt, f.record);
  }

  /** The state in which Process returns. */
  function Processed(c: Config, s: State, w: nat, f: Fates): State
    decreases StageOf(s, w)
  {
    if !InProcess(s, w) then s
    else
      StageFalls(c, s, w, f);
      Processed(c, Apply(c, s, FatedStep(s, w, f)), w, f)
  }

  /** What worker w and the rest of the service see of a state: the stored orders and the counters. */
  predicate Seen(s: State, w: nat, worker: Worker, orders: map<Uuid, Order>, metrics: Metrics) {
    w < |s.workers| && s.workers[w] == worker && s.orders == orders && s.metrics == metrics
  }

  predicate SameQueues(s: State, s': State) {
    s'.queue == s.queue && s'.dead == s.dead && s'.publishing == s.publishing
  }

  lemma AfterLoad(c: Config, s: State, w: nat, f: Fates) returns (s': State)
    requires InProcess(s, w) && s.workers[w].Fetched?
    ensures Processed(c, s', w, f) == Processed(c, s, w, f)
    ensures SameQueues(s, s')
    ensures var msg := s.workers[w].msg;
            var next := if msg.orderId == NIL_UUID then Waiting
                        else if f.load != Done then Failing(msg)
                        else if msg.orderId !in s.orders || s.orders[msg.orderId].status != Created then Waiting
                        else Checked(msg, s.orders[msg.orderId]);
      Seen(s', w, next, s.orders, s.metrics)
  {
    s' := Apply(c, s, FatedStep(s, w, f));
  }

  lemma AfterScreen(c: Config, s: State, w: nat, f: Fates) returns (s': State)
    requires InProcess(s, w) && s.workers[w].Checked?
    ensures Processed(c, s', w, f) == Processed(c, s, w, f)
    ensures SameQueues(s, s')
    ensures var msg := s.workers[w].msg;
            var refused := c.sentinel.Some? && f.screen == Done && msg.orderId in s.orders
                           && s.orders[msg.orderId].total == c.sentinel.value;
      Seen(s', w, if refused then Failing(msg) else Claiming(msg, s.workers[w].order), s.orders, s.metrics)
  {
    s' := Apply(c, s, FatedStep(s, w, f));
  }

  lemma ClaimSeen(s: State, w: nat, now: int, outcome: Outcome)
    requires w < |s.workers| && s.workers[w].Claiming?
    ensures SameQueues(s, ClaimStep(s, w, now, outcome))
    ensures var msg := s.workers[w].msg;
            var orders := if outcome == CleanError then s.orders
                          else WithStatus(s.orders, msg.orderId, Processing, now);
            var claimed := outcome == Done && msg.orderId in s.orders;
      Seen(ClaimStep(s, w, now, outcome), w, if claimed then Paying(msg, s.workers[w].order) else Failing(msg),
           orders, s.metrics)
  {
  }

  lemma AfterClaim(c: Config, s: State, w: nat, f: Fates) returns (s': State)
    requires InProcess(s, w) && s.workers[w].Claiming?
    ensures Processed(c, s', w, f) == Processed(c, s, w, f)
    ensures s' == ClaimStep(s, w, f.claimedAt, f.claim)
  {
    s' := Apply(c, s, FatedStep(s, w, f));
  }

  lemma AfterPay(c: Config, s: State, w: nat, f: Fates) returns (s': State)
    requires InProcess(s, w) && s.workers[w].Paying?
    ensures Processed(c, s', w, f) == Processed(c, s, w, f)
    ensures SameQueues(s, s')
    ensures Seen(s', w, Recording(s.workers[w].msg, s.workers[w].order, f.approved), s.orders, s.metrics)
  {
    s' := Apply(c, s, FatedStep(s, w, f));
  }

  lemma RecordSeen(s: State, w: nat, now: int, outcome: Outcome)
    requires w < |s.workers| && s.workers[w].Recording?
    ensures SameQueues(s, RecordStep(s, w, now, outcome))
    ensures var msg, approved := s.workers[w].msg, s.workers[w].approved;
            var to := if approved then Paid else Failed;
            var orders := if outcome == CleanError then s.orders else WithProcessed(s.orders, msg.orderId, to, now);
            var recorded := outcome == Done && msg.orderId in s.orders;
      Seen(RecordStep(s, w, now, outcome), w, if recorded then Waiting else Failing(msg), orders,
           if recorded then Counted(s.metrics, approved) else s.metrics)
  {
  }

  lemma AfterRecord(c: Config, s: State, w: nat, f: Fates) returns (s': State)
    requires InProcess(s, w) && s.workers[w].Recording?
    ensures Processed(c, s', w, f) == Processed(c, s, w, f)
    ensures s' == RecordStep(s, w, f.processedAt, f.record)
  {
    s' := Apply(c, s, FatedStep(s, w, f));
  }

  function ProcessSteps(c: Config, s: State, w: nat, f: Fates): seq<Step>
    decreases StageOf(s, w)
  {
    if !InProcess(s, w) then []
    else
      StageFalls(c, s, w, f);
      [FatedStep(s, w, f)] + ProcessSteps(c, Apply(c, s, FatedStep(s, w, f)), w, f)
  }

  /** A policy that asks nothing of worker steps. */
  predicate Lenient(p: Policy) {
    !p.recorded && !p.announced && !p.simulated
  }

  /** An uninterrupted Process is a run of the fine-grained pipeline. */
  lemma {:induction false} ProcessIsRun(p: Policy, c: Config, s: State, w: nat, f: Fates)
    requires Lenient(p)
    ensures Run(p, c, s, ProcessSteps(c, s, w, f))
    ensures End(p, c, s, ProcessSteps(c, s, w, f)) == Processed(c, s, w, f)
    ensures WorkersOnly(ProcessSteps(c, s, w, f))
    decreases StageOf(s, w)
  {
    if InProcess(s, w) {
      var t := FatedStep(s, w, f);
      StageFalls(c, s, w, f);
      ProcessIsRun(p, c, Apply(c, s, t), w, f);
      RunCons(p, c, s, t, ProcessSteps(c, Apply(c, s, t), w, f));
    }
  }

  // ---- The whole iteration ----

  function Delivered(c: Config, s: State, w: nat, f: Fates): State
    requires w < |s.workers| && s.workers[w].Waiting? && s.queue != []
  {
    Processed(c, TakeStep(s, w), w, f)
  }

  /** handleProcessError, if Process failed. */
  function Retried(c: Config, s: State, w: nat, retry: Outcome): State {
    if w < |s.workers| && s.workers[w].Failing? then RetryStep(c, s, w, retry) else s
  }

  function RetrySteps(s: State, w: nat, retry: Outcome): seq<Step> {
    if w < |s.workers| && s.workers[w].Failing? then [Retry(w, retry)] else []
  }

  /** Dequeue, Process and, if Process failed, handleProcessError. */
  function Iterated(c: Config, s: State, w: nat, f: Fates, retry: Outcome): State
    requires w < |s.workers| && s.workers[w].Waiting? && s.queue != []
  {
    Retried(c, Delivered(c, s, w, f), w, retry)
  }

  function IterationSteps(c: Config, s: State, w: nat, f: Fates, retry: Outcome): seq<Step>
    requires w < |s.workers| && s.workers[w].Waiting? && s.queue != []
  {
    [Take(w)] + (ProcessSteps(c, TakeStep(s, w), w, f) + RetrySteps(Delivered(c, s, w, f), w, retry))
  }

  lemma OneStep(p: Policy, c: Config, s: State, t: Step)
    requires Allowed(p, s, t)
    ensures Run(p, c, s, [t]) && End(p, c, s, [t]) == Apply(c, s, t)
  {
    RunCons(p, c, s, t, []);
    assert [t] + [] == [t];
  }

  lemma RetryIsRun(p: Policy, c: Config, s: State, w: nat, retry: Outcome)
    requires Lenient(p)
    ensures Run(p, c, s, RetrySteps(s, w, retry)) && WorkersOnly(RetrySteps(s, w, retry))
    ensures End(p, c, s, RetrySteps(s, w, retry)) == Retried(c, s, w, retry)
  {
    if w < |s.workers| && s.workers[w].Failing? {
      OneStep(p, c, s, Retry(w, retry));
    }
  }

  /** An uninterrupted iteration of the worker's loop is a run of the fine-grained pipeline. */
  lemma IterationIsRun(p: Policy, c: Config, s: State, w: nat, f: Fates, retry: Outcome)
    requires Lenient(p) && w < |s.workers| && s.workers[w].Waiting? && s.queue != []
    ensures Run(p, c, s, IterationSteps(c, s, w, f, retry))
    ensures End(p, c, s, IterationSteps(c, s, w, f, retry)) == Iterated(c, s, w, f, retry)
    ensures WorkersOnly(IterationSteps(c, s, w, f, retry))
  {
    var s1 := TakeStep(s, w);
    var steps, last := ProcessSteps(c, s1, w, f), RetrySteps(Delivered(c, s, w, f), w, retry);
    ProcessIsRun(p, c, s1, w, f);
    RetryIsRun(p, c, Delivered(c, s, w, f), w, retry);
    RunsCompose(p, c, s1, steps, last);
    RunCons(p, c, s, Take(w), steps + last);
  }

  /** What a call of Process leaves behind. */
  datatype Effect = Effect(orders: map<Uuid, Order>, metrics: Metrics, failed: bool)

  /** Process as one atomic operation on the stored orders and the counters. */
  function ProcessEffect(sentinel: Option<Int64>, orders: map<Uuid, Order>, metrics: Metrics, id: Uuid, f: Fates)
    : Effect
  {
    if id == NIL_UUID then Effect(orders, metrics, false)
    else if f.load != Done then Effect(orders, metrics, true)
    else if id !in orders || orders[id].status != Created then Effect(orders, metrics, false)
    else if sentinel.Some? && f.screen == Done && orders[id].total == sentinel.value then Effect(orders, metrics, true)
    else
      var claimed := if f.claim == CleanError then orders else WithStatus(orders, id, Processing, f.claimedAt);
      if f.claim != Done then Effect(claimed, metrics, true)
      else
        var to := if f.approved then Paid else Failed;
        var recorded := if f.record == CleanError then claimed else WithProcessed(claimed, id, to, f.processedAt);
        Effect(recorded, if f.record == Done then Counted(metrics, f.approved) else metrics, f.record != Done)
  }

  /** The atomic operation, case by case: what it leaves alone, what it writes, and when it fails. */
  lemma ProcessCases(sentinel: Option<Int64>, orders: map<Uuid, Order>, metrics: Metrics, id: Uuid, f: Fates)
    ensures var e := ProcessEffect(sentinel, orders, metrics, id, f);
            var ready := id != NIL_UUID && f.load == Done && id in orders && orders[id].status == Created;
            var refused := ready && sentinel.Some? && f.screen == Done && orders[id].total == sentinel.value;
            var claimed := ready && !refused && f.claim == Done;
      && e.orders.Keys == orders.Keys
      && (forall other :: other in orders && other != id ==> e.orders[other] == orders[other])
      && (!ready || refused ==> e.orders == orders && e.metrics == metrics)
      && (e.failed <==> id != NIL_UUID
                        && (f.load != Done || refused || (ready && !claimed) || (claimed && f.record != Done)))
      && (ready && !refused ==>
            e.orders[id].status == if f.claim == CleanError then Created
                                   else if f.claim == DirtyError || f.record == CleanError then Processing
                                   else if f.approved then Paid else Failed)
      && (id in orders ==> e.orders[id] == orders[id].(status := e.orders[id].status,
                                                       updatedAt := e.orders[id].updatedAt,
                                                       processedAt := e.orders[id].processedAt))
      && (claimed && f.record != CleanError ==> e.orders[id].processedAt == Some(f.processedAt))
      && (claimed && f.record == Done ==>
            e.metrics == if f.approved then metrics.(processed := metrics.processed + 1,
                                                     durations := metrics.durations + 1)
                         else metrics.(failed := metrics.failed + 1))
      && (!claimed || f.record != Done ==> e.metrics == metrics)
  {
  }

  /** The atomic operation has exactly the effect of the pipeline's own steps, run without interruption. */
  lemma ProcessIsAtomic(c: Config, s: State, w: nat, f: Fates)
    requires w < |s.workers| && s.workers[w].Fetched?
    ensures SameQueues(s, Processed(c, s, w, f))
    ensures var msg := s.workers[w].msg;
            var e := ProcessEffect(c.sentinel, s.orders, s.metrics, msg.orderId, f);
      Seen(Processed(c, s, w, f), w, if e.failed then Failing(msg) else Waiting, e.orders, e.metrics)
  {
    var g := AfterLoad(c, s, w, f);
    if InProcess(g, w) {
      g := AfterScreen(c, g, w, f);
    }
    if InProcess(g, w) {
      ClaimOnIsAtomic(c, g, w, f);
    }
  }

  lemma ClaimOnIsAtomic(c: Config, s: State, w: nat, f: Fates)
    requires w < |s.workers| && s.workers[w].Claiming? && s.workers[w].msg.orderId in s.orders
    ensures SameQueues(s, Processed(c, s, w, f))
    ensures var msg := s.workers[w].msg;
            var id := msg.orderId;
            var claimed := if f.claim == CleanError then s.orders
                           else WithStatus(s.orders, id, Processing, f.claimedAt);
            var to := if f.approved then Paid else Failed;
            var recorded := if f.record == CleanError then claimed else WithProcessed(claimed, id, to, f.processedAt);
      if f.claim != Done then Seen(Processed(c, s, w, f), w, Failing(msg), claimed, s.metrics)
      else if f.record == Done then Seen(Processed(c, s, w, f), w, Waiting, recorded, Counted(s.metrics, f.approved))
      else Seen(Processed(c, s, w, f), w, Failing(msg), recorded, s.metrics)
  {
    ClaimSeen(s, w, f.claimedAt, f.claim);
    var g := AfterClaim(c, s, w, f);
    if InProcess(g, w) {
      g := AfterPay(c, g, w, f);
      RecordSeen(g, w, f.processedAt, f.record);
      g := AfterRecord(c, g, w, f);
    }
  }

  /** What handleProcessError puts back into the processing queue. */
  function Requeued(c: Config, msg: Message, failed: bool, retry: Outcome): seq<Message> {
    if failed && retry != CleanError && msg.retryCount < c.maxRetries
    then [msg.(retryCount := msg.retryCount + 1)]
    else []
  }

  /** What handleProcessError puts into the dead-letter queue. */
  function Buried(c: Config, msg: Message, failed: bool, retry: Outcome): seq<Message> {
    if failed && retry != CleanError && msg.retryCount >= c.maxRetries then [msg] else []
  }

  lemma RetrySeen(c: Config, s: State, w: nat, retry: Outcome)
    requires w < |s.workers| && s.workers[w].Failing?
    ensures var s' := RetryStep(c, s, w, retry);
      && Seen(s', w, Waiting, s.orders, s.metrics)
      && s'.queue == s.queue + Requeued(c, s.workers[w].msg, true, retry)
      && s'.dead == s.dead + Buried(c, s.workers[w].msg, true, retry)
      && s'.publishing == s.publishing
  {
  }

  lemma DeliveredSeen(c: Config, s: State, w: nat, f: Fates)
    requires w < |s.workers| && s.workers[w].Waiting? && s.queue != []
    ensures var msg := s.queue[0];
            var e := ProcessEffect(c.sentinel, s.orders, s.metrics, msg.orderId, f);
            var s' := Delivered(c, s, w, f);
      && Seen(s', w, if e.failed then Failing(msg) else Waiting, e.orders, e.metrics)
      && s'.queue == s.queue[1..] && s'.dead == s.dead && s'.publishing == s.publishing
  {
    ProcessIsAtomic(c, TakeStep(s, w), w, f);
  }

  /** What one whole iteration does to the queues, the orders and the counters. */
  lemma IterationIsAtomic(c: Config, s: State, w: nat, f: Fates, retry: Outcome)
    requires w < |s.workers| && s.workers[w].Waiting? && s.queue != []
    ensures var msg := s.queue[0];
            var e := ProcessEffect(c.sentinel, s.orders, s.metrics, msg.orderId, f);
            var s' := Iterated(c, s, w, f, retry);
      && Seen(s', w, Waiting, e.orders, e.metrics)
      && s'.queue == s.queue[1..] + Requeued(c, msg, e.failed, retry)
      && s'.dead == s.dead + Buried(c, msg, e.failed, retry)
      && s'.publishing == s.publishing
  {
    DeliveredSeen(c, s, w, f);
    var t := Delivered(c, s, w, f);
    if t.workers[w].Failing? {
      RetrySeen(c, t, w, retry);
    }
  }

  /**
   * An iteration takes one attempt off the queue's budget if it requeues the message, and all the
   * attempts that the message had left if it does not.
   */
  lemma IterationSpendsBudget(c: Config, s: State, w: nat, f: Fates, retry: Outcome)
    requires w < |s.workers| && s.workers[w].Waiting? && s.queue != []
    ensures var msg := s.queue[0];
            var failed := ProcessEffect(c.sentinel, s.orders, s.metrics, msg.orderId, f).failed;
            var s' := Iterated(c, s, w, f, retry);
      AttemptsQueued(c, s'.queue)
      == AttemptsQueued(c, s.queue)
         - if Requeued(c, msg, failed, retry) != [] then 1 else c.maxRetries - msg.retryCount + 1
  {
    var msg := s.queue[0];
    IterationIsAtomic(c, s, w, f, retry);
    QueueWorkPop(c, s.queue);
    QueueWorkPush(c, s.queue[1..], msg.(retryCount := msg.retryCount + 1));
    assert s.queue[1..] + [] == s.queue[1..];
    AttemptsAreWork(c, s.queue);
    AttemptsAreWork(c, Iterated(c, s, w, f, retry).queue);
  }
}
