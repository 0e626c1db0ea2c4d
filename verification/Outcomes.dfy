/**
 * Where the pipeline ends up: draining terminates within a bound that can be read off the state,
 * and in the simulated environment every schedule ends in the same place.
 */
module Outcomes {
  import opened Basics
  import opened OrderModel
  import opened Pipeline
  import opened Places
  import opened OneOrder
  import opened Projection
  import opened Guarantees

  // ---- Termination ----

  /** Steps that a message can still cause when it has been retried this often. */
  function MessageWork(c: Config, msg: Message): int {
    7 * (c.maxRetries - msg.retryCount + 1)
  }

  function WorkerWork(c: Config, worker: Worker): int {
    match worker
    case Waiting => 1
    case Stopped => 0
    case Fetched(msg) => MessageWork(c, msg)
    case Checked(msg, _) => MessageWork(c, msg) - 1
    case Claiming(msg, _) => MessageWork(c, msg) - 2
    case Paying(msg, _) => MessageWork(c, msg) - 3
    case Recording(msg, _, _) => MessageWork(c, msg) - 4
    case Failing(msg) => MessageWork(c, msg) - 5
  }

  function QueueWork(c: Config, queue: seq<Message>): int {
    if queue == [] then 0 else QueueWork(c, queue[..|queue| - 1]) + MessageWork(c, queue[|queue| - 1])
  }

  function PoolWork(c: Config, workers: seq<Worker>): int {
    if workers == [] then 0 else PoolWork(c, workers[..|workers| - 1]) + WorkerWork(c, workers[|workers| - 1])
  }

  function Work(c: Config, s: State): int {
    QueueWork(c, s.queue) + PoolWork(c, s.workers)
  }

  lemma QueueWorkPush(c: Config, queue: seq<Message>, msg: Message)
    ensures QueueWork(c, queue + [msg]) == QueueWork(c, queue) + MessageWork(c, msg)
  {
    assert (queue + [msg])[..|queue|] == queue;
  }

  lemma {:induction false} QueueWorkPop(c: Config, queue: seq<Message>)
    requires queue != []
    ensures QueueWork(c, queue) == MessageWork(c, queue[0]) + QueueWork(c, queue[1..])
  {
    var n := |queue| - 1;
    if n == 0 {
    } else {
      QueueWorkPop(c, queue[..n]);
      assert queue[..n][1..] == queue[1..][..n - 1];
    }
  }

  lemma {:induction false} PoolWorkUpdate(c: Config, ws: seq<Worker>, w: nat, worker: Worker)
    requires w < |ws|
    ensures PoolWork(c, ws[w := worker]) == PoolWork(c, ws) - WorkerWork(c, ws[w]) + WorkerWork(c, worker)
    decreases |ws|
  {
    var n := |ws| - 1;
    if w == n {
      assert ws[w := worker][..n] == ws[..n];
    } else {
      PoolWorkUpdate(c, ws[..n], w, worker);
      assert ws[w := worker][..n] == ws[..n][w := worker];
    }
  }

  lemma {:induction false} QueueWorkNonNegative(c: Config, queue: seq<Message>)
    requires forall k :: 0 <= k < |queue| ==> queue[k].retryCount <= c.maxRetries
    ensures QueueWork(c, queue) >= 0
  {
    if queue == [] {
    } else {
      QueueWorkNonNegative(c, queue[..|queue| - 1]);
    }
  }

  lemma {:induction false} PoolWorkNonNegative(c: Config, ws: seq<Worker>)
    requires forall k :: 0 <= k < |ws| && ws[k].Busy() ==> ws[k].msg.retryCount <= c.maxRetries
    ensures PoolWork(c, ws) >= 0
  {
    if ws == [] {
    } else {
      PoolWorkNonNegative(c, ws[..|ws| - 1]);
    }
  }

  lemma WorkNonNegative(p: Policy, c: Config, s: State)
    requires Inv(p, c, s)
    ensures Work(c, s) >= 0
  {
    InvMeansBudget(p, c, s);
    QueueWorkNonNegative(c, s.queue);
    PoolWorkNonNegative(c, s.workers);
  }

  /** The worker a step moves has less to do afterwards, and the queue no more than the worker gave back. */
  ghost predicate LessWork(c: Config, s: State, s': State, w: nat) {
    && w < |s.workers| == |s'.workers|
    && QueueWork(c, s'.queue) + WorkerWork(c, s'.workers[w]) < QueueWork(c, s.queue) + WorkerWork(c, s.workers[w])
  }

  /** A busy worker's message is within the retry budget. */
  predicate Affordable(c: Config, worker: Worker) {
    worker.Busy() ==> worker.msg.retryCount <= c.maxRetries
  }

  lemma TakeIsLessWork(c: Config, s: State, w: nat)
    requires w < |s.workers| && s.workers[w].Waiting? && s.queue != []
    ensures LessWork(c, s, TakeStep(s, w), w)
  {
    QueueWorkPop(c, s.queue);
  }

  lemma LoadIsLessWork(c: Config, s: State, w: nat, outcome: Outcome)
    requires w < |s.workers| && s.workers[w].Fetched? && Affordable(c, s.workers[w])
    ensures LessWork(c, s, LoadStep(s, w, outcome), w)
  {
  }

  lemma ScreenIsLessWork(c: Config, s: State, w: nat, outcome: Outcome)
    requires w < |s.workers| && s.workers[w].Checked?
    ensures LessWork(c, s, ScreenStep(c, s, w, outcome), w)
  {
  }

  lemma ClaimIsLessWork(c: Config, s: State, w: nat, now: int, outcome: Outcome)
    requires w < |s.workers| && s.workers[w].Claiming?
    ensures LessWork(c, s, ClaimStep(s, w, now, outcome), w)
  {
  }

  lemma RecordIsLessWork(c: Config, s: State, w: nat, now: int, outcome: Outcome)
    requires w < |s.workers| && s.workers[w].Recording? && Affordable(c, s.workers[w])
    ensures LessWork(c, s, RecordStep(s, w, now, outcome), w)
  {
  }

  lemma RetryIsLessWork(c: Config, s: State, w: nat, outcome: Outcome)
    requires w < |s.workers| && s.workers[w].Failing? && Affordable(c, s.workers[w])
    ensures LessWork(c, s, RetryStep(c, s, w, outcome), w)
  {
    var msg := s.workers[w].msg;
    QueueWorkPush(c, s.queue, msg.(retryCount := msg.retryCount + 1));
  }

  lemma StepIsLessWork(c: Config, s: State, t: Step)
    requires Enabled(s, t) && t.ByWorker() && Affordable(c, s.workers[t.w])
    ensures LessWork(c, s, Apply(c, s, t), t.w)
  {
    match t
    case Take(w) => TakeIsLessWork(c, s, w);
    case Leave(w) =>
    case Load(w, outcome) => LoadIsLessWork(c, s, w, outcome);
    case Screen(w, outcome) => ScreenIsLessWork(c, s, w, outcome);
    case Claim(w, now, outcome) => ClaimIsLessWork(c, s, w, now, outcome);
    case Pay(w, _) =>
    case Record(w, now, outcome) => RecordIsLessWork(c, s, w, now, outcome);
    case Retry(w, outcome) => RetryIsLessWork(c, s, w, outcome);
    case Crash(w) =>
  }

  /** Every step of a worker uses up work. */
  lemma WorkerStepIsLessWork(p: Policy, c: Config, s: State, t: Step)
    requires Inv(p, c, s) && Enabled(s, t) && t.ByWorker()
    ensures Work(c, Apply(c, s, t)) < Work(c, s)
  {
    InvMeansBudget(p, c, s);
    WorkerBalances(c, s, t);
    PoolWorkUpdate(c, s.workers, t.w, Apply(c, s, t).workers[t.w]);
    StepIsLessWork(c, s, t);
  }

  ghost predicate WorkersOnly(ts: seq<Step>) {
    forall k :: 0 <= k < |ts| ==> ts[k].ByWorker()
  }

  /** Every step of a run of workers takes at least one unit of work off. */
  lemma {:induction false} RunUsesWork(p: Policy, c: Config, s: State, ts: seq<Step>)
    requires Inv(p, c, s) && Run(p, c, s, ts) && WorkersOnly(ts)
    ensures Work(c, End(p, c, s, ts)) + |ts| <= Work(c, s)
    decreases |ts|
  {
    if |ts| == 0 {
    } else {
      var s' := Apply(c, s, ts[0]);
      WorkerStepIsLessWork(p, c, s, ts[0]);
      StepKeepsInv(p, c, s, ts[0]);
      RunUsesWork(p, c, s', ts[1..]);
    }
  }

  /**
   * Without new orders the workers stop by themselves: from any state the system can be in, every
   * run of worker steps is at most as long as the work in it, whatever fails on the way.
   */
  lemma DrainIsBounded(p: Policy, c: Config, s: State, ts: seq<Step>)
    requires Inv(p, c, s) && Run(p, c, s, ts) && WorkersOnly(ts)
    ensures |ts| <= Work(c, s)
  {
    RunUsesWork(p, c, s, ts);
    RunKeepsInv(p, c, s, ts);
    WorkNonNegative(p, c, End(p, c, s, ts));
  }

  // ---- Attempts ----

  /** The attempts that the queued messages have left. */
  function AttemptsQueued(c: Config, queue: seq<Message>): int {
    if queue == [] then 0
    else AttemptsQueued(c, queue[..|queue| - 1]) + (c.maxRetries - queue[|queue| - 1].retryCount + 1)
  }

  /** The attempts that a message in hand has left after the present one. */
  function AttemptsAfter(c: Config, worker: Worker): int {
    if worker.Busy() then c.maxRetries - worker.msg.retryCount else 0
  }

  function AttemptsInHand(c: Config, workers: seq<Worker>): int {
    if workers == [] then 0
    else AttemptsInHand(c, workers[..|workers| - 1]) + AttemptsAfter(c, workers[|workers| - 1])
  }

  lemma {:induction false} AttemptsAreWork(c: Config, queue: seq<Message>)
    ensures QueueWork(c, queue) == 7 * AttemptsQueued(c, queue)
  {
    if queue == [] {
    } else {
      AttemptsAreWork(c, queue[..|queue| - 1]);
    }
  }

  lemma {:induction false} AttemptsInHandUpdate(c: Config, workers: seq<Worker>, w: nat, worker: Worker)
    requires w < |workers|
    ensures AttemptsInHand(c, workers[w := worker]) + AttemptsAfter(c, workers[w])
         == AttemptsInHand(c, workers) + AttemptsAfter(c, worker)
    decreases |workers|
  {
    var n := |workers| - 1;
    if w == n {
      assert workers[w := worker][..n] == workers[..n];
    } else {
      AttemptsInHandUpdate(c, workers[..n], w, worker);
      assert workers[w := worker][..n] == workers[..n][w := worker];
    }
  }

  lemma {:induction false} AttemptsInHandNotNegative(c: Config, workers: seq<Worker>)
    requires forall w :: 0 <= w < |workers| ==> Affordable(c, workers[w])
    ensures AttemptsInHand(c, workers) >= 0
  {
    if workers == [] {
    } else {
      AttemptsInHandNotNegative(c, workers[..|workers| - 1]);
    }
  }

  /** A step of worker w spends an attempt for each message it takes, and never gains one. */
  ghost predicate SpendsAttempts(c: Config, s: State, s': State, w: nat, taken: nat) {
    && w < |s.workers| == |s'.workers|
    && QueueWork(c, s'.queue) + 7 * (AttemptsAfter(c, s'.workers[w]) + taken)
       <= QueueWork(c, s.queue) + 7 * AttemptsAfter(c, s.workers[w])
  }

  lemma TakeSpends(c: Config, s: State, w: nat)
    requires w < |s.workers| && s.workers[w].Waiting? && s.queue != []
    ensures SpendsAttempts(c, s, TakeStep(s, w), w, 1)
  {
    QueueWorkPop(c, s.queue);
  }

  lemma RetrySpends(c: Config, s: State, w: nat, outcome: Outcome)
    requires w < |s.workers| && s.workers[w].Failing? && Affordable(c, s.workers[w])
    ensures SpendsAttempts(c, s, RetryStep(c, s, w, outcome), w, 0)
  {
    var msg := s.workers[w].msg;
    QueueWorkPush(c, s.queue, msg.(retryCount := msg.retryCount + 1));
  }

  lemma LoadSpends(c: Config, s: State, w: nat, outcome: Outcome)
    requires w < |s.workers| && s.workers[w].Fetched? && Affordable(c, s.workers[w])
    ensures SpendsAttempts(c, s, LoadStep(s, w, outcome), w, 0)
  {
  }

  lemma OthersSpend(c: Config, s: State, t: Step)
    requires Enabled(s, t) && (t.Screen? || t.Pay? || t.Crash? || t.Leave?)
    requires Affordable(c, s.workers[t.w])
    ensures SpendsAttempts(c, s, Apply(c, s, t), t.w, 0)
  {
  }

  lemma ClaimSpends(c: Config, s: State, w: nat, now: int, outcome: Outcome)
    requires w < |s.workers| && s.workers[w].Claiming?
    ensures SpendsAttempts(c, s, ClaimStep(s, w, now, outcome), w, 0)
  {
  }

  lemma RecordSpends(c: Config, s: State, w: nat, now: int, outcome: Outcome)
    requires w < |s.workers| && s.workers[w].Recording? && Affordable(c, s.workers[w])
    ensures SpendsAttempts(c, s, RecordStep(s, w, now, outcome), w, 0)
  {
  }

  lemma StepSpends(c: Config, s: State, t: Step)
    requires Enabled(s, t) && t.ByWorker() && Affordable(c, s.workers[t.w])
    ensures SpendsAttempts(c, s, Apply(c, s, t), t.w, if t.Take? then 1 else 0)
  {
    match t
    case Take(w) => TakeSpends(c, s, w);
    case Retry(w, outcome) => RetrySpends(c, s, w, outcome);
    case Claim(w, now, outcome) => ClaimSpends(c, s, w, now, outcome);
    case Record(w, now, outcome) => RecordSpends(c, s, w, now, outcome);
    case Load(w, outcome) => LoadSpends(c, s, w, outcome);
    case _ => OthersSpend(c, s, t);
  }

  function AttemptsLeft(c: Config, s: State): int {
    AttemptsQueued(c, s.queue) + AttemptsInHand(c, s.workers)
  }

  lemma WorkerStepSpends(p: Policy, c: Config, s: State, t: Step)
    requires Inv(p, c, s) && Enabled(s, t) && t.ByWorker()
    ensures AttemptsLeft(c, Apply(c, s, t)) + (if t.Take? then 1 else 0) <= AttemptsLeft(c, s)
  {
    InvMeansBudget(p, c, s);
    WorkerBalances(c, s, t);
    AttemptsInHandUpdate(c, s.workers, t.w, Apply(c, s, t).workers[t.w]);
    StepSpends(c, s, t);
    AttemptsAreWork(c, s.queue);
    AttemptsAreWork(c, Apply(c, s, t).queue);
  }

  /** How often a run takes a message off the queue. */
  ghost function Takes(ts: seq<Step>): nat {
    if ts == [] then 0 else (if ts[0].Take? then 1 else 0) + Takes(ts[1..])
  }

  lemma {:induction false} RunSpends(p: Policy, c: Config, s: State, ts: seq<Step>)
    requires Inv(p, c, s) && Run(p, c, s, ts) && WorkersOnly(ts)
    ensures Takes(ts) + AttemptsLeft(c, End(p, c, s, ts)) <= AttemptsLeft(c, s)
    decreases |ts|
  {
    if |ts| == 0 {
    } else {
      WorkerStepSpends(p, c, s, ts[0]);
      StepKeepsInv(p, c, s, ts[0]);
      RunSpends(p, c, Apply(c, s, ts[0]), ts[1..]);
    }
  }

  lemma AttemptsLeftNotNegative(p: Policy, c: Config, s: State)
    requires Inv(p, c, s)
    ensures AttemptsLeft(c, s) >= 0
  {
    InvMeansBudget(p, c, s);
    QueueWorkNonNegative(c, s.queue);
    AttemptsAreWork(c, s.queue);
    AttemptsInHandNotNegative(c, s.workers);
  }

  lemma {:induction false} RestHasNothingInHand(c: Config, workers: seq<Worker>)
    requires forall w :: 0 <= w < |workers| ==> !workers[w].Busy()
    ensures AttemptsInHand(c, workers) == 0
  {
    if workers == [] {
    } else {
      RestHasNothingInHand(c, workers[..|workers| - 1]);
    }
  }

  /**
   * Draining in attempts: without new orders the workers dequeue at most as often as the messages in
   * queue and hand have attempts left. With no message in hand that is the sum of
   * maxRetries - RetryCount + 1 over the queue.
   */
  lemma DequeuesAreBounded(p: Policy, c: Config, s: State, ts: seq<Step>)
    requires Inv(p, c, s) && Run(p, c, s, ts) && WorkersOnly(ts)
    ensures Takes(ts) <= AttemptsLeft(c, s)
    ensures AtRest(s) ==> Takes(ts) <= AttemptsQueued(c, s.queue)
  {
    RunSpends(p, c, s, ts);
    RunKeepsInv(p, c, s, ts);
    AttemptsLeftNotNegative(p, c, End(p, c, s, ts));
    if AtRest(s) {
      RestHasNothingInHand(c, s.workers);
    }
  }

  /** Nothing queued, nothing in hand, nothing still to be published. */
  ghost predicate Quiescent(s: State) {
    s.queue == [] && s.publishing == {} && forall w :: 0 <= w < |s.workers| ==> !s.workers[w].Busy()
  }

  /** The next step of a worker when every call succeeds. */
  function NextStep(s: State, w: nat): Step
    requires w < |s.workers| && (s.workers[w].Waiting? ==> s.queue != []) && !s.workers[w].Stopped?
  {
    match s.workers[w]
    case Waiting => Take(w)
    case Fetched(_) => Load(w, Done)
    case Checked(_, _) => Screen(w, Done)
    case Claiming(_, _) => Claim(w, 0, Done)
    case Paying(_, order) => Pay(w, order.total != FAILURE_TOTAL)
    case Recording(_, _, _) => Record(w, 0, Done)
    case Failing(_) => Retry(w, Done)
  }

  lemma NextStepAllowed(s: State, w: nat)
    requires w < |s.workers| && (s.workers[w].Waiting? ==> s.queue != []) && !s.workers[w].Stopped?
    ensures Allowed(SIMULATED, s, NextStep(s, w)) && NextStep(s, w).ByWorker() && NextStep(s, w) != Leave(w)
  {
  }

  predicate StillThere(s: State, w: nat) {
    w < |s.workers| && !s.workers[w].Stopped?
  }

  /** Some worker can go on unless the pool is at rest. */
  lemma SomeoneCanGoOn(s: State, w: nat) returns (t: Step)
    requires s.publishing == {} && !Quiescent(s) && StillThere(s, w)
    ensures Allowed(SIMULATED, s, t) && t.ByWorker() && !t.Leave?
  {
    var v := w;
    if exists i :: 0 <= i < |s.workers| && s.workers[i].Busy() {
      var i :| 0 <= i < |s.workers| && s.workers[i].Busy();
      v := i;
    }
    t := NextStep(s, v);
    NextStepAllowed(s, v);
  }

  /** Whoever has not left is still there after a step other than leaving or crashing. */
  lemma NobodyLeaves(c: Config, s: State, t: Step, w: nat)
    requires Allowed(SIMULATED, s, t) && t.ByWorker() && !t.Leave?
    requires StillThere(s, w)
    ensures StillThere(Apply(c, s, t), w)
  {
    WorkerBalances(c, s, t);
  }

  lemma DrainCons(c: Config, s: State, t: Step, rest: seq<Step>)
    requires Allowed(SIMULATED, s, t) && t.ByWorker()
    requires Run(SIMULATED, c, Apply(c, s, t), rest) && WorkersOnly(rest)
    ensures Run(SIMULATED, c, s, [t] + rest) && WorkersOnly([t] + rest)
    ensures End(SIMULATED, c, s, [t] + rest) == End(SIMULATED, c, Apply(c, s, t), rest)
  {
    RunCons(SIMULATED, c, s, t, rest);
  }

  /** With a worker left, the pool can always go on until nothing is queued or in hand. */
  lemma {:induction false} DrainsToQuiescence(c: Config, s: State, w: nat) returns (ts: seq<Step>)
    requires Inv(SIMULATED, c, s) && s.publishing == {} && StillThere(s, w)
    ensures Run(SIMULATED, c, s, ts) && WorkersOnly(ts)
    ensures Quiescent(End(SIMULATED, c, s, ts))
    decreases Work(c, s)
  {
    if Quiescent(s) {
      ts := [];
    } else {
      var t := SomeoneCanGoOn(s, w);
      StepToDrain(c, s, t, w);
      var rest := DrainsToQuiescence(c, Apply(c, s, t), w);
      DrainCons(c, s, t, rest);
      ts := [t] + rest;
    }
  }

  lemma StepToDrain(c: Config, s: State, t: Step, w: nat)
    requires Inv(SIMULATED, c, s) && s.publishing == {} && StillThere(s, w)
    requires Allowed(SIMULATED, s, t) && t.ByWorker() && !t.Leave?
    ensures var s' := Apply(c, s, t);
      && Inv(SIMULATED, c, s') && s'.publishing == {}
      && StillThere(s', w)
      && 0 <= Work(c, s') < Work(c, s)
  {
    StepKeepsInv(SIMULATED, c, s, t);
    WorkerStepIsLessWork(SIMULATED, c, s, t);
    WorkNonNegative(SIMULATED, c, Apply(c, s, t));
    NobodyLeaves(c, s, t, w);
    WorkerLeaves(c, s, t);
  }

  /** A schedule can stop only at rest: with a worker left and no step but leaving, nothing is queued or in hand. */
  lemma StuckIsQuiescent(s: State, w: nat)
    requires s.publishing == {} && w < |s.workers| && !s.workers[w].Stopped?
    requires forall t: Step :: t.ByWorker() && !t.Leave? ==> !Allowed(SIMULATED, s, t)
    ensures Quiescent(s)
  {
    if exists v :: 0 <= v < |s.workers| && s.workers[v].Busy() {
      var v: nat :| v < |s.workers| && s.workers[v].Busy();
      NextStepAllowed(s, v);
    } else if s.queue != [] {
      NextStepAllowed(s, w);
    }
  }

  // ---- The deterministic outcome ----

  /** Where the simulated environment must leave an order. */
  ghost predicate AsForeseen(c: Config, s: State, id: Uuid)
    requires id in s.orders
  {
    var order := s.orders[id];
    if IsSentinel(c, order) then
      && order.status == Created
      && (exists k :: 0 <= k < |s.dead| && s.dead[k].orderId == id)
      && (forall j, k :: 0 <= j < |s.dead| && 0 <= k < |s.dead| && s.dead[j].orderId == s.dead[k].orderId == id ==>
            j == k)
    else
      && (if order.total == FAILURE_TOTAL then order.status == Failed
          else order.status == Paid || order.status == Shipped)
      && (forall k :: 0 <= k < |s.dead| ==> s.dead[k].orderId != id)
  }

  lemma QuiescentIsForeseen(c: Config, s: State, id: Uuid)
    requires Inv(SIMULATED, c, s) && Quiescent(s) && id in s.orders
    ensures AsForeseen(c, s, id)
  {
    var x := The(s, id);
    assert SoloInv(SIMULATED, c, x);
    assert x.life.phase != Publishing by {
      assert id in s.publishing <==> At(s.lives, id, Publishing);
    }
    assert !x.life.phase.Queued? && !x.life.phase.InHand?;
    forall k | 0 <= k < |s.dead| && s.dead[k].orderId == id ensures x.life.phase == Dead(s.dead[k]) {
      assert At(s.lives, s.dead[k].orderId, Dead(s.dead[k]));
    }
    if x.life.phase.Dead? {
      var k :| 0 <= k < |s.dead| && s.dead[k] == x.life.phase.msg;
    }
  }

  /**
   * Whatever the number of workers, the set of orders and the interleaving: if the sentinel
   * wrapper is the only thing that fails and nobody cancels, every quiescent state has each
   * sentinel order Created with exactly one dead letter, each order of the failure total Failed,
   * every other order Paid or Shipped, and no other dead letters.
   */
  lemma OutcomeIsDeterministic(c: Config, n: nat, ts: seq<Step>)
    requires Run(SIMULATED, c, Start(n), ts)
    requires Quiescent(End(SIMULATED, c, Start(n), ts))
    ensures var s := End(SIMULATED, c, Start(n), ts);
      && (forall id :: id in s.orders ==> AsForeseen(c, s, id))
      && (forall k :: 0 <= k < |s.dead| ==>
            s.dead[k].orderId in s.orders && IsSentinel(c, s.orders[s.dead[k].orderId])
            && s.dead[k].retryCount == c.maxRetries)
  {
    var s := End(SIMULATED, c, Start(n), ts);
    Reachable(SIMULATED, c, n, ts);
    forall id | id in s.orders ensures AsForeseen(c, s, id) {
      QuiescentIsForeseen(c, s, id);
    }
    forall k | 0 <= k < |s.dead|
      ensures s.dead[k].orderId in s.orders && IsSentinel(c, s.orders[s.dead[k].orderId])
      ensures s.dead[k].retryCount == c.maxRetries
    {
      assert At(s.lives, s.dead[k].orderId, Dead(s.dead[k]));
      assert SoloInv(SIMULATED, c, The(s, s.dead[k].orderId));
    }
  }

  /** Two schedules that settle the same orders agree on every status, but for what was shipped meanwhile. */
  lemma SchedulesAgree(c: Config, m: nat, ts: seq<Step>, n: nat, us: seq<Step>, id: Uuid)
    requires Run(SIMULATED, c, Start(m), ts) && Run(SIMULATED, c, Start(n), us)
    requires Quiescent(End(SIMULATED, c, Start(m), ts)) && Quiescent(End(SIMULATED, c, Start(n), us))
    requires id in End(SIMULATED, c, Start(m), ts).orders && id in End(SIMULATED, c, Start(n), us).orders
    requires End(SIMULATED, c, Start(m), ts).orders[id].total == End(SIMULATED, c, Start(n), us).orders[id].total
    ensures var a := End(SIMULATED, c, Start(m), ts).orders[id].status;
            var b := End(SIMULATED, c, Start(n), us).orders[id].status;
      (if a == Shipped then Paid else a) == (if b == Shipped then Paid else b)
  {
    Reachable(SIMULATED, c, m, ts);
    Reachable(SIMULATED, c, n, us);
    QuiescentIsForeseen(c, End(SIMULATED, c, Start(m), ts), id);
    QuiescentIsForeseen(c, End(SIMULATED, c, Start(n), us), id);
  }
}
