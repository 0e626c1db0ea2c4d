/** What the pipeline promises, as statements about every run of a fresh system. */
module Guarantees {
  import opened Basics
  import opened OrderModel
  import opened Pipeline
  import opened Places
  import opened OneOrder
  import opened Projection

  // ---- Payment at most once ----

  /** How many steps of the run call the payment processor for this order. */
  ghost function Payments(p: Policy, c: Config, s: State, ts: seq<Step>, id: Uuid): nat
    requires Run(p, c, s, ts)
    decreases |ts|
  {
    if |ts| == 0 then 0
    else
      (if ts[0].Pay? && s.workers[ts[0].w].msg.orderId == id then 1 else 0)
      + Payments(p, c, Apply(c, s, ts[0]), ts[1..], id)
  }

  function PaidSoFar(s: State, id: Uuid): nat {
    if id in s.lives then s.lives[id].payments else 0
  }

  lemma SoloCountsPayments(c: Config, x: Solo, t: Step)
    requires SoloEnabled(x.life, t)
    ensures SoloStep(c, x, t).life.payments == x.life.payments + if t.Pay? then 1 else 0
  {
  }

  lemma CommitPaysNothing(s: State, order: Order, items: seq<Item>, outcome: Outcome, id: Uuid)
    requires Agreement(s) && order.id !in s.orders
    ensures PaidSoFar(CommitStep(s, order, items, outcome), id) == PaidSoFar(s, id)
  {
  }

  lemma ChangePays(s: State, s': State, subject: Uuid, x: Solo, paid: nat, id: Uuid)
    requires Known(s, subject) && Becomes(s, s', subject, x)
    requires x.life.payments == s.lives[subject].payments + paid
    ensures PaidSoFar(s', id) == PaidSoFar(s, id) + if id == subject then paid else 0
  {
  }

  lemma MoveCountsPayments(p: Policy, c: Config, s: State, t: Step, id: Uuid)
    requires Inv(p, c, s) && Allowed(p, s, t) && Moves(t)
    ensures PaidSoFar(Apply(c, s, t), id)
         == PaidSoFar(s, id) + if t.Pay? && s.workers[t.w].msg.orderId == id then 1 else 0
  {
    var subject := Subject(s, t);
    AllowedProjects(p, c, s, t);
    StepProjects(c, s, t);
    SoloCountsPayments(c, The(s, subject), t);
    ChangePays(s, Apply(c, s, t), subject, SoloStep(c, The(s, subject), t), if t.Pay? then 1 else 0, id);
  }

  lemma StepCountsPayments(p: Policy, c: Config, s: State, t: Step, id: Uuid)
    requires Inv(p, c, s) && Allowed(p, s, t)
    ensures PaidSoFar(Apply(c, s, t), id)
         == PaidSoFar(s, id) + if t.Pay? && s.workers[t.w].msg.orderId == id then 1 else 0
  {
    if Moves(t) {
      MoveCountsPayments(p, c, s, t, id);
    } else if t.Commit? {
      CommitPaysNothing(s, t.order, t.items, t.outcome, id);
    }
  }

  lemma {:induction false} RunCountsPayments(p: Policy, c: Config, s: State, ts: seq<Step>, id: Uuid)
    requires Inv(p, c, s) && Run(p, c, s, ts)
    ensures PaidSoFar(End(p, c, s, ts), id) == PaidSoFar(s, id) + Payments(p, c, s, ts, id)
    decreases |ts|
  {
    if |ts| == 0 {
    } else {
      StepCountsPayments(p, c, s, ts[0], id);
      StepKeepsInv(p, c, s, ts[0]);
      RunCountsPayments(p, c, Apply(c, s, ts[0]), ts[1..], id);
    }
  }

  lemma PaymentsAreCounted(p: Policy, c: Config, n: nat, ts: seq<Step>, id: Uuid)
    requires Run(p, c, Start(n), ts) && Coherent(p)
    ensures Inv(p, c, End(p, c, Start(n), ts))
    ensures Payments(p, c, Start(n), ts, id) == PaidSoFar(End(p, c, Start(n), ts), id)
  {
    Reachable(p, c, n, ts);
    RunCountsPayments(p, c, Start(n), ts, id);
  }

  lemma PaidSoFarAtMostOnce(p: Policy, c: Config, s: State, id: Uuid)
    requires Inv(p, c, s)
    ensures PaidSoFar(s, id) <= 1
    ensures Known(s, id) && Settled(s.orders[id].status) ==> PaidSoFar(s, id) == 1
  {
    if Known(s, id) {
      assert SoloInv(p, c, The(s, id));
    }
  }

  /**
   * Whatever fails, retries, dies or interleaves, Cancel and Ship racing included, the payment
   * processor is called at most once for each order.
   */
  lemma PaymentAtMostOnce(c: Config, n: nat, ts: seq<Step>, id: Uuid)
    requires Run(ANYTHING, c, Start(n), ts)
    ensures Payments(ANYTHING, c, Start(n), ts, id) <= 1
  {
    PaymentsAreCounted(ANYTHING, c, n, ts, id);
    PaidSoFarAtMostOnce(ANYTHING, c, End(ANYTHING, c, Start(n), ts), id);
  }

  /** And it was called exactly once for every Paid, Failed or Shipped order, in any environment. */
  lemma SettledMeansPaidOnce(c: Config, n: nat, ts: seq<Step>, id: Uuid)
    requires Run(ANYTHING, c, Start(n), ts)
    requires var s := End(ANYTHING, c, Start(n), ts); id in s.orders && Settled(s.orders[id].status)
    ensures Payments(ANYTHING, c, Start(n), ts, id) == 1
  {
    PaymentsAreCounted(ANYTHING, c, n, ts, id);
    PaidSoFarAtMostOnce(ANYTHING, c, End(ANYTHING, c, Start(n), ts), id);
  }

  // ---- One live message per order, and where messages are ----

  function BusyCount(workers: seq<Worker>): nat {
    if workers == [] then 0
    else BusyCount(workers[..|workers| - 1]) + if workers[|workers| - 1].Busy() then 1 else 0
  }

  /** Nobody has a message in hand. */
  predicate AtRest(s: State) {
    forall w :: 0 <= w < |s.workers| ==> !s.workers[w].Busy()
  }

  lemma {:induction false} BusyCountUpdate(ws: seq<Worker>, w: nat, worker: Worker)
    requires w < |ws|
    ensures BusyCount(ws[w := worker]) + (if ws[w].Busy() then 1 else 0)
         == BusyCount(ws) + (if worker.Busy() then 1 else 0)
    decreases |ws|
  {
    var n := |ws| - 1;
    if w == n {
      assert ws[w := worker][..n] == ws[..n];
    } else {
      BusyCountUpdate(ws[..n], w, worker);
      assert ws[w := worker][..n] == ws[..n][w := worker];
    }
  }

  /** Published messages are queued, in hand, finished, dead or lost. */
  predicate Balanced(s: State) {
    s.tally.published == |s.queue| + BusyCount(s.workers) + s.tally.finished + |s.dead| + s.tally.lost
  }

  function Weighed(s: State, w: nat): int
    requires w < |s.workers|
  {
    |s.queue| + s.tally.finished + |s.dead| + s.tally.lost + if s.workers[w].Busy() then 1 else 0
  }

  /** A worker step moves its own worker only, and no message comes from nowhere or vanishes. */
  ghost predicate Balances(s: State, s': State, t: Step)
    requires t.ByWorker() && t.w < |s.workers|
  {
    && |s'.workers| == |s.workers|
    && s'.workers == s.workers[t.w := s'.workers[t.w]]
    && (s'.workers[t.w].Stopped? ==> t.Leave? || t.Crash?)
    && Weighed(s', t.w) == Weighed(s, t.w)
    && s'.tally.published == s.tally.published
  }

  lemma LoadBalances(s: State, w: nat, outcome: Outcome)
    requires w < |s.workers| && s.workers[w].Fetched?
    ensures Balances(s, LoadStep(s, w, outcome), Load(w, outcome))
  {
  }

  lemma ClaimBalances(s: State, w: nat, now: int, outcome: Outcome)
    requires w < |s.workers| && s.workers[w].Claiming?
    ensures Balances(s, ClaimStep(s, w, now, outcome), Claim(w, now, outcome))
  {
  }

  lemma RecordBalances(s: State, w: nat, now: int, outcome: Outcome)
    requires w < |s.workers| && s.workers[w].Recording?
    ensures Balances(s, RecordStep(s, w, now, outcome), Record(w, now, outcome))
  {
  }

  lemma RetryBalances(c: Config, s: State, w: nat, outcome: Outcome)
    requires w < |s.workers| && s.workers[w].Failing?
    ensures Balances(s, RetryStep(c, s, w, outcome), Retry(w, outcome))
  {
  }

  lemma WorkerBalances(c: Config, s: State, t: Step)
    requires Enabled(s, t) && t.ByWorker()
    ensures Balances(s, Apply(c, s, t), t)
  {
    match t
    case Load(w, outcome) => LoadBalances(s, w, outcome);
    case Claim(w, now, outcome) => ClaimBalances(s, w, now, outcome);
    case Record(w, now, outcome) => RecordBalances(s, w, now, outcome);
    case Retry(w, outcome) => RetryBalances(c, s, w, outcome);
    case _ =>
  }

  lemma StepBalances(c: Config, s: State, t: Step)
    requires Balanced(s) && Enabled(s, t)
    ensures Balanced(Apply(c, s, t))
  {
    if t.ByWorker() {
      WorkerBalances(c, s, t);
      BusyCountUpdate(s.workers, t.w, Apply(c, s, t).workers[t.w]);
    }
  }

  lemma {:induction false} RunBalances(p: Policy, c: Config, s: State, ts: seq<Step>)
    requires Balanced(s) && Run(p, c, s, ts)
    ensures Balanced(End(p, c, s, ts))
    decreases |ts|
  {
    if |ts| == 0 {
    } else {
      StepBalances(c, s, ts[0]);
      RunBalances(p, c, Apply(c, s, ts[0]), ts[1..]);
    }
  }

  lemma {:induction false} NobodyBusyAtStart(n: nat)
    ensures BusyCount(Start(n).workers) == 0
  {
    if n == 0 {
    } else {
      NobodyBusyAtStart(n - 1);
      assert Start(n).workers[..n - 1] == Start(n - 1).workers;
    }
  }

  /** No message is ever duplicated: one per order among queue, workers and dead letters together. */
  ghost predicate OneMessageEach(s: State) {
    && (forall j, k :: 0 <= j < k < |s.queue| ==> s.queue[j].orderId != s.queue[k].orderId)
    && (forall j, k :: 0 <= j < k < |s.dead| ==> s.dead[j].orderId != s.dead[k].orderId)
    && (forall j, k :: 0 <= j < k < |s.workers| && s.workers[j].Busy() && s.workers[k].Busy() ==>
          s.workers[j].msg.orderId != s.workers[k].msg.orderId)
    && (forall j, k :: 0 <= j < |s.queue| && 0 <= k < |s.dead| ==> s.queue[j].orderId != s.dead[k].orderId)
    && (forall j, k :: 0 <= j < |s.queue| && 0 <= k < |s.workers| && s.workers[k].Busy() ==>
          s.queue[j].orderId != s.workers[k].msg.orderId)
    && (forall j, k :: 0 <= j < |s.dead| && 0 <= k < |s.workers| && s.workers[k].Busy() ==>
          s.dead[j].orderId != s.workers[k].msg.orderId)
  }

  /** Every message belongs to a stored order that was handed to the queue. */
  ghost predicate MessagesHaveOrders(s: State) {
    && (forall k :: 0 <= k < |s.queue| ==> s.queue[k].orderId in s.orders && s.queue[k].orderId !in s.publishing)
    && (forall k :: 0 <= k < |s.dead| ==> s.dead[k].orderId in s.orders && s.dead[k].orderId !in s.publishing)
    && (forall k :: 0 <= k < |s.workers| && s.workers[k].Busy() ==>
          s.workers[k].msg.orderId in s.orders && s.workers[k].msg.orderId !in s.publishing)
  }

  lemma AgreementMeansOneEach(s: State)
    requires Agreement(s)
    ensures OneMessageEach(s)
  {
  }

  lemma AgreementMeansOrders(s: State)
    requires Agreement(s)
    ensures MessagesHaveOrders(s)
  {
  }

  predicate PublishesMessage(t: Step) {
    t.Publish? && t.outcome != CleanError
  }

  lemma StepPublishes(c: Config, s: State, t: Step)
    requires Enabled(s, t)
    ensures Apply(c, s, t).tally.published == s.tally.published + if PublishesMessage(t) then 1 else 0
  {
    if t.ByWorker() {
      WorkerLeaves(c, s, t);
    }
  }

  lemma StepFinishes(c: Config, s: State, t: Step)
    requires Enabled(s, t)
    ensures Apply(c, s, t).tally.finished == s.tally.finished + if FinishesMessage(s, t) then 1 else 0
  {
    if t.ByWorker() {
      WorkerLeaves(c, s, t);
    }
  }

  lemma StepLoses(c: Config, s: State, t: Step)
    requires Enabled(s, t)
    ensures Apply(c, s, t).tally.lost == s.tally.lost + if LosesMessage(t) then 1 else 0
  {
    if t.ByWorker() {
      WorkerLeaves(c, s, t);
    }
  }

  ghost function Publications(ts: seq<Step>): nat {
    if ts == [] then 0 else (if PublishesMessage(ts[0]) then 1 else 0) + Publications(ts[1..])
  }

  ghost function Losses(ts: seq<Step>): nat {
    if ts == [] then 0 else (if LosesMessage(ts[0]) then 1 else 0) + Losses(ts[1..])
  }

  ghost function Completions(p: Policy, c: Config, s: State, ts: seq<Step>): nat
    requires Run(p, c, s, ts)
    decreases |ts|
  {
    if |ts| == 0 then 0
    else (if FinishesMessage(s, ts[0]) then 1 else 0) + Completions(p, c, Apply(c, s, ts[0]), ts[1..])
  }

  lemma {:induction false} PublishedIsCounted(p: Policy, c: Config, s: State, ts: seq<Step>)
    requires Run(p, c, s, ts)
    ensures End(p, c, s, ts).tally.published == s.tally.published + Publications(ts)
    decreases |ts|
  {
    if |ts| == 0 {
    } else {
      StepPublishes(c, s, ts[0]);
      PublishedIsCounted(p, c, Apply(c, s, ts[0]), ts[1..]);
    }
  }

  lemma {:induction false} FinishedIsCounted(p: Policy, c: Config, s: State, ts: seq<Step>)
    requires Run(p, c, s, ts)
    ensures End(p, c, s, ts).tally.finished == s.tally.finished + Completions(p, c, s, ts)
    decreases |ts|
  {
    if |ts| == 0 {
    } else {
      StepFinishes(c, s, ts[0]);
      FinishedIsCounted(p, c, Apply(c, s, ts[0]), ts[1..]);
    }
  }

  lemma {:induction false} LostIsCounted(p: Policy, c: Config, s: State, ts: seq<Step>)
    requires Run(p, c, s, ts)
    ensures End(p, c, s, ts).tally.lost == s.tally.lost + Losses(ts)
    decreases |ts|
  {
    if |ts| == 0 {
    } else {
      StepLoses(c, s, ts[0]);
      LostIsCounted(p, c, Apply(c, s, ts[0]), ts[1..]);
    }
  }

  /**
   * Message conservation, in any environment: what the run published, less what it lost and what
   * it finished, is what is queued, in hand or dead; and no message is there twice.
   */
  lemma MessagesAreConserved(c: Config, n: nat, ts: seq<Step>)
    requires Run(ANYTHING, c, Start(n), ts)
    ensures Balanced(End(ANYTHING, c, Start(n), ts))
    ensures var s := End(ANYTHING, c, Start(n), ts);
      Publications(ts) - Losses(ts) - Completions(ANYTHING, c, Start(n), ts)
      == |s.queue| + BusyCount(s.workers) + |s.dead|
    ensures OneMessageEach(End(ANYTHING, c, Start(n), ts))
    ensures MessagesHaveOrders(End(ANYTHING, c, Start(n), ts))
  {
    Reachable(ANYTHING, c, n, ts);
    NobodyBusyAtStart(n);
    RunBalances(ANYTHING, c, Start(n), ts);
    PublishedIsCounted(ANYTHING, c, Start(n), ts);
    FinishedIsCounted(ANYTHING, c, Start(n), ts);
    LostIsCounted(ANYTHING, c, Start(n), ts);
    AgreementMeansOneEach(End(ANYTHING, c, Start(n), ts));
    AgreementMeansOrders(End(ANYTHING, c, Start(n), ts));
  }

  /** A worker leaves its loop only between messages; anything else is its process dying. */
  lemma WorkersLeaveEmptyHanded(c: Config, s: State, t: Step, w: nat)
    requires Enabled(s, t) && w < |s.workers| && w < |Apply(c, s, t).workers|
    requires !s.workers[w].Stopped? && Apply(c, s, t).workers[w].Stopped?
    ensures t == Leave(w) || t == Crash(w)
    ensures t == Leave(w) ==> s.workers[w].Waiting?
  {
    if t.ByWorker() {
      WorkerBalances(c, s, t);
    } else {
      RequestsMoveNoWorker(c, s, t);
    }
  }

  lemma RequestsMoveNoWorker(c: Config, s: State, t: Step)
    requires Enabled(s, t) && !t.ByWorker()
    ensures Apply(c, s, t).workers == s.workers
  {
  }

  // ---- The retry budget ----

  ghost predicate WithinBudget(c: Config, s: State) {
    && (forall k :: 0 <= k < |s.queue| ==> 0 <= s.queue[k].retryCount <= c.maxRetries)
    && (forall k :: 0 <= k < |s.dead| ==> s.dead[k].retryCount == c.maxRetries)
    && (forall k :: 0 <= k < |s.workers| && s.workers[k].Busy() ==>
          && 0 <= s.workers[k].msg.retryCount <= c.maxRetries
          && s.workers[k].msg.orderId in s.lives
          && s.lives[s.workers[k].msg.orderId].attempts == s.workers[k].msg.retryCount + 1)
    && (forall k :: 0 <= k < |s.dead| ==>
          s.dead[k].orderId in s.lives && s.lives[s.dead[k].orderId].attempts == c.maxRetries + 1)
    && (forall id :: id in s.lives ==> s.lives[id].attempts <= c.maxRetries + 1)
  }

  lemma InvMeansBudget(p: Policy, c: Config, s: State)
    requires Inv(p, c, s)
    ensures WithinBudget(c, s)
  {
    forall k | 0 <= k < |s.queue| ensures 0 <= s.queue[k].retryCount <= c.maxRetries {
      assert At(s.lives, s.queue[k].orderId, Queued(s.queue[k])) && SoloInv(p, c, The(s, s.queue[k].orderId));
    }
    forall k | 0 <= k < |s.dead|
      ensures s.dead[k].retryCount == c.maxRetries
      ensures s.dead[k].orderId in s.lives && s.lives[s.dead[k].orderId].attempts == c.maxRetries + 1
    {
      assert At(s.lives, s.dead[k].orderId, Dead(s.dead[k])) && SoloInv(p, c, The(s, s.dead[k].orderId));
    }
    forall k | 0 <= k < |s.workers| && s.workers[k].Busy()
      ensures 0 <= s.workers[k].msg.retryCount <= c.maxRetries
      ensures s.workers[k].msg.orderId in s.lives
      ensures s.lives[s.workers[k].msg.orderId].attempts == s.workers[k].msg.retryCount + 1
    {
      HolderIsAlone(s, k);
      assert SoloInv(p, c, The(s, s.workers[k].msg.orderId));
    }
    forall id | id in s.lives ensures s.lives[id].attempts <= c.maxRetries + 1 {
      assert SoloInv(p, c, The(s, id));
    }
  }

  /**
   * A queued message has retries left or is on its last one, a message in hand is on attempt
   * RetryCount + 1, a dead letter has used up exactly the budget, and no order is ever attempted
   * more than maxRetries + 1 times.
   */
  lemma RetryBudget(c: Config, n: nat, ts: seq<Step>)
    requires Run(ANYTHING, c, Start(n), ts)
    ensures WithinBudget(c, End(ANYTHING, c, Start(n), ts))
  {
    Reachable(ANYTHING, c, n, ts);
    InvMeansBudget(ANYTHING, c, End(ANYTHING, c, Start(n), ts));
  }

  // ---- Lifecycle ----

  /** The status that a step writes to a stored order, if it writes one. */
  function StatusWrite(s: State, t: Step, id: Uuid): seq<Status>
    requires Enabled(s, t)
  {
    match t
    case Commit(order, _, outcome) => if order.id == id && outcome != CleanError then [order.status] else []
    case Write(x, to, _, outcome) => if x == id && id in s.orders && outcome != CleanError then [to] else []
    case Claim(w, _, outcome) =>
      if s.workers[w].msg.orderId == id && id in s.orders && outcome != CleanError then [Processing] else []
    case Record(w, _, outcome) =>
      if s.workers[w].msg.orderId == id && id in s.orders && outcome != CleanError
      then [if s.workers[w].approved then Paid else Failed]
      else []
    case _ => []
  }

  /** The status of an order after a write, if there is one, and its old status otherwise. */
  predicate StatusAfter(orders: map<Uuid, Order>, orders': map<Uuid, Order>, id: Uuid, write: seq<Status>) {
    if write != [] then id in orders' && orders'[id].status == write[0]
    else (id in orders' <==> id in orders) && (id in orders ==> orders'[id].status == orders[id].status)
  }

  lemma ClaimWrites(s: State, w: nat, now: int, outcome: Outcome, id: Uuid)
    requires Enabled(s, Claim(w, now, outcome))
    ensures StatusAfter(s.orders, ClaimStep(s, w, now, outcome).orders, id, StatusWrite(s, Claim(w, now, outcome), id))
  {
  }

  lemma RecordWrites(s: State, w: nat, now: int, outcome: Outcome, id: Uuid)
    requires Enabled(s, Record(w, now, outcome))
    ensures StatusAfter(s.orders, RecordStep(s, w, now, outcome).orders, id,
                        StatusWrite(s, Record(w, now, outcome), id))
  {
  }

  lemma CommitWrites(s: State, order: Order, items: seq<Item>, outcome: Outcome, id: Uuid)
    requires Enabled(s, Commit(order, items, outcome))
    ensures StatusAfter(s.orders, CommitStep(s, order, items, outcome).orders, id,
                        StatusWrite(s, Commit(order, items, outcome), id))
  {
  }

  lemma RequestWrites(s: State, x: Uuid, to: Status, now: int, outcome: Outcome, id: Uuid)
    requires Enabled(s, Write(x, to, now, outcome))
    ensures StatusAfter(s.orders, WriteStep(s, x, to, now, outcome).orders, id,
                        StatusWrite(s, Write(x, to, now, outcome), id))
  {
  }

  /** These are all the status writes there are: the store shows the last one. */
  lemma StoreShowsLastWrite(c: Config, s: State, t: Step, id: Uuid)
    requires Enabled(s, t)
    ensures StatusAfter(s.orders, Apply(c, s, t).orders, id, StatusWrite(s, t, id))
  {
    match t
    case Claim(w, now, outcome) => ClaimWrites(s, w, now, outcome, id);
    case Record(w, now, outcome) => RecordWrites(s, w, now, outcome, id);
    case Commit(order, items, outcome) => CommitWrites(s, order, items, outcome, id);
    case Write(x, to, now, outcome) => RequestWrites(s, x, to, now, outcome, id);
    case _ =>
      if t.ByWorker() {
        WorkerLeaves(c, s, t);
      }
  }

  /** Every status that a run writes to an order, in order. */
  ghost function StatusWrites(p: Policy, c: Config, s: State, ts: seq<Step>, id: Uuid): seq<Status>
    requires Run(p, c, s, ts)
    decreases |ts|
  {
    if |ts| == 0 then []
    else StatusWrite(s, ts[0], id) + StatusWrites(p, c, Apply(c, s, ts[0]), ts[1..], id)
  }

  function Last(writes: seq<Status>): seq<Status> {
    if writes == [] then [] else [writes[|writes| - 1]]
  }

  /** After any run, from any state, the store shows the last status that the run wrote. */
  lemma {:induction false} StatusIsLastWrite(p: Policy, c: Config, s: State, ts: seq<Step>, id: Uuid)
    requires Run(p, c, s, ts)
    ensures StatusAfter(s.orders, End(p, c, s, ts).orders, id, Last(StatusWrites(p, c, s, ts, id)))
    decreases |ts|
  {
    if |ts| == 0 {
    } else {
      StoreShowsLastWrite(c, s, ts[0], id);
      StatusIsLastWrite(p, c, Apply(c, s, ts[0]), ts[1..], id);
      LaterWriteWins(s.orders, Apply(c, s, ts[0]).orders, End(p, c, s, ts).orders, id,
                     StatusWrite(s, ts[0], id), StatusWrites(p, c, Apply(c, s, ts[0]), ts[1..], id));
    }
  }

  lemma LaterWriteWins(before: map<Uuid, Order>, between: map<Uuid, Order>, after: map<Uuid, Order>, id: Uuid,
                       write: seq<Status>, writes: seq<Status>)
    requires StatusAfter(before, between, id, write) && |write| <= 1
    requires StatusAfter(between, after, id, Last(writes))
    ensures StatusAfter(before, after, id, Last(write + writes))
  {
  }

  function SoloWrite(x: Solo, t: Step): seq<Status>
    requires SoloEnabled(x.life, t)
  {
    match t
    case Write(_, to, _, outcome) => if outcome != CleanError then [to] else []
    case Claim(_, _, outcome) => if outcome != CleanError then [Processing] else []
    case Record(_, _, outcome) =>
      if outcome != CleanError then [if x.life.phase.worker.approved then Paid else Failed] else []
    case _ => []
  }

  lemma TrailRecordsWrites(c: Config, x: Solo, t: Step)
    requires SoloEnabled(x.life, t)
    ensures SoloStep(c, x, t).life.trail == x.life.trail + SoloWrite(x, t)
  {
  }

  function Trail(s: State, id: Uuid): seq<Status> {
    if id in s.lives then s.lives[id].trail else []
  }

  lemma ChangeExtendsTrail(s: State, s': State, subject: Uuid, x: Solo, write: seq<Status>, id: Uuid)
    requires Known(s, subject) && Becomes(s, s', subject, x)
    requires x.life.trail == s.lives[subject].trail + write
    ensures Trail(s', id) == Trail(s, id) + if id == subject then write else []
  {
  }

  lemma CommitStartsTrail(s: State, order: Order, items: seq<Item>, outcome: Outcome, id: Uuid)
    requires order.id !in s.lives && order.status == Created
    ensures Trail(CommitStep(s, order, items, outcome), id)
         == Trail(s, id) + if order.id == id && outcome != CleanError then [Created] else []
  {
  }

  lemma WritesMatch(s: State, t: Step, x: Solo, id: Uuid)
    requires Enabled(s, t) && Moves(t) && Known(s, Subject(s, t)) && SoloEnabled(x.life, t)
    requires t.ByWorker() && !t.Take? ==> x.life.phase == InHand(t.w, s.workers[t.w])
    ensures StatusWrite(s, t, id) == if id == Subject(s, t) then SoloWrite(x, t) else []
  {
  }

  lemma SubjectIsWritten(p: Policy, c: Config, s: State, t: Step, id: Uuid)
    requires Inv(p, c, s) && Allowed(p, s, t) && Moves(t)
    ensures Known(s, Subject(s, t)) && SoloEnabled(s.lives[Subject(s, t)], t)
    ensures StatusWrite(s, t, id) == if id == Subject(s, t) then SoloWrite(The(s, id), t) else []
  {
    AllowedProjects(p, c, s, t);
    if t.ByWorker() && !t.Take? {
      SubjectInHand(s, t);
    }
    WritesMatch(s, t, The(s, Subject(s, t)), id);
  }

  lemma MoveExtendsTrail(p: Policy, c: Config, s: State, t: Step, id: Uuid)
    requires Inv(p, c, s) && Allowed(p, s, t) && Moves(t)
    ensures Trail(Apply(c, s, t), id) == Trail(s, id) + StatusWrite(s, t, id)
  {
    var subject := Subject(s, t);
    AllowedProjects(p, c, s, t);
    StepProjects(c, s, t);
    SubjectIsWritten(p, c, s, t, id);
    TrailRecordsWrites(c, The(s, subject), t);
    ChangeExtendsTrail(s, Apply(c, s, t), subject, SoloStep(c, The(s, subject), t),
                       SoloWrite(The(s, subject), t), id);
  }

  lemma StepExtendsTrail(p: Policy, c: Config, s: State, t: Step, id: Uuid)
    requires Inv(p, c, s) && Allowed(p, s, t)
    ensures Trail(Apply(c, s, t), id) == Trail(s, id) + StatusWrite(s, t, id)
  {
    if Moves(t) {
      MoveExtendsTrail(p, c, s, t, id);
    } else if t.Commit? {
      CommitStartsTrail(s, t.order, t.items, t.outcome, id);
    }
  }

  lemma WritesJoin(before: seq<Status>, write: seq<Status>, between: seq<Status>,
                   writes: seq<Status>, after: seq<Status>)
    requires between == before + write && after == between + writes
    ensures after == before + (write + writes)
  {
  }

  /** The recorded history of an order is the list of all status writes to it. */
  lemma {:induction false} TrailIsStatusWrites(p: Policy, c: Config, s: State, ts: seq<Step>, id: Uuid)
    requires Inv(p, c, s) && Run(p, c, s, ts)
    ensures Trail(End(p, c, s, ts), id) == Trail(s, id) + StatusWrites(p, c, s, ts, id)
    decreases |ts|
  {
    if |ts| == 0 {
    } else {
      StepExtendsTrail(p, c, s, ts[0], id);
      StepKeepsInv(p, c, s, ts[0]);
      TrailIsStatusWrites(p, c, Apply(c, s, ts[0]), ts[1..], id);
      WritesJoin(Trail(s, id), StatusWrite(s, ts[0], id), Trail(Apply(c, s, ts[0]), id),
                 StatusWrites(p, c, Apply(c, s, ts[0]), ts[1..], id), Trail(End(p, c, s, ts), id));
    }
  }

  /** From a fresh start the history is everything that the run ever wrote. */
  lemma HistoryOf(p: Policy, c: Config, n: nat, ts: seq<Step>, id: Uuid)
    requires Run(p, c, Start(n), ts) && Coherent(p)
    ensures StatusWrites(p, c, Start(n), ts, id) == Trail(End(p, c, Start(n), ts), id)
    ensures Inv(p, c, End(p, c, Start(n), ts))
  {
    Reachable(p, c, n, ts);
    TrailIsStatusWrites(p, c, Start(n), ts, id);
  }

  /**
   * As long as no Cancel or Ship lands on a stale check, every status write, the unchecked
   * MarkProcessed writes included, follows the transition table: the statuses written to an order
   * are a path from Created of strictly rising rank with at most three writes after the first.
   */
  lemma LifecycleIsSafe(c: Config, n: nat, ts: seq<Step>, id: Uuid)
    requires Run(CALM, c, Start(n), ts)
    requires id in End(CALM, c, Start(n), ts).orders
    ensures var s := End(CALM, c, Start(n), ts);
            var writes := StatusWrites(CALM, c, Start(n), ts, id);
      && id in s.lives && s.lives[id].trail == writes
      && IsPath(writes)
      && writes[|writes| - 1] == s.orders[id].status
      && |writes| <= 4
      && (forall i, j :: 0 <= i < j < |writes| ==> Rank(writes[i]) < Rank(writes[j]))
      && (s.orders[id].processedAt.Some? <==> Settled(s.orders[id].status))
  {
    HistoryOf(CALM, c, n, ts, id);
    var s := End(CALM, c, Start(n), ts);
    assert SoloInv(CALM, c, The(s, id));
    PathIsShort(s.lives[id].trail);
  }

  /** The status that a busy worker is about to write, if it gets to write. */
  ghost predicate NextWriteLegal(worker: Worker, order: Order) {
    && (InWindow(worker) ==> CanTransition(order.status, Processing))
    && (worker.Paying? || worker.Recording? ==>
          CanTransition(order.status, Paid) && CanTransition(order.status, Failed))
  }

  ghost predicate NextWritesLegal(s: State) {
    forall w :: 0 <= w < |s.workers| && s.workers[w].Busy() && s.workers[w].msg.orderId in s.orders ==>
      NextWriteLegal(s.workers[w], s.orders[s.workers[w].msg.orderId])
  }

  /**
   * Calm is exactly what an unguarded Cancel or Ship write needs: the write obeys the table and
   * leaves every worker's next write legal if and only if it finds the status it checked and,
   * for Cancel, no worker is between its own check and its write.
   */
  lemma CalmIsExact(c: Config, s: State, t: Step)
    requires Inv(CALM, c, s) && Enabled(s, t) && t.Write? && t.outcome != CleanError
    ensures CalmStep(s, t)
       <==> CanTransition(s.orders[t.id].status, t.to) && NextWritesLegal(Apply(c, s, t))
  {
    assert Request(t.id, t.to) in s.requests;
    if CalmStep(s, t) {
      CalmKeepsWritesLegal(c, s, t);
    } else {
      ContendedIsUnsafe(c, s, t);
    }
  }

  lemma ContendedIsUnsafe(c: Config, s: State, t: Step)
    requires Enabled(s, t) && t.Write? && t.outcome != CleanError && !CalmStep(s, t)
    requires t.id in s.orders && (t.to == Canceled || t.to == Shipped)
    ensures !CanTransition(s.orders[t.id].status, t.to) || !NextWritesLegal(Apply(c, s, t))
  {
  }

  lemma CalmKeepsWritesLegal(c: Config, s: State, t: Step)
    requires Inv(CALM, c, s) && Enabled(s, t) && t.Write? && CalmStep(s, t)
    ensures NextWritesLegal(Apply(c, s, t))
  {
    StepKeepsInv(CALM, c, s, t);
    InvMeansNextWritesLegal(CALM, c, Apply(c, s, t));
  }

  lemma InvMeansNextWritesLegal(p: Policy, c: Config, s: State)
    requires Inv(p, c, s) && p.calm
    ensures NextWritesLegal(s)
  {
    forall w | 0 <= w < |s.workers| && s.workers[w].Busy() && s.workers[w].msg.orderId in s.orders
      ensures NextWriteLegal(s.workers[w], s.orders[s.workers[w].msg.orderId])
    {
      HolderIsAlone(s, w);
      assert SoloInv(p, c, The(s, s.workers[w].msg.orderId));
    }
  }

  // ---- Orders as stored ----

  /** Order integrity, in any environment. */
  lemma OrdersStayIntegral(c: Config, n: nat, ts: seq<Step>, id: Uuid)
    requires Run(ANYTHING, c, Start(n), ts)
    requires id in End(ANYTHING, c, Start(n), ts).orders
    ensures var s := End(ANYTHING, c, Start(n), ts);
      && id != NIL_UUID
      && s.orders[id].id == id
      && id in s.items
      && |s.items[id]| > 0
      && (forall k :: 0 <= k < |s.items[id]| ==>
            && s.items[id][k].orderId == id
            && s.items[id][k].totalPrice == ItemTotal(s.items[id][k].unitPrice, s.items[id][k].quantity))
      && s.orders[id].total == Summed(Totals(s.items[id]))
  {
    Reachable(ANYTHING, c, n, ts);
    var s := End(ANYTHING, c, Start(n), ts);
    assert Consistent(s.orders[id], s.items[id]);
  }

  // ---- Dead letters ----

  lemma DeadOnlyGrows(c: Config, s: State, t: Step)
    requires Enabled(s, t)
    ensures s.dead <= Apply(c, s, t).dead
  {
    if t.ByWorker() {
      WorkerLeaves(c, s, t);
    }
  }

  lemma {:induction false} DeadStayDead(p: Policy, c: Config, s: State, ts: seq<Step>)
    requires Run(p, c, s, ts)
    ensures s.dead <= End(p, c, s, ts).dead
    decreases |ts|
  {
    if |ts| == 0 {
    } else {
      DeadOnlyGrows(c, s, ts[0]);
      DeadStayDead(p, c, Apply(c, s, ts[0]), ts[1..]);
    }
  }

  lemma RunCons(p: Policy, c: Config, s: State, t: Step, rest: seq<Step>)
    requires Allowed(p, s, t) && Run(p, c, Apply(c, s, t), rest)
    ensures Run(p, c, s, [t] + rest)
    ensures End(p, c, s, [t] + rest) == End(p, c, Apply(c, s, t), rest)
  {
    assert ([t] + rest)[1..] == rest;
  }

  /** Two steps in a row, and where they end. */
  lemma TwoSteps(p: Policy, c: Config, s: State, t: Step, u: Step) returns (s1: State, s2: State)
    requires Allowed(p, s, t) && Allowed(p, Apply(c, s, t), u)
    ensures s1 == Apply(c, s, t) && s2 == Apply(c, s1, u)
    ensures Run(p, c, s, [t, u]) && End(p, c, s, [t, u]) == s2
  {
    s1 := Apply(c, s, t);
    s2 := Apply(c, s1, u);
    RunCons(p, c, s1, u, []);
    RunCons(p, c, s, t, [u]);
  }

  lemma SplitHead(ts: seq<Step>, us: seq<Step>)
    requires |ts| > 0
    ensures [ts[0]] + (ts[1..] + us) == ts + us
  {
  }

  lemma {:induction false} RunsCompose(p: Policy, c: Config, s: State, ts: seq<Step>, us: seq<Step>)
    requires Run(p, c, s, ts) && Run(p, c, End(p, c, s, ts), us)
    ensures Run(p, c, s, ts + us)
    ensures End(p, c, s, ts + us) == End(p, c, End(p, c, s, ts), us)
    decreases |ts|
  {
    if |ts| == 0 {
      assert ts + us == us;
    } else {
      SplitHead(ts, us);
      var t, rest := ts[0], ts[1..];
      RunsCompose(p, c, Apply(c, s, t), rest, us);
      RunCons(p, c, s, t, rest + us);
    }
  }

  /**
   * As long as no MarkProcessed takes effect and still reports an error, an order in the dead-letter
   * list is not Paid, Failed or Shipped, neither then nor in any later state.
   */
  lemma SettledOrdersAreNeverDead(c: Config, n: nat, ts: seq<Step>, later: seq<Step>, k: nat)
    requires Run(RECORDED, c, Start(n), ts)
    requires Run(RECORDED, c, End(RECORDED, c, Start(n), ts), later)
    requires k < |End(RECORDED, c, Start(n), ts).dead|
    ensures var id := End(RECORDED, c, Start(n), ts).dead[k].orderId;
            var s := End(RECORDED, c, End(RECORDED, c, Start(n), ts), later);
      id in s.orders && !Settled(s.orders[id].status)
  {
    var mid := End(RECORDED, c, Start(n), ts);
    var s := End(RECORDED, c, mid, later);
    Reachable(RECORDED, c, n, ts);
    RunKeepsInv(RECORDED, c, mid, later);
    DeadStayDead(RECORDED, c, mid, later);
    assert s.dead[k] == mid.dead[k];
    assert At(s.lives, s.dead[k].orderId, Dead(s.dead[k]));
    assert SoloInv(RECORDED, c, The(s, s.dead[k].orderId));
  }

  /** The message of a Paid, Failed or Shipped order is done with. */
  ghost predicate SettledAreDone(s: State) {
    forall id :: Known(s, id) && Settled(s.orders[id].status) ==> s.lives[id].phase == Finished
  }

  lemma InvMeansSettledAreDone(c: Config, s: State)
    requires Inv(RECORDED, c, s)
    ensures SettledAreDone(s)
  {
  }

  lemma DirtyRecordEffect(s: State, w: nat, now: int, id: Uuid)
    requires w < |s.workers| && s.workers[w].Recording? && id == s.workers[w].msg.orderId && Known(s, id)
    ensures var s' := RecordStep(s, w, now, DirtyError);
      Known(s', id) && Settled(s'.orders[id].status) && s'.lives[id].phase != Finished
  {
  }

  /**
   * That condition is exact: a MarkProcessed call keeps the messages of settled orders out of the
   * retry path if and only if it does not report an error after taking effect.
   */
  lemma RecordedIsExact(c: Config, s: State, w: nat, now: int, outcome: Outcome)
    requires Inv(RECORDED, c, s) && Enabled(s, Record(w, now, outcome))
    ensures outcome != DirtyError <==> SettledAreDone(Apply(c, s, Record(w, now, outcome)))
  {
    if outcome == DirtyError {
      HolderIsAlone(s, w);
      DirtyRecordEffect(s, w, now, s.workers[w].msg.orderId);
    } else {
      StepKeepsInv(RECORDED, c, s, Record(w, now, outcome));
      InvMeansSettledAreDone(c, Apply(c, s, Record(w, now, outcome)));
    }
  }
}
