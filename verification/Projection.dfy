/**
 * Orders do not interfere: whatever the other workers and requests do, the pipeline changes each
 * order exactly as the automaton of that order alone would. The invariant of the whole system is
 * therefore the invariant of its orders one by one.
 */
module Projection {
  import opened Basics
  import opened OrderModel
  import opened Pipeline
  import opened Places
  import opened OneOrder

  /** The order a step is about. */
  function Subject(s: State, t: Step): Uuid
    requires Enabled(s, t)
  {
    match t
    case Commit(order, _, _) => order.id
    case Publish(id, _) => id
    case Check(id, _) => id
    case Write(id, _, _, _) => id
    case Take(_) => s.queue[0].orderId
    case Leave(_) => NIL_UUID
    case _ => s.workers[t.w].msg.orderId
  }

  predicate Known(s: State, id: Uuid) {
    id in s.orders && id in s.lives
  }

  function The(s: State, id: Uuid): Solo
    requires Known(s, id)
  {
    Solo(s.orders[id], s.lives[id])
  }

  /** Only the order id differs, and it is now x. */
  ghost predicate Becomes(s: State, s': State, id: Uuid, x: Solo) {
    && s'.orders == s.orders[id := x.order]
    && s'.lives == s.lives[id := x.life]
    && s'.items == s.items
  }

  predicate Moves(t: Step) {
    !t.Commit? && !t.Check? && !t.Leave?
  }

  lemma Untouched(s: State, id: Uuid)
    requires Known(s, id)
    ensures s.orders == s.orders[id := s.orders[id]]
    ensures s.lives == s.lives[id := s.lives[id]]
  {
  }

  /** The pipeline's step from s to s' is the step t of the order id, and touches no other. */
  ghost predicate Projects(c: Config, s: State, s': State, id: Uuid, t: Step) {
    && Known(s, id)
    && SoloEnabled(s.lives[id], t)
    && Becomes(s, s', id, SoloStep(c, The(s, id), t))
  }

  lemma PublishProjects(c: Config, s: State, id: Uuid, outcome: Outcome)
    requires Agreement(s) && id in s.publishing && Known(s, id)
    ensures Projects(c, s, PublishStep(s, id, outcome), id, Publish(id, outcome))
  {
    assert At(s.lives, id, Publishing);
    Untouched(s, id);
  }

  lemma WriteProjects(c: Config, s: State, id: Uuid, to: Status, now: int, outcome: Outcome)
    requires Known(s, id) && (to == Canceled || to == Shipped)
    ensures Projects(c, s, WriteStep(s, id, to, now, outcome), id, Write(id, to, now, outcome))
  {
    Untouched(s, id);
  }

  lemma TakeProjects(c: Config, s: State, w: nat)
    requires Agreement(s) && w < |s.workers| && s.queue != []
    ensures Projects(c, s, TakeStep(s, w), s.queue[0].orderId, Take(w))
  {
    assert At(s.lives, s.queue[0].orderId, Queued(s.queue[0]));
    Untouched(s, s.queue[0].orderId);
  }

  lemma LoadProjects(c: Config, s: State, w: nat, outcome: Outcome)
    requires Agreement(s) && w < |s.workers| && s.workers[w].Fetched?
    ensures Projects(c, s, LoadStep(s, w, outcome), s.workers[w].msg.orderId, Load(w, outcome))
  {
    HolderIsAlone(s, w);
    Untouched(s, s.workers[w].msg.orderId);
  }

  lemma ScreenProjects(c: Config, s: State, w: nat, outcome: Outcome)
    requires Agreement(s) && w < |s.workers| && s.workers[w].Checked?
    ensures Projects(c, s, ScreenStep(c, s, w, outcome), s.workers[w].msg.orderId, Screen(w, outcome))
  {
    HolderIsAlone(s, w);
    Untouched(s, s.workers[w].msg.orderId);
  }

  lemma ClaimProjects(c: Config, s: State, w: nat, now: int, outcome: Outcome)
    requires Agreement(s) && w < |s.workers| && s.workers[w].Claiming?
    ensures Projects(c, s, ClaimStep(s, w, now, outcome), s.workers[w].msg.orderId, Claim(w, now, outcome))
  {
    HolderIsAlone(s, w);
    Untouched(s, s.workers[w].msg.orderId);
  }

  lemma PayProjects(c: Config, s: State, w: nat, approved: bool)
    requires Agreement(s) && w < |s.workers| && s.workers[w].Paying?
    ensures Projects(c, s, PayStep(s, w, approved), s.workers[w].msg.orderId, Pay(w, approved))
  {
    HolderIsAlone(s, w);
    Untouched(s, s.workers[w].msg.orderId);
  }

  lemma RecordFailureProjects(c: Config, s: State, w: nat, now: int, outcome: Outcome)
    requires Agreement(s) && w < |s.workers| && s.workers[w].Recording? && outcome != Done
    ensures Projects(c, s, RecordStep(s, w, now, outcome), s.workers[w].msg.orderId, Record(w, now, outcome))
  {
    HolderIsAlone(s, w);
    Untouched(s, s.workers[w].msg.orderId);
  }

  lemma RecordSuccessProjects(c: Config, s: State, w: nat, now: int)
    requires Agreement(s) && w < |s.workers| && s.workers[w].Recording?
    ensures Projects(c, s, RecordStep(s, w, now, Done), s.workers[w].msg.orderId, Record(w, now, Done))
  {
    HolderIsAlone(s, w);
  }

  lemma RecordProjects(c: Config, s: State, w: nat, now: int, outcome: Outcome)
    requires Agreement(s) && w < |s.workers| && s.workers[w].Recording?
    ensures Projects(c, s, RecordStep(s, w, now, outcome), s.workers[w].msg.orderId, Record(w, now, outcome))
  {
    if outcome == Done {
      RecordSuccessProjects(c, s, w, now);
    } else {
      RecordFailureProjects(c, s, w, now, outcome);
    }
  }

  lemma RequeueProjects(c: Config, s: State, w: nat, outcome: Outcome)
    requires Agreement(s) && w < |s.workers| && s.workers[w].Failing?
    requires outcome != CleanError && s.workers[w].msg.retryCount < c.maxRetries
    ensures Projects(c, s, RetryStep(c, s, w, outcome), s.workers[w].msg.orderId, Retry(w, outcome))
  {
    HolderIsAlone(s, w);
    Untouched(s, s.workers[w].msg.orderId);
  }

  lemma GiveUpProjects(c: Config, s: State, w: nat, outcome: Outcome)
    requires Agreement(s) && w < |s.workers| && s.workers[w].Failing?
    requires outcome == CleanError || s.workers[w].msg.retryCount >= c.maxRetries
    ensures Projects(c, s, RetryStep(c, s, w, outcome), s.workers[w].msg.orderId, Retry(w, outcome))
  {
    HolderIsAlone(s, w);
    Untouched(s, s.workers[w].msg.orderId);
  }

  lemma RetryProjects(c: Config, s: State, w: nat, outcome: Outcome)
    requires Agreement(s) && w < |s.workers| && s.workers[w].Failing?
    ensures Projects(c, s, RetryStep(c, s, w, outcome), s.workers[w].msg.orderId, Retry(w, outcome))
  {
    if outcome != CleanError && s.workers[w].msg.retryCount < c.maxRetries {
      RequeueProjects(c, s, w, outcome);
    } else {
      GiveUpProjects(c, s, w, outcome);
    }
  }

  lemma CrashProjects(c: Config, s: State, w: nat)
    requires Agreement(s) && w < |s.workers| && s.workers[w].Busy()
    ensures Projects(c, s, Dropped(s, w, Stopped), s.workers[w].msg.orderId, Crash(w))
  {
    HolderIsAlone(s, w);
    Untouched(s, s.workers[w].msg.orderId);
  }

  /** The step of the pipeline is the step of the one order it is about. */
  lemma StepProjects(c: Config, s: State, t: Step)
    requires Agreement(s) && Enabled(s, t) && Moves(t)
    requires t.Write? ==> Known(s, t.id) && (t.to == Canceled || t.to == Shipped)
    ensures Projects(c, s, Apply(c, s, t), Subject(s, t), t)
  {
    match t
    case Publish(id, outcome) => PublishProjects(c, s, id, outcome);
    case Write(id, to, now, outcome) => WriteProjects(c, s, id, to, now, outcome);
    case Take(w) => TakeProjects(c, s, w);
    case Load(w, outcome) => LoadProjects(c, s, w, outcome);
    case Screen(w, outcome) => ScreenProjects(c, s, w, outcome);
    case Claim(w, now, outcome) => ClaimProjects(c, s, w, now, outcome);
    case Pay(w, approved) => PayProjects(c, s, w, approved);
    case Record(w, now, outcome) => RecordProjects(c, s, w, now, outcome);
    case Retry(w, outcome) => RetryProjects(c, s, w, outcome);
    case Crash(w) => CrashProjects(c, s, w);
  }

  // ---- The invariant of the system ----

  ghost predicate OrdersInv(p: Policy, c: Config, s: State) {
    forall id :: Known(s, id) ==> SoloInv(p, c, The(s, id))
  }

  ghost predicate ItemsInv(s: State) {
    forall id :: id in s.orders && id in s.items ==> Consistent(s.orders[id], s.items[id])
  }

  /** Every pending request is about a stored order, which is still fit for its write. */
  ghost predicate RequestsInv(p: Policy, requests: multiset<Request>, s: State) {
    forall r :: r in requests ==>
      && (r.to == Canceled || r.to == Shipped)
      && Known(s, r.id)
      && (p.simulated ==> r.to == Shipped)
      && (r.to == Shipped ==> Shippable(p, The(s, r.id)))
  }

  /** The stronger virtues come with the weaker ones. */
  predicate Coherent(p: Policy) {
    (p.simulated ==> p.recorded && p.patient) && (p.calm ==> p.patient)
  }

  ghost predicate Inv(p: Policy, c: Config, s: State) {
    Coherent(p) && Agreement(s) && OrdersInv(p, c, s) && ItemsInv(s) && RequestsInv(p, s.requests, s)
  }

  /** The worker that a step moves holds its subject. */
  lemma SubjectInHand(s: State, t: Step)
    requires Agreement(s) && Enabled(s, t) && t.ByWorker() && !t.Take? && !t.Leave?
    ensures Known(s, Subject(s, t)) && s.lives[Subject(s, t)].phase == InHand(t.w, s.workers[t.w])
  {
    HolderIsAlone(s, t.w);
  }

  /** What the policy grants for the system, it grants for the order concerned. */
  lemma AllowedProjects(p: Policy, c: Config, s: State, t: Step)
    requires Inv(p, c, s) && Allowed(p, s, t) && Moves(t)
    ensures t.Write? ==> Known(s, t.id) && (t.to == Canceled || t.to == Shipped)
    ensures Known(s, Subject(s, t)) && SoloAllowed(p, The(s, Subject(s, t)), t)
  {
    if t.Write? {
      assert Request(t.id, t.to) in s.requests;
    }
    StepProjects(c, s, t);
    if t.ByWorker() && !t.Take? {
      SubjectInHand(s, t);
    }
  }

  /** Only one order changed, and it kept what it is about. */
  lemma ChangeKeepsOrders(p: Policy, c: Config, s: State, s': State, id: Uuid, x: Solo)
    requires OrdersInv(p, c, s) && ItemsInv(s)
    requires Known(s, id) && Becomes(s, s', id, x) && SoloInv(p, c, x)
    requires x.order.id == s.orders[id].id && x.order.total == s.orders[id].total
    ensures OrdersInv(p, c, s') && ItemsInv(s')
  {
    forall y | Known(s', y) ensures SoloInv(p, c, The(s', y)) {
      if y != id {
        assert Known(s, y) && The(s', y) == The(s, y);
      }
    }
    forall y | y in s'.orders && y in s'.items ensures Consistent(s'.orders[y], s'.items[y]) {
      assert Consistent(s.orders[y], s.items[y]);
    }
  }

  lemma MoveKeepsOrders(p: Policy, c: Config, s: State, t: Step)
    requires Inv(p, c, s) && Allowed(p, s, t) && Moves(t)
    ensures OrdersInv(p, c, Apply(c, s, t))
    ensures ItemsInv(Apply(c, s, t))
  {
    var id := Subject(s, t);
    AllowedProjects(p, c, s, t);
    StepProjects(c, s, t);
    StepKeepsSolo(p, c, The(s, id), t);
    SoloKeepsTotal(c, The(s, id), t);
    ChangeKeepsOrders(p, c, s, Apply(c, s, t), id, SoloStep(c, The(s, id), t));
  }

  /** No step rewrites what an order is about. */
  lemma SoloKeepsTotal(c: Config, x: Solo, t: Step)
    requires SoloEnabled(x.life, t)
    ensures SoloStep(c, x, t).order
         == x.order.(status := SoloStep(c, x, t).order.status,
                     updatedAt := SoloStep(c, x, t).order.updatedAt,
                     processedAt := SoloStep(c, x, t).order.processedAt)
  {
  }

  lemma NewOrderInv(p: Policy, c: Config, order: Order, items: seq<Item>, outcome: Outcome)
    requires Coherent(p) && NewOrder(order, items) && outcome != CleanError
    requires p.simulated ==> outcome == Done
    ensures SoloInv(p, c, Solo(order, Life(if outcome == Done then Publishing else Unsent, 0, 0, [Created])))
  {
  }

  lemma CommitKeepsItems(s: State, order: Order, items: seq<Item>, outcome: Outcome)
    requires ItemsInv(s) && NewOrder(order, items)
    ensures ItemsInv(CommitStep(s, order, items, outcome))
  {
  }

  lemma CommitKeepsOrders(p: Policy, c: Config, s: State, order: Order, items: seq<Item>, outcome: Outcome)
    requires Coherent(p) && OrdersInv(p, c, s) && order.id !in s.orders && NewOrder(order, items)
    requires p.simulated ==> outcome == Done
    ensures OrdersInv(p, c, CommitStep(s, order, items, outcome))
  {
    var s' := CommitStep(s, order, items, outcome);
    if outcome != CleanError {
      NewOrderInv(p, c, order, items, outcome);
      forall y | Known(s', y) ensures SoloInv(p, c, The(s', y)) {
        if y != order.id {
          assert Known(s, y) && The(s', y) == The(s, y);
        }
      }
    }
  }

  lemma StepKeepsOrders(p: Policy, c: Config, s: State, t: Step)
    requires Inv(p, c, s) && Allowed(p, s, t)
    ensures OrdersInv(p, c, Apply(c, s, t))
    ensures ItemsInv(Apply(c, s, t))
  {
    if Moves(t) {
      MoveKeepsOrders(p, c, s, t);
    } else if t.Commit? {
      CommitKeepsOrders(p, c, s, t.order, t.items, t.outcome);
      CommitKeepsItems(s, t.order, t.items, t.outcome);
    } else {
      var s' := Apply(c, s, t);
      assert s'.orders == s.orders && s'.items == s.items && s'.lives == s.lives;
      forall y | Known(s', y) ensures SoloInv(p, c, The(s', y)) {
        assert Known(s, y) && The(s', y) == The(s, y);
      }
    }
  }

  /** No order is forgotten, and one that is fit to be shipped stays fit. */
  ghost predicate StillShippable(p: Policy, s: State, s': State) {
    forall id :: Known(s, id) ==>
      Known(s', id) && (Shippable(p, The(s, id)) ==> Shippable(p, The(s', id)))
  }

  lemma ChangeStaysShippable(p: Policy, s: State, s': State, id: Uuid, x: Solo)
    requires Known(s, id) && Becomes(s, s', id, x) && (Shippable(p, The(s, id)) ==> Shippable(p, x))
    ensures StillShippable(p, s, s')
  {
  }

  lemma CommitStaysShippable(p: Policy, s: State, order: Order, items: seq<Item>, outcome: Outcome)
    requires order.id !in s.orders
    ensures StillShippable(p, s, CommitStep(s, order, items, outcome))
  {
  }

  lemma MoveKeepsShippable(p: Policy, c: Config, s: State, t: Step)
    requires Inv(p, c, s) && Allowed(p, s, t) && Moves(t)
    ensures StillShippable(p, s, Apply(c, s, t))
  {
    var id := Subject(s, t);
    AllowedProjects(p, c, s, t);
    StepProjects(c, s, t);
    if Shippable(p, The(s, id)) {
      StepStaysShippable(p, c, The(s, id), t);
    }
    ChangeStaysShippable(p, s, Apply(c, s, t), id, SoloStep(c, The(s, id), t));
  }

  lemma StepKeepsShippable(p: Policy, c: Config, s: State, t: Step)
    requires Inv(p, c, s) && Allowed(p, s, t)
    ensures StillShippable(p, s, Apply(c, s, t))
  {
    if Moves(t) {
      MoveKeepsShippable(p, c, s, t);
    } else if t.Commit? {
      CommitStaysShippable(p, s, t.order, t.items, t.outcome);
    }
  }

  lemma RequestsKept(p: Policy, requests: multiset<Request>, requests': multiset<Request>, s: State, s': State)
    requires RequestsInv(p, requests, s) && StillShippable(p, s, s')
    requires forall r :: r in requests' ==> r in requests
    ensures RequestsInv(p, requests', s')
  {
  }

  lemma CheckedIsFit(p: Policy, c: Config, s: State, id: Uuid, to: Status)
    requires OrdersInv(p, c, s) && Known(s, id) && s.orders[id].status == Required(to) && to == Shipped
    ensures Shippable(p, The(s, id))
  {
    assert SoloInv(p, c, The(s, id));
  }

  lemma CheckKeepsRequests(p: Policy, c: Config, s: State, id: Uuid, to: Status)
    requires Inv(p, c, s) && Allowed(p, s, Check(id, to))
    ensures RequestsInv(p, s.requests + multiset{Request(id, to)}, s)
  {
    if to == Shipped {
      CheckedIsFit(p, c, s, id, to);
    }
  }

  // ---- What the steps of a worker leave alone ----

  /** Nothing that requests and publications are about has changed. */
  predicate SameRequests(s: State, s': State) {
    s'.requests == s.requests && s'.publishing == s.publishing
  }

  /** The only ways to lose a message: its requeue or dead-letter call fails, or its worker dies. */
  predicate LosesMessage(t: Step) {
    t.Crash? || (t.Retry? && t.outcome == CleanError)
  }

  /** Process returns nil: nothing to do for this message, or its order is settled and recorded. */
  predicate FinishesMessage(s: State, t: Step)
    requires Enabled(s, t)
  {
    match t
    case Load(w, outcome) =>
      var id := s.workers[w].msg.orderId;
      id == NIL_UUID || (outcome == Done && (id !in s.orders || s.orders[id].status != Created))
    case Record(w, _, outcome) => outcome == Done && s.workers[w].msg.orderId in s.orders
    case _ => false
  }

  /** The metrics, the dead letters and the tally after a step of a worker. */
  predicate Leaves(s: State, s': State, metrics: Metrics, dead: seq<Message>, finished: bool, lost: bool) {
    && SameRequests(s, s')
    && s'.metrics == metrics
    && s'.dead == dead
    && s'.tally == s.tally.(finished := s.tally.finished + (if finished then 1 else 0),
                            lost := s.tally.lost + (if lost then 1 else 0))
  }

  lemma LoadLeaves(s: State, w: nat, outcome: Outcome)
    requires Enabled(s, Load(w, outcome))
    ensures Leaves(s, LoadStep(s, w, outcome), s.metrics, s.dead, FinishesMessage(s, Load(w, outcome)), false)
    ensures LoadStep(s, w, outcome).orders == s.orders
  {
  }

  lemma ClaimLeaves(s: State, w: nat, now: int, outcome: Outcome)
    requires Enabled(s, Claim(w, now, outcome))
    ensures Leaves(s, ClaimStep(s, w, now, outcome), s.metrics, s.dead, false, false)
  {
  }

  function MetricsAfter(s: State, t: Step): Metrics
    requires Enabled(s, t)
  {
    if t.Record? && FinishesMessage(s, t) then Counted(s.metrics, s.workers[t.w].approved) else s.metrics
  }

  lemma RecordLeaves(s: State, w: nat, now: int, outcome: Outcome)
    requires Enabled(s, Record(w, now, outcome))
    ensures var t := Record(w, now, outcome);
      Leaves(s, RecordStep(s, w, now, outcome), MetricsAfter(s, t), s.dead, FinishesMessage(s, t), false)
  {
  }

  function DeadAfter(c: Config, s: State, t: Step): seq<Message>
    requires Enabled(s, t)
  {
    if t.Retry? && t.outcome != CleanError && s.workers[t.w].msg.retryCount >= c.maxRetries
    then s.dead + [s.workers[t.w].msg]
    else s.dead
  }

  lemma RetryLeaves(c: Config, s: State, w: nat, outcome: Outcome)
    requires Enabled(s, Retry(w, outcome))
    ensures Leaves(s, RetryStep(c, s, w, outcome), s.metrics, DeadAfter(c, s, Retry(w, outcome)),
                   false, outcome == CleanError)
    ensures RetryStep(c, s, w, outcome).orders == s.orders
  {
  }

  lemma OthersLeave(c: Config, s: State, t: Step)
    requires Enabled(s, t) && (t.Take? || t.Leave? || t.Screen? || t.Pay? || t.Crash?)
    ensures Leaves(s, Apply(c, s, t), s.metrics, s.dead, false, t.Crash?)
    ensures Apply(c, s, t).orders == s.orders
  {
  }

  lemma WorkerLeaves(c: Config, s: State, t: Step)
    requires Enabled(s, t) && t.ByWorker()
    ensures Leaves(s, Apply(c, s, t), MetricsAfter(s, t), DeadAfter(c, s, t), FinishesMessage(s, t), LosesMessage(t))
    ensures !t.Claim? && !t.Record? ==> Apply(c, s, t).orders == s.orders
  {
    match t
    case Load(w, outcome) => LoadLeaves(s, w, outcome);
    case Claim(w, now, outcome) => ClaimLeaves(s, w, now, outcome);
    case Record(w, now, outcome) => RecordLeaves(s, w, now, outcome);
    case Retry(w, outcome) => RetryLeaves(c, s, w, outcome);
    case _ => OthersLeave(c, s, t);
  }

  lemma OnlyCheckAsks(c: Config, s: State, t: Step)
    requires Enabled(s, t) && !t.Check?
    ensures Apply(c, s, t).requests == if t.Write? then s.requests - multiset{Request(t.id, t.to)} else s.requests
  {
    if t.ByWorker() {
      WorkerLeaves(c, s, t);
    }
  }

  lemma StepKeepsRequests(p: Policy, c: Config, s: State, t: Step)
    requires Inv(p, c, s) && Allowed(p, s, t)
    ensures RequestsInv(p, Apply(c, s, t).requests, Apply(c, s, t))
  {
    if t.Check? {
      CheckKeepsRequests(p, c, s, t.id, t.to);
      RequestsKept(p, s.requests + multiset{Request(t.id, t.to)}, s.requests + multiset{Request(t.id, t.to)},
                   s, Apply(c, s, t));
    } else {
      StepKeepsShippable(p, c, s, t);
      OnlyCheckAsks(c, s, t);
      RequestsKept(p, s.requests, Apply(c, s, t).requests, s, Apply(c, s, t));
    }
  }

  lemma StepKeepsInv(p: Policy, c: Config, s: State, t: Step)
    requires Inv(p, c, s) && Allowed(p, s, t)
    ensures Inv(p, c, Apply(c, s, t))
  {
    StepAgrees(c, s, t);
    StepKeepsOrders(p, c, s, t);
    StepKeepsRequests(p, c, s, t);
  }

  lemma {:induction false} RunKeepsInv(p: Policy, c: Config, s: State, ts: seq<Step>)
    requires Inv(p, c, s) && Run(p, c, s, ts)
    ensures Inv(p, c, End(p, c, s, ts))
    decreases |ts|
  {
    if |ts| == 0 {
    } else {
      StepKeepsInv(p, c, s, ts[0]);
      RunKeepsInv(p, c, Apply(c, s, ts[0]), ts[1..]);
    }
  }

  /** The invariant holds wherever a fresh system can get under the policy. */
  lemma Reachable(p: Policy, c: Config, n: nat, ts: seq<Step>)
    requires Run(p, c, Start(n), ts) && Coherent(p)
    ensures Inv(p, c, End(p, c, Start(n), ts))
  {
    RunKeepsInv(p, c, Start(n), ts);
  }
}
