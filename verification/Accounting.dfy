/** The counters reconcile with the orders. */
module Accounting {
  import opened Basics
  import opened OrderModel
  import opened Pipeline
  import opened Places
  import opened OneOrder
  import opened Projection

  // ---- Counters ----

  ghost function Having(orders: map<Uuid, Order>, f: Status -> bool): set<Uuid> {
    set id | id in orders && f(orders[id].status)
  }

  predicate IsApproved(status: Status) {
    status == Paid || status == Shipped
  }

  predicate IsDeclined(status: Status) {
    status == Failed
  }

  ghost function Approved(orders: map<Uuid, Order>): set<Uuid> {
    Having(orders, IsApproved)
  }

  ghost function Declined(orders: map<Uuid, Order>): set<Uuid> {
    Having(orders, IsDeclined)
  }

  ghost predicate Reconciled(s: State) {
    && s.metrics.processed == |Approved(s.orders)|
    && s.metrics.durations == |Approved(s.orders)|
    && s.metrics.failed == |Declined(s.orders)|
    && |s.orders| == s.metrics.created + s.tally.unpublished + |s.publishing|
  }

  function One(b: bool): nat {
    if b then 1 else 0
  }

  lemma CountWithout(a: set<Uuid>, id: Uuid)
    ensures |a| == |a - {id}| + One(id in a)
  {
  }

  lemma HavingElsewhere(orders: map<Uuid, Order>, id: Uuid, order: Order, f: Status -> bool)
    ensures Having(orders[id := order], f) - {id} == Having(orders, f) - {id}
  {
  }

  lemma Recount(orders: map<Uuid, Order>, id: Uuid, order: Order, f: Status -> bool)
    ensures |Having(orders[id := order], f)|
         == |Having(orders, f)| + One(f(order.status)) - One(id in orders && f(orders[id].status))
  {
    HavingElsewhere(orders, id, order, f);
    CountWithout(Having(orders, f), id);
    CountWithout(Having(orders[id := order], f), id);
  }

  lemma RecountAll(orders: map<Uuid, Order>, id: Uuid, order: Order)
    ensures |orders[id := order]| == |orders| + One(id !in orders)
  {
  }

  /** What a step adds to the counters. */
  lemma StepCounts(c: Config, s: State, t: Step)
    requires Enabled(s, t) && Moves(t)
    ensures var m, m' := s.metrics, Apply(c, s, t).metrics;
            var done := t.Record? && t.outcome == Done && s.workers[t.w].msg.orderId in s.orders;
      && m'.processed == m.processed + One(done && s.workers[t.w].approved)
      && m'.durations == m.durations + One(done && s.workers[t.w].approved)
      && m'.failed == m.failed + One(done && !s.workers[t.w].approved)
      && m'.created == m.created + One(t.Publish? && t.outcome == Done)
  {
    if t.ByWorker() {
      WorkerLeaves(c, s, t);
    }
  }

  lemma StepWithdraws(c: Config, s: State, t: Step)
    requires Enabled(s, t) && Moves(t)
    ensures |Apply(c, s, t).publishing| + One(t.Publish?) == |s.publishing|
    ensures Apply(c, s, t).tally.unpublished == s.tally.unpublished + One(t.Publish? && t.outcome == CleanError)
  {
    if t.ByWorker() {
      WorkerLeaves(c, s, t);
    }
  }

  /** What a step of one order does to the sets that are counted. */
  lemma SoloCounts(c: Config, x: Solo, t: Step)
    requires SoloInv(ACCOUNTABLE, c, x) && SoloAllowed(ACCOUNTABLE, x, t)
    ensures var y := SoloStep(c, x, t);
            var done := t.Record? && t.outcome == Done;
      && One(IsApproved(y.order.status)) - One(IsApproved(x.order.status)) == One(done && x.life.phase.worker.approved)
      && One(IsDeclined(y.order.status)) - One(IsDeclined(x.order.status)) == One(done && !x.life.phase.worker.approved)
  {
  }

  /** One order changed its status, and the counters with it. */
  lemma Rebalanced(s: State, s': State, id: Uuid, order: Order, paid: bool, failed: bool)
    requires Reconciled(s) && id in s.orders && s'.orders == s.orders[id := order]
    requires One(IsApproved(order.status)) - One(IsApproved(s.orders[id].status)) == One(paid)
    requires One(IsDeclined(order.status)) - One(IsDeclined(s.orders[id].status)) == One(failed)
    requires s'.metrics.processed == s.metrics.processed + One(paid)
    requires s'.metrics.durations == s.metrics.durations + One(paid)
    requires s'.metrics.failed == s.metrics.failed + One(failed)
    requires s'.metrics.created + s'.tally.unpublished + |s'.publishing|
          == s.metrics.created + s.tally.unpublished + |s.publishing|
    ensures Reconciled(s')
  {
    Recount(s.orders, id, order, IsApproved);
    Recount(s.orders, id, order, IsDeclined);
    RecountAll(s.orders, id, order);
  }

  predicate Settles(s: State, t: Step)
    requires Enabled(s, t)
  {
    t.Record? && t.outcome == Done
  }

  /** What a step does to the numbers of orders, in terms of the one order that it changes. */
  lemma MoveCounts(c: Config, s: State, t: Step)
    requires Inv(ACCOUNTABLE, c, s) && Allowed(ACCOUNTABLE, s, t) && Moves(t)
    requires Known(s, Subject(s, t)) && SoloAllowed(ACCOUNTABLE, The(s, Subject(s, t)), t)
    ensures var before, after := The(s, Subject(s, t)).order.status, SoloStep(c, The(s, Subject(s, t)), t).order.status;
      && One(IsApproved(after)) - One(IsApproved(before)) == One(Settles(s, t) && s.workers[t.w].approved)
      && One(IsDeclined(after)) - One(IsDeclined(before)) == One(Settles(s, t) && !s.workers[t.w].approved)
    ensures t.Record? ==> s.workers[t.w].msg.orderId in s.orders
  {
    SoloCounts(c, The(s, Subject(s, t)), t);
    if t.Record? {
      HolderIsAlone(s, t.w);
    }
  }

  /** The one order that a step changes, and what that does to the numbers of orders. */
  lemma MovedOrder(c: Config, s: State, t: Step) returns (id: Uuid, order: Order)
    requires Inv(ACCOUNTABLE, c, s) && Allowed(ACCOUNTABLE, s, t) && Moves(t)
    ensures id in s.orders && Apply(c, s, t).orders == s.orders[id := order]
    ensures One(IsApproved(order.status)) - One(IsApproved(s.orders[id].status))
         == One(Settles(s, t) && s.workers[t.w].approved)
    ensures One(IsDeclined(order.status)) - One(IsDeclined(s.orders[id].status))
         == One(Settles(s, t) && !s.workers[t.w].approved)
    ensures t.Record? ==> s.workers[t.w].msg.orderId in s.orders
  {
    id := Subject(s, t);
    AllowedProjects(ACCOUNTABLE, c, s, t);
    StepProjects(c, s, t);
    MoveCounts(c, s, t);
    order := SoloStep(c, The(s, id), t).order;
  }

  lemma MoveReconciles(c: Config, s: State, t: Step, id: Uuid, order: Order)
    requires Enabled(s, t) && Moves(t) && Reconciled(s)
    requires (t.Commit? || t.Publish?) ==> t.outcome != DirtyError
    requires id in s.orders && Apply(c, s, t).orders == s.orders[id := order]
    requires One(IsApproved(order.status)) - One(IsApproved(s.orders[id].status))
          == One(Settles(s, t) && s.workers[t.w].approved)
    requires One(IsDeclined(order.status)) - One(IsDeclined(s.orders[id].status))
          == One(Settles(s, t) && !s.workers[t.w].approved)
    requires t.Record? ==> s.workers[t.w].msg.orderId in s.orders
    ensures Reconciled(Apply(c, s, t))
  {
    StepCounts(c, s, t);
    StepWithdraws(c, s, t);
    Rebalanced(s, Apply(c, s, t), id, order,
               Settles(s, t) && s.workers[t.w].approved, Settles(s, t) && !s.workers[t.w].approved);
  }

  lemma CommitReconciles(s: State, order: Order, items: seq<Item>, outcome: Outcome)
    requires Reconciled(s) && order.id !in s.orders && order.id !in s.publishing
    requires NewOrder(order, items) && outcome != DirtyError
    ensures Reconciled(CommitStep(s, order, items, outcome))
  {
    Recount(s.orders, order.id, order, IsApproved);
    Recount(s.orders, order.id, order, IsDeclined);
    RecountAll(s.orders, order.id, order);
  }

  lemma StepReconciles(c: Config, s: State, t: Step)
    requires Inv(ACCOUNTABLE, c, s) && Reconciled(s) && Allowed(ACCOUNTABLE, s, t)
    ensures Reconciled(Apply(c, s, t))
  {
    if Moves(t) {
      var id, order := MovedOrder(c, s, t);
      MoveReconciles(c, s, t, id, order);
    } else if t.Commit? {
      UnknownIsNotPublishing(s, t.order.id);
      CommitReconciles(s, t.order, t.items, t.outcome);
    }
  }

  lemma {:induction false} RunReconciles(c: Config, s: State, ts: seq<Step>)
    requires Inv(ACCOUNTABLE, c, s) && Reconciled(s) && Run(ACCOUNTABLE, c, s, ts)
    ensures Reconciled(End(ACCOUNTABLE, c, s, ts))
    decreases |ts|
  {
    if |ts| == 0 {
    } else {
      StepReconciles(c, s, ts[0]);
      StepKeepsInv(ACCOUNTABLE, c, s, ts[0]);
      RunReconciles(c, Apply(c, s, ts[0]), ts[1..]);
    }
  }

  /**
   * In an accountable environment, after every run: the processed counter and the number of
   * duration samples are the number of Paid or Shipped orders, the failed counter is the number of
   * Failed orders, and the created counter is the number of stored orders less those whose
   * publication failed or is still to come.
   */
  lemma MetricsReconcile(c: Config, n: nat, ts: seq<Step>)
    requires Run(ACCOUNTABLE, c, Start(n), ts)
    ensures Reconciled(End(ACCOUNTABLE, c, Start(n), ts))
  {
    assert Approved(Start(n).orders) == {} && Declined(Start(n).orders) == {};
    assert Inv(ACCOUNTABLE, c, Start(n));
    RunReconciles(c, Start(n), ts);
  }
}
