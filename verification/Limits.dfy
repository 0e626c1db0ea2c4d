/** Runs that show where the conditions on the environment are needed. */
module Limits {
  import opened Basics
  import opened OrderModel
  import opened Pipeline
  import opened OneOrder
  import opened Guarantees

  /** The system with one order, its message still queued. */
  function Enqueued(order: Order, items: seq<Item>): State {
    Start(1).(orders := map[order.id := order],
              items := map[order.id := items],
              queue := [CreatedMessage(order)],
              metrics := Metrics(1, 0, 0, 0),
              lives := map[order.id := Life(Queued(CreatedMessage(order)), 0, 0, [Created])],
              tally := Tally(1, 0, 0, 0))
  }

  /** The system with one order that its worker has in hand. */
  function Held(order: Order, items: seq<Item>, worker: Worker): State {
    Enqueued(order, items).(queue := [],
                            workers := [worker],
                            lives := map[order.id := Life(InHand(0, worker), 1, 0, [Created])])
  }

  /** The worker has loaded the order and found it Created. */
  function Loaded(order: Order, items: seq<Item>): State {
    Held(order, items, Checked(CreatedMessage(order), order))
  }

  lemma ReachesEnqueued(p: Policy, c: Config, order: Order, items: seq<Item>)
    requires NewOrder(order, items)
    ensures var ts := [Commit(order, items, Done), Publish(order.id, Done)];
      Run(p, c, Start(1), ts) && End(p, c, Start(1), ts) == Enqueued(order, items)
  {
    var s0 := Start(1);
    var s1 := Apply(c, s0, Commit(order, items, Done));
    assert s1.lives == map[order.id := Life(Publishing, 0, 0, [Created])];
    assert s1.publishing == {order.id};
    var s2 := Apply(c, s1, Publish(order.id, Done));
    assert s2.publishing == {} && s2.orders == map[order.id := order] && s2.items == map[order.id := items];
    assert s2.lives == Enqueued(order, items).lives;
    RunCons(p, c, s1, Publish(order.id, Done), []);
    RunCons(p, c, s0, Commit(order, items, Done), [Publish(order.id, Done)]);
  }

  lemma EnqueuedIsLoaded(p: Policy, c: Config, order: Order, items: seq<Item>)
    requires NewOrder(order, items)
    ensures Run(p, c, Enqueued(order, items), [Take(0), Load(0, Done)])
    ensures End(p, c, Enqueued(order, items), [Take(0), Load(0, Done)]) == Loaded(order, items)
  {
    var msg := CreatedMessage(order);
    var s2 := Enqueued(order, items);
    assert s2.workers == [Waiting];
    var s3 := Apply(c, s2, Take(0));
    assert s3.workers == [Fetched(msg)] && s3.lives == Held(order, items, Fetched(msg)).lives;
    var s4 := Apply(c, s3, Load(0, Done));
    assert s4.workers == [Checked(msg, order)] && s4.lives == Loaded(order, items).lives;
    RunCons(p, c, s3, Load(0, Done), []);
    RunCons(p, c, s2, Take(0), [Load(0, Done)]);
  }

  function LoadingSteps(order: Order, items: seq<Item>): seq<Step> {
    [Commit(order, items, Done), Publish(order.id, Done)] + [Take(0), Load(0, Done)]
  }

  lemma ReachesLoaded(p: Policy, c: Config, order: Order, items: seq<Item>)
    requires NewOrder(order, items)
    ensures Run(p, c, Start(1), LoadingSteps(order, items))
    ensures End(p, c, Start(1), LoadingSteps(order, items)) == Loaded(order, items)
  {
    ReachesEnqueued(p, c, order, items);
    EnqueuedIsLoaded(p, c, order, items);
    RunsCompose(p, c, Start(1), [Commit(order, items, Done), Publish(order.id, Done)], [Take(0), Load(0, Done)]);
  }

  ghost predicate AllSucceed(ts: seq<Step>) {
    forall k :: 0 <= k < |ts| ==> Undisturbed(ts[k])
  }

  lemma StaleCancelSucceeds(order: Order, items: seq<Item>)
    ensures AllSucceed(LoadingSteps(order, items) + CancelingSteps(order.id))
  {
  }

  lemma OffTheTable(trail: seq<Status>)
    requires trail == [Created, Canceled, Processing]
    ensures !IsPath(trail)
  {
    assert !CanTransition(trail[1], trail[2]);
  }

  /**
   * A Cancel that lands between a worker's check and its write leaves the table: the order goes
   * from Created to Canceled to Processing, although nothing failed and both requests checked.
   */
  lemma StaleCancelLeavesTable(c: Config, order: Order, items: seq<Item>) returns (ts: seq<Step>)
    requires NewOrder(order, items) && c.sentinel == None
    ensures Run(ANYTHING, c, Start(1), ts) && AllSucceed(ts)
    ensures StatusWrites(ANYTHING, c, Start(1), ts, order.id) == [Created, Canceled, Processing]
    ensures !IsPath(StatusWrites(ANYTHING, c, Start(1), ts, order.id))
  {
    CancelInWindow(c, order, items);
    ReachesLoaded(ANYTHING, c, order, items);
    RunsCompose(ANYTHING, c, Start(1), LoadingSteps(order, items), CancelingSteps(order.id));
    ts := LoadingSteps(order, items) + CancelingSteps(order.id);
    StaleCancelSucceeds(order, items);
    HistoryOf(ANYTHING, c, 1, ts, order.id);
    OffTheTable(Trail(End(ANYTHING, c, Start(1), ts), order.id));
  }

  function CancelingSteps(id: Uuid): seq<Step> {
    [Check(id, Canceled), Write(id, Canceled, 1, Done)] + [Screen(0, Done), Claim(0, 2, Done)]
  }

  lemma CancelInWindow(c: Config, order: Order, items: seq<Item>)
    requires NewOrder(order, items) && c.sentinel == None
    ensures var s := Loaded(order, items);
      && Run(ANYTHING, c, s, CancelingSteps(order.id))
      && order.id in End(ANYTHING, c, s, CancelingSteps(order.id)).lives
      && End(ANYTHING, c, s, CancelingSteps(order.id)).lives[order.id].trail == [Created, Canceled, Processing]
  {
    var id := order.id;
    var s0 := Loaded(order, items);
    var s1, s2 := TwoSteps(ANYTHING, c, s0, Check(id, Canceled), Write(id, Canceled, 1, Done));
    assert s2.workers == [Checked(CreatedMessage(order), order)];
    assert id in s2.orders && id in s2.lives && s2.lives[id].trail == [Created, Canceled];
    ClaimAfterCancel(c, s2, id);
    RunsCompose(ANYTHING, c, s0,
                [Check(id, Canceled), Write(id, Canceled, 1, Done)], [Screen(0, Done), Claim(0, 2, Done)]);
  }

  lemma ClaimAfterCancel(c: Config, s: State, id: Uuid)
    requires |s.workers| == 1 && s.workers[0].Checked? && s.workers[0].msg.orderId == id && c.sentinel == None
    requires id in s.orders && id in s.lives
    ensures Run(ANYTHING, c, s, [Screen(0, Done), Claim(0, 2, Done)])
    ensures var s' := End(ANYTHING, c, s, [Screen(0, Done), Claim(0, 2, Done)]);
      id in s'.lives && s'.lives[id].trail == s.lives[id].trail + [Processing]
  {
    var s1, s2 := TwoSteps(ANYTHING, c, s, Screen(0, Done), Claim(0, 2, Done));
  }

  /** Exactly one call of the run fails, and it is this one. */
  ghost predicate OnlyFailure(ts: seq<Step>, failure: Step) {
    exists k :: 0 <= k < |ts| && ts[k] == failure && forall j :: 0 <= j < |ts| && j != k ==> Undisturbed(ts[j])
  }

  lemma OnlyTheLastFails(ts: seq<Step>, rest: seq<Step>)
    requires |ts| > 0 && AllSucceed(ts[..|ts| - 1]) && AllSucceed(rest)
    ensures OnlyFailure(ts + rest, ts[|ts| - 1])
  {
    var n := |ts| - 1;
    assert (ts + rest)[n] == ts[n];
    forall j | 0 <= j < |ts + rest| && j != n ensures Undisturbed((ts + rest)[j]) {
      assert j < n ==> (ts + rest)[j] == ts[..n][j];
      assert j > n ==> (ts + rest)[j] == rest[j - n - 1];
    }
  }

  const CLAIMING: seq<Step> := [Screen(0, Done), Claim(0, 1, Done)]

  function RecordingSteps(outcome: Outcome): seq<Step> {
    [Pay(0, true), Record(0, 2, outcome)]
  }

  lemma ClaimsLoaded(c: Config, s: State, msg: Message, order: Order) returns (s': State)
    requires c.sentinel == None
    requires s.workers == [Checked(msg, order)] && msg.orderId in s.orders && msg.orderId in s.lives
    ensures Run(CALM, c, s, CLAIMING) && End(CALM, c, s, CLAIMING) == s'
    ensures s'.workers == [Paying(msg, order)] && s'.queue == s.queue && s'.dead == s.dead
    ensures msg.orderId in s'.orders && s'.orders[msg.orderId].status == Processing
    ensures msg.orderId in s'.lives && PaidSoFar(s', msg.orderId) == PaidSoFar(s, msg.orderId)
  {
    var s1;
    s1, s' := TwoSteps(CALM, c, s, Screen(0, Done), Claim(0, 1, Done));
  }

  lemma RecordFails(c: Config, s: State, msg: Message, order: Order, outcome: Outcome) returns (s': State)
    requires s.workers == [Paying(msg, order)] && outcome != Done
    requires msg.orderId in s.orders && msg.orderId in s.lives
    ensures Run(CALM, c, s, RecordingSteps(outcome)) && End(CALM, c, s, RecordingSteps(outcome)) == s'
    ensures s'.workers == [Failing(msg)] && s'.queue == s.queue && s'.dead == s.dead
    ensures msg.orderId in s'.orders
    ensures s'.orders[msg.orderId].status == if outcome == CleanError then s.orders[msg.orderId].status else Paid
    ensures PaidSoFar(s', msg.orderId) == PaidSoFar(s, msg.orderId) + 1
  {
    var s1;
    s1, s' := TwoSteps(CALM, c, s, Pay(0, true), Record(0, 2, outcome));
  }

  /** One order, claimed, charged, and then refused by MarkProcessed. */
  lemma ReachesFailedRecord(c: Config, order: Order, items: seq<Item>, outcome: Outcome)
    returns (ts: seq<Step>, s: State)
    requires NewOrder(order, items) && c.sentinel == None && outcome != Done
    ensures Run(CALM, c, Start(1), ts) && End(CALM, c, Start(1), ts) == s
    ensures s.workers == [Failing(CreatedMessage(order))] && s.queue == [] && s.dead == []
    ensures order.id in s.orders && s.orders[order.id].status == if outcome == CleanError then Processing else Paid
    ensures PaidSoFar(s, order.id) == 1
    ensures |ts| > 0 && ts[|ts| - 1] == Record(0, 2, outcome) && AllSucceed(ts[..|ts| - 1])
  {
    var claimed := ClaimsLoaded(c, Loaded(order, items), CreatedMessage(order), order);
    s := RecordFails(c, claimed, CreatedMessage(order), order, outcome);
    RunsCompose(CALM, c, Loaded(order, items), CLAIMING, RecordingSteps(outcome));
    ReachesLoaded(CALM, c, order, items);
    ts := LoadingSteps(order, items) + (CLAIMING + RecordingSteps(outcome));
    RunsCompose(CALM, c, Start(1), LoadingSteps(order, items), CLAIMING + RecordingSteps(outcome));
  }

  /**
   * A MarkProcessed that takes effect and still reports an error can put a Paid order into the
   * dead-letter list.
   */
  lemma DirtyRecordBuriesPaidOrder(order: Order, items: seq<Item>) returns (ts: seq<Step>)
    requires NewOrder(order, items)
    ensures Run(CALM, Config(0, None), Start(1), ts)
    ensures var s := End(CALM, Config(0, None), Start(1), ts);
      s.dead == [CreatedMessage(order)] && order.id in s.orders && s.orders[order.id].status == Paid
    ensures OnlyFailure(ts, Record(0, 2, DirtyError))
  {
    var c := Config(0, None);
    var steps, s := ReachesFailedRecord(c, order, items, DirtyError);
    RunCons(CALM, c, s, Retry(0, Done), []);
    RunsCompose(CALM, c, Start(1), steps, [Retry(0, Done)]);
    ts := steps + [Retry(0, Done)];
    OnlyTheLastFails(steps, [Retry(0, Done)]);
  }

  lemma RetryGoesRound(c: Config, s: State, msg: Message) returns (s': State)
    requires s.workers == [Failing(msg)] && s.queue == [] && s.dead == [] && msg.retryCount < c.maxRetries
    ensures Run(CALM, c, s, [Retry(0, Done), Take(0)]) && End(CALM, c, s, [Retry(0, Done), Take(0)]) == s'
    ensures s'.queue == [] && s'.dead == [] && s'.orders == s.orders
    ensures s'.workers == [Fetched(msg.(retryCount := msg.retryCount + 1))]
    ensures PaidSoFar(s', msg.orderId) == PaidSoFar(s, msg.orderId)
  {
    var s1;
    s1, s' := TwoSteps(CALM, c, s, Retry(0, Done), Take(0));
  }

  lemma ClaimedIsIgnored(c: Config, s: State, msg: Message)
    requires s.workers == [Fetched(msg)] && s.queue == [] && s.dead == []
    requires msg.orderId in s.orders && s.orders[msg.orderId].status == Processing
    ensures Run(CALM, c, s, [Load(0, Done)])
    ensures var s' := End(CALM, c, s, [Load(0, Done)]);
      && s'.queue == [] && s'.dead == [] && s'.workers == [Waiting] && s'.orders == s.orders
      && PaidSoFar(s', msg.orderId) == PaidSoFar(s, msg.orderId)
  {
    RunCons(CALM, c, s, Load(0, Done), []);
  }

  lemma RetryIsIgnored(c: Config, s: State, msg: Message)
    requires s.workers == [Failing(msg)] && s.queue == [] && s.dead == [] && msg.retryCount < c.maxRetries
    requires msg.orderId in s.orders && s.orders[msg.orderId].status == Processing
    ensures var ts := [Retry(0, Done), Take(0)] + [Load(0, Done)];
      Run(CALM, c, s, ts) && End(CALM, c, s, ts).queue == [] && End(CALM, c, s, ts).dead == []
      && End(CALM, c, s, ts).workers == [Waiting] && End(CALM, c, s, ts).orders == s.orders
      && PaidSoFar(End(CALM, c, s, ts), msg.orderId) == PaidSoFar(s, msg.orderId)
  {
    var s' := RetryGoesRound(c, s, msg);
    ClaimedIsIgnored(c, s', msg.(retryCount := msg.retryCount + 1));
    RunsCompose(CALM, c, s, [Retry(0, Done), Take(0)], [Load(0, Done)]);
  }

  /**
   * Retries do not heal a failed MarkProcessed: one clean failure of it leaves a charged order in
   * Processing for good, with the system at rest and no dead letter, although retries were left.
   * The second attempt finds an order that is not Created any more and drops the message.
   */
  lemma FailedRecordStrandsOrder(c: Config, order: Order, items: seq<Item>) returns (ts: seq<Step>)
    requires NewOrder(order, items) && c.sentinel == None && c.maxRetries >= 1
    ensures Run(CALM, c, Start(1), ts)
    ensures var s := End(CALM, c, Start(1), ts);
      && s.queue == [] && s.dead == [] && s.workers == [Waiting]
      && order.id in s.orders && s.orders[order.id].status == Processing
    ensures Payments(CALM, c, Start(1), ts, order.id) == 1
    ensures OnlyFailure(ts, Record(0, 2, CleanError))
  {
    var steps, s := ReachesFailedRecord(c, order, items, CleanError);
    RetryIsIgnored(c, s, CreatedMessage(order));
    var rest := [Retry(0, Done), Take(0)] + [Load(0, Done)];
    RunsCompose(CALM, c, Start(1), steps, rest);
    ts := steps + rest;
    OnlyTheLastFails(steps, rest);
    PaymentsAreCounted(CALM, c, 1, ts, order.id);
  }
}
