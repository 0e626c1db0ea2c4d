/**
 * The order pipeline as a transition system: API requests that commit, publish, cancel and ship
 * orders, and a pool of workers that dequeue, process, retry and dead-letter messages. Every
 * repository call and every queue operation is a step of its own, so steps of all requests and
 * workers interleave freely. What the environment decides (which call fails, whether a payment is
 * approved, the clock) is written in the step.
 */
module Pipeline {
  import opened Basics
  import opened OrderModel

  datatype Message = Message(orderId: Uuid, event: string, createdAt: int, retryCount: int)

  const ORDER_CREATED_EVENT := "ORDER_CREATED"

  /** How a call to the database or to the queue server ends. */
  datatype Outcome =
    | Done         // it took effect and said so
    | CleanError   // it failed and changed nothing
    | DirtyError   // it took effect, but the caller sees an error

  datatype Config = Config(maxRetries: nat, sentinel: Option<Int64>)

  /** Where one goroutine of the pool is; snapshots are what FindByID returned to it. */
  datatype Worker =
    | Waiting
    | Fetched(msg: Message)
    | Checked(msg: Message, order: Order)
    | Claiming(msg: Message, order: Order)
    | Paying(msg: Message, order: Order)
    | Recording(msg: Message, order: Order, approved: bool)
    | Failing(msg: Message)
    | Stopped
  {
    predicate Busy() {
      !Waiting? && !Stopped?
    }
  }

  /** A Cancel or Ship request that passed its status check and has yet to write. */
  datatype Request = Request(id: Uuid, to: Status)

  datatype Metrics = Metrics(created: nat, processed: nat, failed: nat, durations: nat)

  /** Where the one message of an order is. */
  datatype Phase =
    | Publishing                       // committed, publish still to come
    | Unsent                           // committed, but never published
    | Queued(msg: Message)
    | InHand(w: nat, worker: Worker)
    | Finished                         // Process returned nil
    | Dead(msg: Message)
    | Lost

  /**
   * What happened to one order so far: where its message is, how often a worker took it, how often
   * the payment processor was called, and every status the order had. Kept only to state
   * properties of whole runs; no step looks at it.
   */
  datatype Life = Life(phase: Phase, attempts: nat, payments: nat, trail: seq<Status>)

  /** How many messages went where; kept for the same reason. */
  datatype Tally = Tally(published: nat, unpublished: nat, finished: nat, lost: nat)

  datatype State = State(
    orders: map<Uuid, Order>,
    items: map<Uuid, seq<Item>>,
    publishing: set<Uuid>,
    requests: multiset<Request>,
    queue: seq<Message>,
    dead: seq<Message>,
    workers: seq<Worker>,
    metrics: Metrics,
    lives: map<Uuid, Life>,
    tally: Tally)

  datatype Step =
    | Commit(order: Order, items: seq<Item>, outcome: Outcome)
    | Publish(id: Uuid, outcome: Outcome)
    | Check(id: Uuid, to: Status)
    | Write(id: Uuid, to: Status, now: int, outcome: Outcome)
    | Take(w: nat)
    | Leave(w: nat)
    | Load(w: nat, outcome: Outcome)
    | Screen(w: nat, outcome: Outcome)
    | Claim(w: nat, now: int, outcome: Outcome)
    | Pay(w: nat, approved: bool)
    | Record(w: nat, now: int, outcome: Outcome)
    | Retry(w: nat, outcome: Outcome)
    | Crash(w: nat)
  {
    predicate ByWorker() {
      !Commit? && !Publish? && !Check? && !Write?
    }
  }

  // ---- The pieces of a step ----

  /** What Service.Create hands to the repository. */
  predicate Consistent(order: Order, items: seq<Item>) {
    && |items| > 0
    && (forall k :: 0 <= k < |items| ==>
          && items[k].orderId == order.id
          && items[k].totalPrice == ItemTotal(items[k].unitPrice, items[k].quantity))
    && order.total == Summed(Totals(items))
  }

  predicate NewOrder(order: Order, items: seq<Item>) {
    && order.id != NIL_UUID
    && order.status == Created
    && order.processedAt == None
    && Consistent(order, items)
  }

  function Totals(items: seq<Item>): (r: seq<Int64>)
    ensures |r| == |items|
  {
    seq(|items|, k requires 0 <= k < |items| => items[k].totalPrice)
  }

  /** The status a transition request demands before it writes. */
  function Required(to: Status): Status {
    if to == Shipped then Paid else Created
  }

  function CreatedMessage(order: Order): Message {
    Message(order.id, ORDER_CREATED_EVENT, order.createdAt, 0)
  }

  function Stored(s: State, order: Order, items: seq<Item>, phase: Phase): State {
    s.(orders := s.orders[order.id := order],
       items := s.items[order.id := items],
       lives := s.lives[order.id := Life(phase, 0, 0, [order.status])])
  }

  function StatusWritten(s: State, id: Uuid, to: Status, now: int): State {
    s.(orders := WithStatus(s.orders, id, to, now),
       lives := if id in s.orders then Extended(s.lives, id, to) else s.lives)
  }

  function ProcessedWritten(s: State, id: Uuid, to: Status, now: int): State {
    s.(orders := WithProcessed(s.orders, id, to, now),
       lives := if id in s.orders then Extended(s.lives, id, to) else s.lives)
  }

  function Extended(lives: map<Uuid, Life>, id: Uuid, to: Status): map<Uuid, Life> {
    if id in lives then lives[id := lives[id].(trail := lives[id].trail + [to])] else lives
  }

  function Placed(s: State, id: Uuid, phase: Phase): State {
    s.(lives := if id in s.lives then s.lives[id := s.lives[id].(phase := phase)] else s.lives)
  }

  function Counting(s: State, id: Uuid, attempts: nat, payments: nat): State {
    s.(lives := if id in s.lives
                then s.lives[id := s.lives[id].(attempts := s.lives[id].attempts + attempts,
                                                payments := s.lives[id].payments + payments)]
                else s.lives)
  }

  /** The worker moves on, its message still in hand. */
  function Moved(s: State, w: nat, worker: Worker): State
    requires w < |s.workers| && worker.Busy()
  {
    Placed(s.(workers := s.workers[w := worker]), worker.msg.orderId, InHand(w, worker))
  }

  /** The worker lets go of its message, which ends up in the given place. */
  function Released(s: State, w: nat, worker: Worker, phase: Phase): State
    requires w < |s.workers| && s.workers[w].Busy()
  {
    Placed(s.(workers := s.workers[w := worker]), s.workers[w].msg.orderId, phase)
  }

  /** Process returned nil: the message is done with. */
  function Completed(s: State, w: nat): State
    requires w < |s.workers| && s.workers[w].Busy()
  {
    Released(s, w, Waiting, Finished).(tally := s.tally.(finished := s.tally.finished + 1))
  }

  function Dropped(s: State, w: nat, worker: Worker): State
    requires w < |s.workers| && s.workers[w].Busy()
  {
    Released(s, w, worker, Lost).(tally := s.tally.(lost := s.tally.lost + 1))
  }

  /** The payment processor wired into the worker binary declines exactly this total. */
  const FAILURE_TOTAL: Int64 := 1337

  predicate Simulated(order: Order, approved: bool) {
    approved == (order.total != FAILURE_TOTAL)
  }

  // ---- The steps ----

  predicate Enabled(s: State, t: Step) {
    match t
    case Commit(order, items, _) => order.id !in s.orders && NewOrder(order, items)
    case Publish(id, _) => id in s.publishing && id in s.orders
    case Check(id, to) => (to == Canceled || to == Shipped) && id in s.orders && s.orders[id].status == Required(to)
    case Write(id, to, _, _) => Request(id, to) in s.requests
    case Take(w) => w < |s.workers| && s.workers[w].Waiting? && s.queue != []
    case Leave(w) => w < |s.workers| && s.workers[w].Waiting?
    case Load(w, _) => w < |s.workers| && s.workers[w].Fetched?
    case Screen(w, _) => w < |s.workers| && s.workers[w].Checked?
    case Claim(w, _, _) => w < |s.workers| && s.workers[w].Claiming?
    case Pay(w, _) => w < |s.workers| && s.workers[w].Paying?
    case Record(w, _, _) => w < |s.workers| && s.workers[w].Recording?
    case Retry(w, _) => w < |s.workers| && s.workers[w].Failing?
    case Crash(w) => w < |s.workers| && s.workers[w].Busy()
  }

  function Apply(c: Config, s: State, t: Step): State
    requires Enabled(s, t)
  {
    match t
    case Commit(order, items, outcome) => CommitStep(s, order, items, outcome)
    case Publish(id, outcome) => PublishStep(s, id, outcome)
    case Check(id, to) => s.(requests := s.requests + multiset{Request(id, to)})
    case Write(id, to, now, outcome) => WriteStep(s, id, to, now, outcome)
    case Take(w) => TakeStep(s, w)
    case Leave(w) => s.(workers := s.workers[w := Stopped])
    case Load(w, outcome) => LoadStep(s, w, outcome)
    case Screen(w, outcome) => ScreenStep(c, s, w, outcome)
    case Claim(w, now, outcome) => ClaimStep(s, w, now, outcome)
    case Pay(w, approved) => PayStep(s, w, approved)
    case Record(w, now, outcome) => RecordStep(s, w, now, outcome)
    case Retry(w, outcome) => RetryStep(c, s, w, outcome)
    case Crash(w) => Dropped(s, w, Stopped)
  }

  function CommitStep(s: State, order: Order, items: seq<Item>, outcome: Outcome): State {
    match outcome
    case Done => Stored(s, order, items, Publishing).(publishing := s.publishing + {order.id})
    case CleanError => s
    case DirtyError => Stored(s, order, items, Unsent)
  }

  function PublishStep(s: State, id: Uuid, outcome: Outcome): State
    requires id in s.orders
  {
    var asked := s.(publishing := s.publishing - {id});
    if outcome == CleanError
    then Placed(asked, id, Unsent).(tally := s.tally.(unpublished := s.tally.unpublished + 1))
    else
      var msg := CreatedMessage(s.orders[id]);
      var metrics := if outcome == Done then s.metrics.(created := s.metrics.created + 1) else s.metrics;
      Placed(asked, id, Queued(msg))
      .(queue := s.queue + [msg], metrics := metrics, tally := s.tally.(published := s.tally.published + 1))
  }

  function WriteStep(s: State, id: Uuid, to: Status, now: int, outcome: Outcome): State {
    var answered := s.(requests := s.requests - multiset{Request(id, to)});
    if outcome == CleanError then answered else StatusWritten(answered, id, to, now)
  }

  function TakeStep(s: State, w: nat): State
    requires w < |s.workers| && s.queue != []
  {
    var msg := s.queue[0];
    Moved(Counting(s, msg.orderId, 1, 0), w, Fetched(msg)).(queue := s.queue[1..])
  }

  /** Process up to its status check: the nil id, FindByID, and the orders it leaves alone. */
  function LoadStep(s: State, w: nat, outcome: Outcome): State
    requires w < |s.workers| && s.workers[w].Fetched?
  {
    var msg := s.workers[w].msg;
    if msg.orderId == NIL_UUID then Completed(s, w)
    else if outcome != Done then Moved(s, w, Failing(msg))
    else if msg.orderId !in s.orders then Completed(s, w)
    else if s.orders[msg.orderId].status != Created then Completed(s, w)
    else Moved(s, w, if CanTransition(s.orders[msg.orderId].status, Processing)
                     then Checked(msg, s.orders[msg.orderId]) else Failing(msg))
  }

  /** The look-up of the transient-failure wrapper; without a sentinel it is a no-op. */
  function ScreenStep(c: Config, s: State, w: nat, outcome: Outcome): State
    requires w < |s.workers| && s.workers[w].Checked?
  {
    var worker := s.workers[w];
    var id := worker.msg.orderId;
    if c.sentinel.Some? && outcome == Done && id in s.orders && s.orders[id].total == c.sentinel.value
    then Moved(s, w, Failing(worker.msg))
    else Moved(s, w, Claiming(worker.msg, worker.order))
  }

  function ClaimStep(s: State, w: nat, now: int, outcome: Outcome): State
    requires w < |s.workers| && s.workers[w].Claiming?
  {
    var worker := s.workers[w];
    var id := worker.msg.orderId;
    match outcome
    case Done =>
      if id in s.orders then Moved(StatusWritten(s, id, Processing, now), w, Paying(worker.msg, worker.order))
      else Moved(s, w, Failing(worker.msg))
    case CleanError => Moved(s, w, Failing(worker.msg))
    case DirtyError => Moved(StatusWritten(s, id, Processing, now), w, Failing(worker.msg))
  }

  function PayStep(s: State, w: nat, approved: bool): State
    requires w < |s.workers| && s.workers[w].Paying?
  {
    var worker := s.workers[w];
    var id := worker.msg.orderId;
    Moved(Counting(s, id, 0, 1), w, Recording(worker.msg, worker.order, approved))
  }

  function RecordStep(s: State, w: nat, now: int, outcome: Outcome): State
    requires w < |s.workers| && s.workers[w].Recording?
  {
    var worker := s.workers[w];
    var id := worker.msg.orderId;
    var to := if worker.approved then Paid else Failed;
    match outcome
    case Done =>
      if id in s.orders
      then Completed(ProcessedWritten(s, id, to, now), w).(metrics := Counted(s.metrics, worker.approved))
      else Moved(s, w, Failing(worker.msg))
    case CleanError => Moved(s, w, Failing(worker.msg))
    case DirtyError => Moved(ProcessedWritten(s, id, to, now), w, Failing(worker.msg))
  }

  function Counted(m: Metrics, approved: bool): Metrics {
    if approved then m.(processed := m.processed + 1, durations := m.durations + 1)
    else m.(failed := m.failed + 1)
  }

  /** handleProcessError: requeue within the budget, dead-letter beyond it. */
  function RetryStep(c: Config, s: State, w: nat, outcome: Outcome): State
    requires w < |s.workers| && s.workers[w].Failing?
  {
    var msg := s.workers[w].msg;
    if outcome == CleanError then Dropped(s, w, Waiting)
    else if msg.retryCount < c.maxRetries then
      var again := msg.(retryCount := msg.retryCount + 1);
      Released(s, w, Waiting, Queued(again)).(queue := s.queue + [again])
    else
      Released(s, w, Waiting, Dead(msg)).(dead := s.dead + [msg])
  }

  // ---- Runs ----

  /** A fresh system: nothing stored, nothing queued, n workers about to dequeue. */
  function Start(n: nat): State {
    State(map[], map[], {}, multiset{}, [], [], seq(n, _ => Waiting), Metrics(0, 0, 0, 0), map[], Tally(0, 0, 0, 0))
  }

  /**
   * Which environments a property is about.
   * recorded: no MarkProcessed takes effect and still reports an error.
   * announced: no commit and no publication takes effect and still reports an error.
   * patient: no Cancel write lands on a status other than Created, or inside a worker's
   * check-then-write window.
   * calm: no Cancel or Ship write lands on a status other than the one it checked, or inside a
   * worker's own check-then-write window.
   * simulated: nothing fails but what the sentinel wrapper and the simulated processor refuse, and
   * nobody cancels.
   */
  datatype Policy = Policy(recorded: bool, announced: bool, patient: bool, calm: bool, simulated: bool)

  predicate RecordedStep(t: Step) {
    t.Record? ==> t.outcome != DirtyError
  }

  predicate AnnouncedStep(t: Step) {
    t.Commit? || t.Publish? ==> t.outcome != DirtyError
  }

  /** The worker has seen Created and will still write Processing. */
  predicate InWindow(worker: Worker) {
    worker.Checked? || worker.Claiming?
  }

  predicate CalmStep(s: State, t: Step) {
    t.Write? ==>
      && t.id in s.orders
      && s.orders[t.id].status == Required(t.to)
      && (t.to == Canceled ==>
            forall i :: 0 <= i < |s.workers| && InWindow(s.workers[i]) ==> s.workers[i].msg.orderId != t.id)
  }

  predicate PatientStep(s: State, t: Step) {
    t.Write? && t.to == Canceled ==> CalmStep(s, t)
  }

  predicate SimulatedStep(s: State, t: Step) {
    match t
    case Commit(_, _, outcome) => outcome == Done
    case Publish(_, outcome) => outcome == Done
    case Check(_, to) => to != Canceled
    case Write(_, _, _, outcome) => outcome == Done
    case Load(_, outcome) => outcome == Done
    case Screen(_, outcome) => outcome == Done
    case Claim(_, _, outcome) => outcome == Done
    case Pay(w, approved) => w < |s.workers| && s.workers[w].Paying? && Simulated(s.workers[w].order, approved)
    case Record(_, _, outcome) => outcome == Done
    case Retry(_, outcome) => outcome == Done
    case Crash(_) => false
    case _ => true
  }

  predicate Allowed(p: Policy, s: State, t: Step) {
    && Enabled(s, t)
    && (p.recorded ==> RecordedStep(t))
    && (p.announced ==> AnnouncedStep(t))
    && (p.patient ==> PatientStep(s, t))
    && (p.calm ==> CalmStep(s, t))
    && (p.simulated ==> SimulatedStep(s, t))
  }

  predicate Run(p: Policy, c: Config, s: State, ts: seq<Step>)
    decreases |ts|
  {
    |ts| == 0 || (Allowed(p, s, ts[0]) && Run(p, c, Apply(c, s, ts[0]), ts[1..]))
  }

  function End(p: Policy, c: Config, s: State, ts: seq<Step>): State
    requires Run(p, c, s, ts)
    decreases |ts|
  {
    if |ts| == 0 then s else End(p, c, Apply(c, s, ts[0]), ts[1..])
  }

  const ANYTHING := Policy(false, false, false, false, false)
  const RECORDED := Policy(true, false, false, false, false)
  const PATIENT := Policy(false, false, true, false, false)
  const CALM := Policy(false, false, true, true, false)
  const ACCOUNTABLE := Policy(true, true, true, false, false)
  const SIMULATED := Policy(true, true, true, false, true)
}
