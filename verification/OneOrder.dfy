/**
 * The life of one order by itself: a small automaton that knows nothing of other orders, other
 * workers or the queue, and the invariant it keeps under each policy.
 */
module OneOrder {
  import opened Basics
  import opened OrderModel
  import opened Pipeline

  // ---- The automaton ----

  /** The step makes sense for an order whose message is in this phase. */
  predicate SoloEnabled(life: Life, t: Step) {
    match t
    case Commit(_, _, _) => false
    case Check(_, _) => false
    case Leave(_) => false
    case Publish(_, _) => life.phase == Publishing
    case Write(_, to, _, _) => to == Canceled || to == Shipped
    case Take(_) => life.phase.Queued?
    case Load(_, _) => life.phase.InHand? && life.phase.worker.Fetched?
    case Screen(_, _) => life.phase.InHand? && life.phase.worker.Checked?
    case Claim(_, _, _) => life.phase.InHand? && life.phase.worker.Claiming?
    case Pay(_, _) => life.phase.InHand? && life.phase.worker.Paying?
    case Record(_, _, _) => life.phase.InHand? && life.phase.worker.Recording?
    case Retry(_, _) => life.phase.InHand? && life.phase.worker.Failing?
    case Crash(_) => life.phase.InHand? && life.phase.worker.Busy()
  }

  datatype Solo = Solo(order: Order, life: Life)

  function Hold(x: Solo, w: nat, worker: Worker): Solo {
    x.(life := x.life.(phase := InHand(w, worker)))
  }

  function Put(x: Solo, phase: Phase): Solo {
    x.(life := x.life.(phase := phase))
  }

  function Written(x: Solo, order: Order): Solo {
    Solo(order, x.life.(trail := x.life.trail + [order.status]))
  }

  function SoloStep(c: Config, x: Solo, t: Step): Solo
    requires SoloEnabled(x.life, t)
  {
    match t
    case Publish(_, outcome) => Put(x, if outcome == CleanError then Unsent else Queued(CreatedMessage(x.order)))
    case Write(_, to, now, outcome) =>
      if outcome == CleanError then x else Written(x, x.order.(status := to, updatedAt := now))
    case Take(w) => Hold(x.(life := x.life.(attempts := x.life.attempts + 1)), w, Fetched(x.life.phase.msg))
    case Load(w, outcome) =>
      var msg := x.life.phase.worker.msg;
      if outcome != Done then Hold(x, w, Failing(msg))
      else if x.order.status != Created then Put(x, Finished)
      else Hold(x, w, Checked(msg, x.order))
    case Screen(w, outcome) =>
      var worker := x.life.phase.worker;
      if outcome == Done && IsSentinel(c, x.order) then Hold(x, w, Failing(worker.msg))
      else Hold(x, w, Claiming(worker.msg, worker.order))
    case Claim(w, now, outcome) =>
      var worker := x.life.phase.worker;
      var y := if outcome == CleanError then x else Written(x, x.order.(status := Processing, updatedAt := now));
      Hold(y, w, if outcome == Done then Paying(worker.msg, worker.order) else Failing(worker.msg))
    case Pay(w, approved) =>
      var worker := x.life.phase.worker;
      Hold(x.(life := x.life.(payments := x.life.payments + 1)), w, Recording(worker.msg, worker.order, approved))
    case Record(w, now, outcome) =>
      var worker := x.life.phase.worker;
      var to := if worker.approved then Paid else Failed;
      var y := if outcome == CleanError then x
               else Written(x, x.order.(status := to, processedAt := Some(now), updatedAt := now));
      if outcome == Done then Put(y, Finished) else Hold(y, w, Failing(worker.msg))
    case Retry(_, outcome) =>
      var msg := x.life.phase.worker.msg;
      if outcome == CleanError then Put(x, Lost)
      else if msg.retryCount < c.maxRetries then Put(x, Queued(msg.(retryCount := msg.retryCount + 1)))
      else Put(x, Dead(msg))
    case Crash(_) => Put(x, Lost)
  }

  predicate IsSentinel(c: Config, order: Order) {
    c.sentinel.Some? && order.total == c.sentinel.value
  }

  /** What holds of an order for as long as a Ship request for it has yet to write. */
  predicate Shippable(p: Policy, x: Solo) {
    && x.life.payments >= 1
    && (p.recorded ==> x.life.phase == Finished)
    && (p.patient ==> x.order.status == Paid || x.order.status == Shipped)
  }

  predicate SoloCalm(x: Solo, t: Step)
    requires t.Write?
  {
    && x.order.status == Required(t.to)
    && (t.to == Canceled ==> !(x.life.phase.InHand? && InWindow(x.life.phase.worker)))
  }

  /** What the policies grant about one order's step. */
  predicate SoloAllowed(p: Policy, x: Solo, t: Step) {
    && SoloEnabled(x.life, t)
    && (t.Write? && t.to == Shipped ==> Shippable(p, x))
    && (p.recorded ==> RecordedStep(t))
    && (p.patient && t.Write? && t.to == Canceled ==> SoloCalm(x, t))
    && (p.calm && t.Write? ==> SoloCalm(x, t))
    && (p.simulated ==>
          && (t.Write? ==> t.to == Shipped)
          && (t.Pay? ==> Simulated(x.life.phase.worker.order, t.approved))
          && Undisturbed(t))
  }

  /** Every call of the step succeeds. */
  predicate Undisturbed(t: Step) {
    match t
    case Check(_, _) => true
    case Take(_) => true
    case Leave(_) => true
    case Pay(_, _) => true
    case Crash(_) => false
    case _ => t.outcome == Done
  }

  // ---- The invariant ----

  /** The message carries as many retries as workers took it before, within the budget. */
  ghost predicate Budgeted(c: Config, life: Life) {
    match life.phase
    case Publishing => life.attempts == 0
    case Unsent => life.attempts == 0
    case Queued(msg) => msg.retryCount == life.attempts <= c.maxRetries
    case InHand(_, worker) => worker.Busy() && 1 <= worker.msg.retryCount + 1 == life.attempts <= c.maxRetries + 1
    case Finished => 1 <= life.attempts <= c.maxRetries + 1
    case Lost => 1 <= life.attempts <= c.maxRetries + 1
    case Dead(msg) => msg.retryCount == c.maxRetries && life.attempts == c.maxRetries + 1
  }

  predicate HasSnapshot(worker: Worker) {
    worker.Checked? || worker.Claiming? || worker.Paying? || worker.Recording?
  }

  /** A worker's copy of the order is out of date in its status and timestamps at most. */
  ghost predicate SnapshotAgrees(x: Solo) {
    x.life.phase.InHand? && HasSnapshot(x.life.phase.worker) ==>
      var seen := x.life.phase.worker.order;
      seen == x.order.(status := Created, updatedAt := seen.updatedAt, processedAt := seen.processedAt)
  }

  /** No payment while Created, nor before the worker in hand gets to the processor; one payment once settled. */
  ghost predicate PaidAtMostOnce(x: Solo) {
    && x.life.payments <= 1
    && (x.order.status == Created ==> x.life.payments == 0)
    && (x.life.phase.InHand? && InWindow(x.life.phase.worker) ==> x.life.payments == 0)
    && (x.life.phase.InHand? && x.life.phase.worker.Paying? ==> x.life.payments == 0 && x.order.status != Created)
    && (x.life.phase.InHand? && x.life.phase.worker.Recording? ==> x.life.payments == 1)
    && (Settled(x.order.status) ==> x.life.payments == 1)
  }

  /** The trail starts at Created, ends at the present status, and never comes back to Created. */
  ghost predicate Trailed(x: Solo) {
    && |x.life.trail| > 0
    && x.life.trail[0] == Created
    && x.life.trail[|x.life.trail| - 1] == x.order.status
    && forall k :: 0 < k < |x.life.trail| ==> x.life.trail[k] != Created
  }

  /** A message is finished only for an order that has left Created. */
  ghost predicate FinishedHasLeft(x: Solo) {
    x.life.phase == Finished ==> x.order.status != Created
  }

  ghost predicate Base(c: Config, x: Solo) {
    Budgeted(c, x.life) && SnapshotAgrees(x) && PaidAtMostOnce(x) && Trailed(x) && FinishedHasLeft(x)
  }

  /** The status is the one the worker's next write may start from; settled orders carry their time. */
  ghost predicate OnCourse(x: Solo) {
    && (x.life.phase.InHand? && InWindow(x.life.phase.worker) ==> x.order.status == Created)
    && (x.life.phase.InHand? && (x.life.phase.worker.Paying? || x.life.phase.worker.Recording?) ==>
          x.order.status == Processing)
    && (x.order.processedAt.Some? <==> Settled(x.order.status))
  }

  /** Nothing but a worker that is done with the message settles an order. */
  ghost predicate SettledIsFinished(x: Solo) {
    Settled(x.order.status) ==> x.life.phase == Finished
  }

  /** Where the simulated environment takes an order. */
  ghost predicate Foreseen(c: Config, x: Solo) {
    && x.life.phase != Unsent
    && x.life.phase != Lost
    && if IsSentinel(c, x.order) then
         && x.order.status == Created
         && x.life.phase != Finished
         && (x.life.phase.InHand? ==>
               x.life.phase.worker.Fetched? || x.life.phase.worker.Checked? || x.life.phase.worker.Failing?)
       else
         && !x.life.phase.Dead?
         && (x.life.phase.InHand? ==>
               && !x.life.phase.worker.Failing?
               && (x.life.phase.worker.Fetched? ==> x.order.status == Created)
               && (x.life.phase.worker.Recording? ==> Simulated(x.order, x.life.phase.worker.approved)))
         && (x.life.phase.Queued? || x.life.phase == Publishing ==> x.order.status == Created)
         && (x.life.phase == Finished ==>
               if x.order.total == FAILURE_TOTAL then x.order.status == Failed
               else x.order.status == Paid || x.order.status == Shipped)
  }

  ghost predicate SoloInv(p: Policy, c: Config, x: Solo) {
    && Base(c, x)
    && (p.patient ==> OnCourse(x))
    && (p.calm ==> p.patient && IsPath(x.life.trail))
    && (p.recorded ==> SettledIsFinished(x))
    && (p.simulated ==> p.recorded && p.patient && Foreseen(c, x))
  }

  lemma StepKeepsBudget(p: Policy, c: Config, x: Solo, t: Step)
    requires Base(c, x) && SoloAllowed(p, x, t)
    ensures Budgeted(c, SoloStep(c, x, t).life)
  {
  }

  lemma StepKeepsSnapshot(p: Policy, c: Config, x: Solo, t: Step)
    requires Base(c, x) && SoloAllowed(p, x, t)
    ensures SnapshotAgrees(SoloStep(c, x, t))
  {
  }

  lemma StepPaysAtMostOnce(p: Policy, c: Config, x: Solo, t: Step)
    requires Base(c, x) && SoloAllowed(p, x, t)
    ensures PaidAtMostOnce(SoloStep(c, x, t))
  {
  }

  lemma StepKeepsTrail(p: Policy, c: Config, x: Solo, t: Step)
    requires Base(c, x) && SoloAllowed(p, x, t)
    ensures Trailed(SoloStep(c, x, t))
  {
  }

  lemma StepKeepsFinished(p: Policy, c: Config, x: Solo, t: Step)
    requires Base(c, x) && SoloAllowed(p, x, t)
    ensures FinishedHasLeft(SoloStep(c, x, t))
  {
  }

  lemma StepKeepsBase(p: Policy, c: Config, x: Solo, t: Step)
    requires Base(c, x) && SoloAllowed(p, x, t)
    ensures Base(c, SoloStep(c, x, t))
  {
    StepKeepsBudget(p, c, x, t);
    StepKeepsSnapshot(p, c, x, t);
    StepPaysAtMostOnce(p, c, x, t);
    StepKeepsTrail(p, c, x, t);
    StepKeepsFinished(p, c, x, t);
  }

  lemma StepStaysOnCourse(p: Policy, c: Config, x: Solo, t: Step)
    requires Base(c, x) && OnCourse(x) && SoloAllowed(p, x, t) && p.patient
    ensures OnCourse(SoloStep(c, x, t))
  {
  }

  lemma StepStaysOnTable(p: Policy, c: Config, x: Solo, t: Step)
    requires Base(c, x) && OnCourse(x) && IsPath(x.life.trail) && SoloAllowed(p, x, t) && p.calm
    ensures IsPath(SoloStep(c, x, t).life.trail)
  {
  }

  lemma StepKeepsSettled(p: Policy, c: Config, x: Solo, t: Step)
    requires Base(c, x) && SettledIsFinished(x) && SoloAllowed(p, x, t) && p.recorded
    ensures SettledIsFinished(SoloStep(c, x, t))
  {
  }

  lemma StepStaysForeseen(p: Policy, c: Config, x: Solo, t: Step)
    requires SoloInv(p, c, x) && SoloAllowed(p, x, t) && p.simulated
    ensures Foreseen(c, SoloStep(c, x, t))
  {
  }

  /** An order that a Ship request has checked stays fit for its write. */
  lemma StepStaysShippable(p: Policy, c: Config, x: Solo, t: Step)
    requires SoloInv(p, c, x) && SoloAllowed(p, x, t) && Shippable(p, x)
    ensures Shippable(p, SoloStep(c, x, t))
  {
  }

  /** Every step of one order keeps its invariant. */
  lemma StepKeepsSolo(p: Policy, c: Config, x: Solo, t: Step)
    requires SoloInv(p, c, x) && SoloAllowed(p, x, t)
    ensures SoloInv(p, c, SoloStep(c, x, t))
  {
    StepKeepsBase(p, c, x, t);
    if p.patient { StepStaysOnCourse(p, c, x, t); }
    if p.calm { StepStaysOnTable(p, c, x, t); }
    if p.recorded { StepKeepsSettled(p, c, x, t); }
    if p.simulated { StepStaysForeseen(p, c, x, t); }
  }
}
