/** The order histories agree with the queues and the workers: every message is in one place only. */
module Places {
  import opened Basics
  import opened OrderModel
  import opened Pipeline

  type Lives = map<Uuid, Life>

  ghost predicate At(lives: Lives, id: Uuid, phase: Phase) {
    id in lives && lives[id].phase == phase
  }

  ghost predicate SameOrders(orders: map<Uuid, Order>, items: map<Uuid, seq<Item>>, lives: Lives) {
    && lives.Keys == orders.Keys == items.Keys
    && NIL_UUID !in orders
    && (forall id :: id in orders ==> orders[id].id == id)
  }

  ghost predicate PublishingAgrees(publishing: set<Uuid>, lives: Lives) {
    forall id :: id in publishing <==> At(lives, id, Publishing)
  }

  ghost predicate QueueAgrees(queue: seq<Message>, lives: Lives) {
    && (forall k :: 0 <= k < |queue| ==> At(lives, queue[k].orderId, Queued(queue[k])))
    && (forall j, k :: 0 <= j < k < |queue| ==> queue[j].orderId != queue[k].orderId)
    && (forall id :: id in lives && lives[id].phase.Queued? ==>
          lives[id].phase.msg.orderId == id && lives[id].phase.msg in queue)
  }

  ghost predicate DeadAgrees(dead: seq<Message>, lives: Lives) {
    && (forall k :: 0 <= k < |dead| ==> At(lives, dead[k].orderId, Dead(dead[k])))
    && (forall j, k :: 0 <= j < k < |dead| ==> dead[j].orderId != dead[k].orderId)
    && (forall id :: id in lives && lives[id].phase.Dead? ==>
          lives[id].phase.msg.orderId == id && lives[id].phase.msg in dead)
  }

  ghost predicate WorkersAgree(workers: seq<Worker>, lives: Lives) {
    && (forall w :: 0 <= w < |workers| && workers[w].Busy() ==>
          At(lives, workers[w].msg.orderId, InHand(w, workers[w])))
    && (forall id :: id in lives && lives[id].phase.InHand? ==>
          var p := lives[id].phase;
          p.w < |workers| && workers[p.w] == p.worker && p.worker.Busy() && p.worker.msg.orderId == id)
  }

  ghost predicate Agreement(s: State) {
    && SameOrders(s.orders, s.items, s.lives)
    && PublishingAgrees(s.publishing, s.lives)
    && QueueAgrees(s.queue, s.lives)
    && DeadAgrees(s.dead, s.lives)
    && WorkersAgree(s.workers, s.lives)
  }

  // ---- Changing one life keeps what its old and new place are not ----

  ghost predicate Unqueued(lives: Lives, id: Uuid, life: Life) {
    && (id in lives && lives[id].phase.Queued? ==> lives[id].phase == life.phase)
    && (life.phase.Queued? ==> At(lives, id, life.phase))
  }

  lemma QueueKept(queue: seq<Message>, lives: Lives, id: Uuid, life: Life)
    requires QueueAgrees(queue, lives) && Unqueued(lives, id, life)
    ensures QueueAgrees(queue, lives[id := life])
  {
  }

  ghost predicate Undead(lives: Lives, id: Uuid, life: Life) {
    && (id in lives && lives[id].phase.Dead? ==> lives[id].phase == life.phase)
    && (life.phase.Dead? ==> At(lives, id, life.phase))
  }

  lemma DeadKept(dead: seq<Message>, lives: Lives, id: Uuid, life: Life)
    requires DeadAgrees(dead, lives) && Undead(lives, id, life)
    ensures DeadAgrees(dead, lives[id := life])
  {
  }

  ghost predicate Unheld(lives: Lives, id: Uuid, life: Life) {
    && (id in lives && lives[id].phase.InHand? ==> lives[id].phase == life.phase)
    && (life.phase.InHand? ==> At(lives, id, life.phase))
  }

  lemma WorkersKept(workers: seq<Worker>, lives: Lives, id: Uuid, life: Life)
    requires WorkersAgree(workers, lives) && Unheld(lives, id, life)
    ensures WorkersAgree(workers, lives[id := life])
  {
  }

  lemma PublishingKept(publishing: set<Uuid>, lives: Lives, id: Uuid, life: Life)
    requires PublishingAgrees(publishing, lives)
    requires At(lives, id, Publishing) <==> life.phase == Publishing
    ensures PublishingAgrees(publishing, lives[id := life])
  {
  }

  lemma AllKept(s: State, id: Uuid, life: Life)
    requires Agreement(s) && id in s.lives
    requires s.lives[id].phase == life.phase
    ensures Agreement(s.(lives := s.lives[id := life]))
  {
    QueueKept(s.queue, s.lives, id, life);
    DeadKept(s.dead, s.lives, id, life);
    WorkersKept(s.workers, s.lives, id, life);
    PublishingKept(s.publishing, s.lives, id, life);
  }

  // ---- Places change hands ----

  lemma QueuePushed(queue: seq<Message>, lives: Lives, life: Life)
    requires QueueAgrees(queue, lives) && life.phase.Queued?
    requires life.phase.msg.orderId in lives ==> !lives[life.phase.msg.orderId].phase.Queued?
    ensures QueueAgrees(queue + [life.phase.msg], lives[life.phase.msg.orderId := life])
  {
  }

  lemma QueuePopped(queue: seq<Message>, lives: Lives, life: Life)
    requires QueueAgrees(queue, lives) && queue != [] && !life.phase.Queued?
    ensures QueueAgrees(queue[1..], lives[queue[0].orderId := life])
  {
  }

  lemma DeadPushed(dead: seq<Message>, lives: Lives, life: Life)
    requires DeadAgrees(dead, lives) && life.phase.Dead?
    requires life.phase.msg.orderId in lives ==> !lives[life.phase.msg.orderId].phase.Dead?
    ensures DeadAgrees(dead + [life.phase.msg], lives[life.phase.msg.orderId := life])
  {
  }

  lemma WorkerSet(workers: seq<Worker>, lives: Lives, w: nat, worker: Worker, life: Life)
    requires WorkersAgree(workers, lives) && w < |workers| && worker.Busy()
    requires life.phase == InHand(w, worker)
    requires if workers[w].Busy() then workers[w].msg.orderId == worker.msg.orderId
             else worker.msg.orderId in lives && !lives[worker.msg.orderId].phase.InHand?
    ensures WorkersAgree(workers[w := worker], lives[worker.msg.orderId := life])
  {
  }

  lemma WorkerFreed(workers: seq<Worker>, lives: Lives, w: nat, worker: Worker, life: Life)
    requires WorkersAgree(workers, lives) && w < |workers| && workers[w].Busy() && !worker.Busy()
    requires !life.phase.InHand?
    ensures WorkersAgree(workers[w := worker], lives[workers[w].msg.orderId := life])
  {
  }

  /** A busy worker's order is with that worker and nowhere else. */
  lemma HolderIsAlone(s: State, w: nat)
    requires Agreement(s) && w < |s.workers| && s.workers[w].Busy()
    ensures At(s.lives, s.workers[w].msg.orderId, InHand(w, s.workers[w]))
    ensures s.workers[w].msg.orderId in s.orders
  {
  }

  // ---- The pieces of a step keep the agreement ----

  lemma WriteAgrees(s: State, id: Uuid, to: Status, now: int)
    requires Agreement(s)
    ensures Agreement(StatusWritten(s, id, to, now))
    ensures Agreement(ProcessedWritten(s, id, to, now))
  {
    if id in s.orders {
      AllKept(s, id, s.lives[id].(trail := s.lives[id].trail + [to]));
    }
  }

  /** A worker goes on with its message, whatever else its order's record says by now. */
  lemma HeldAgrees(s: State, w: nat, worker: Worker, life: Life)
    requires Agreement(s) && w < |s.workers| && s.workers[w].Busy()
    requires worker.Busy() && worker.msg == s.workers[w].msg && life.phase == InHand(w, worker)
    ensures Agreement(s.(workers := s.workers[w := worker], lives := s.lives[worker.msg.orderId := life]))
  {
    HolderIsAlone(s, w);
    var id := worker.msg.orderId;
    WorkerSet(s.workers, s.lives, w, worker, life);
    QueueKept(s.queue, s.lives, id, life);
    DeadKept(s.dead, s.lives, id, life);
    PublishingKept(s.publishing, s.lives, id, life);
  }

  lemma MovedAgrees(s: State, w: nat, worker: Worker)
    requires Agreement(s) && w < |s.workers| && s.workers[w].Busy()
    requires worker.Busy() && worker.msg == s.workers[w].msg
    ensures Agreement(Moved(s, w, worker))
  {
    HolderIsAlone(s, w);
    HeldAgrees(s, w, worker, s.lives[worker.msg.orderId].(phase := InHand(w, worker)));
  }

  lemma ReleasedAgrees(s: State, w: nat, worker: Worker, phase: Phase)
    requires Agreement(s) && w < |s.workers| && s.workers[w].Busy() && !worker.Busy()
    requires phase == Finished || phase == Lost
    ensures Agreement(Released(s, w, worker, phase))
  {
    HolderIsAlone(s, w);
    var id := s.workers[w].msg.orderId;
    var life := s.lives[id].(phase := phase);
    WorkerFreed(s.workers, s.lives, w, worker, life);
    QueueKept(s.queue, s.lives, id, life);
    DeadKept(s.dead, s.lives, id, life);
    PublishingKept(s.publishing, s.lives, id, life);
  }

  // ---- The steps ----

  lemma UnknownIsNotPublishing(s: State, id: Uuid)
    requires Agreement(s) && id !in s.orders
    ensures id !in s.publishing
  {
    assert !At(s.lives, id, Publishing);
  }

  lemma CommittedAgrees(s: State, order: Order, life: Life)
    requires Agreement(s) && order.id !in s.orders
    requires life.phase == Publishing || life.phase == Unsent
    ensures var lives := s.lives[order.id := life];
      QueueAgrees(s.queue, lives) && DeadAgrees(s.dead, lives) && WorkersAgree(s.workers, lives)
  {
    QueueKept(s.queue, s.lives, order.id, life);
    DeadKept(s.dead, s.lives, order.id, life);
    WorkersKept(s.workers, s.lives, order.id, life);
  }

  lemma PublishingBegins(publishing: set<Uuid>, lives: Lives, id: Uuid, life: Life)
    requires PublishingAgrees(publishing, lives) && life.phase == Publishing
    ensures PublishingAgrees(publishing + {id}, lives[id := life])
  {
    forall x ensures x in publishing + {id} <==> At(lives[id := life], x, Publishing) {
      assert x in publishing <==> At(lives, x, Publishing);
    }
  }

  lemma CommitAgrees(s: State, order: Order, items: seq<Item>, outcome: Outcome)
    requires Agreement(s) && order.id !in s.orders && NewOrder(order, items)
    ensures Agreement(CommitStep(s, order, items, outcome))
  {
    if outcome != CleanError {
      var life := Life(if outcome == Done then Publishing else Unsent, 0, 0, [order.status]);
      CommittedAgrees(s, order, life);
      if outcome == Done {
        PublishingBegins(s.publishing, s.lives, order.id, life);
      } else {
        UnknownIsNotPublishing(s, order.id);
        PublishingKept(s.publishing, s.lives, order.id, life);
      }
    }
  }

  lemma PublishAgrees(s: State, id: Uuid, outcome: Outcome)
    requires Agreement(s) && id in s.publishing && id in s.orders
    ensures Agreement(PublishStep(s, id, outcome))
  {
    assert At(s.lives, id, Publishing);
    var msg := CreatedMessage(s.orders[id]);
    var life := s.lives[id].(phase := if outcome == CleanError then Unsent else Queued(msg));
    var lives' := s.lives[id := life];
    if outcome == CleanError {
      QueueKept(s.queue, s.lives, id, life);
    } else {
      QueuePushed(s.queue, s.lives, life);
    }
    DeadKept(s.dead, s.lives, id, life);
    WorkersKept(s.workers, s.lives, id, life);
    forall x ensures x in s.publishing - {id} <==> At(lives', x, Publishing) {
      assert x in s.publishing <==> At(s.lives, x, Publishing);
    }
  }

  lemma TakeAgrees(s: State, w: nat)
    requires Agreement(s) && w < |s.workers| && s.workers[w].Waiting? && s.queue != []
    ensures Agreement(TakeStep(s, w))
  {
    var msg := s.queue[0];
    var id := msg.orderId;
    assert At(s.lives, id, Queued(msg));
    var life := s.lives[id].(attempts := s.lives[id].attempts + 1, phase := InHand(w, Fetched(msg)));
    var lives' := s.lives[id := life];
    assert TakeStep(s, w).lives == lives';
    WorkerSet(s.workers, s.lives, w, Fetched(msg), life);
    QueuePopped(s.queue, s.lives, life);
    DeadKept(s.dead, s.lives, id, life);
    PublishingKept(s.publishing, s.lives, id, life);
  }

  lemma LoadAgrees(s: State, w: nat, outcome: Outcome)
    requires Agreement(s) && w < |s.workers| && s.workers[w].Fetched?
    ensures Agreement(LoadStep(s, w, outcome))
  {
    var msg := s.workers[w].msg;
    HolderIsAlone(s, w);
    if msg.orderId == NIL_UUID || (outcome == Done && s.orders[msg.orderId].status != Created) {
      ReleasedAgrees(s, w, Waiting, Finished);
    } else if outcome != Done {
      MovedAgrees(s, w, Failing(msg));
    } else {
      MovedAgrees(s, w, Checked(msg, s.orders[msg.orderId]));
    }
  }

  lemma ScreenAgrees(c: Config, s: State, w: nat, outcome: Outcome)
    requires Agreement(s) && w < |s.workers| && s.workers[w].Checked?
    ensures Agreement(ScreenStep(c, s, w, outcome))
  {
    var worker := s.workers[w];
    MovedAgrees(s, w, Failing(worker.msg));
    MovedAgrees(s, w, Claiming(worker.msg, worker.order));
  }

  lemma StatusMovedAgrees(s: State, w: nat, worker: Worker, to: Status, now: int)
    requires Agreement(s) && w < |s.workers| && s.workers[w].Busy()
    requires worker.Busy() && worker.msg == s.workers[w].msg
    ensures Agreement(Moved(StatusWritten(s, worker.msg.orderId, to, now), w, worker))
  {
    WriteAgrees(s, worker.msg.orderId, to, now);
    MovedAgrees(StatusWritten(s, worker.msg.orderId, to, now), w, worker);
  }

  lemma ProcessedMovedAgrees(s: State, w: nat, worker: Worker, to: Status, now: int)
    requires Agreement(s) && w < |s.workers| && s.workers[w].Busy()
    requires worker.Busy() && worker.msg == s.workers[w].msg
    ensures Agreement(Moved(ProcessedWritten(s, worker.msg.orderId, to, now), w, worker))
  {
    WriteAgrees(s, worker.msg.orderId, to, now);
    MovedAgrees(ProcessedWritten(s, worker.msg.orderId, to, now), w, worker);
  }

  lemma ProcessedCompletedAgrees(s: State, w: nat, to: Status, now: int)
    requires Agreement(s) && w < |s.workers| && s.workers[w].Busy()
    ensures Agreement(Completed(ProcessedWritten(s, s.workers[w].msg.orderId, to, now), w))
  {
    WriteAgrees(s, s.workers[w].msg.orderId, to, now);
    ReleasedAgrees(ProcessedWritten(s, s.workers[w].msg.orderId, to, now), w, Waiting, Finished);
  }

  lemma ClaimAgrees(s: State, w: nat, now: int, outcome: Outcome)
    requires Agreement(s) && w < |s.workers| && s.workers[w].Claiming?
    ensures Agreement(ClaimStep(s, w, now, outcome))
  {
    var worker := s.workers[w];
    HolderIsAlone(s, w);
    match outcome
    case Done => StatusMovedAgrees(s, w, Paying(worker.msg, worker.order), Processing, now);
    case CleanError => MovedAgrees(s, w, Failing(worker.msg));
    case DirtyError => StatusMovedAgrees(s, w, Failing(worker.msg), Processing, now);
  }

  lemma PayAgrees(s: State, w: nat, approved: bool)
    requires Agreement(s) && w < |s.workers| && s.workers[w].Paying?
    ensures Agreement(PayStep(s, w, approved))
  {
    var worker := s.workers[w];
    var id := worker.msg.orderId;
    var next := Recording(worker.msg, worker.order, approved);
    HolderIsAlone(s, w);
    var life := s.lives[id].(payments := s.lives[id].payments + 1, phase := InHand(w, next));
    assert PayStep(s, w, approved).lives == s.lives[id := life];
    HeldAgrees(s, w, next, life);
  }

  lemma RecordAgrees(s: State, w: nat, now: int, outcome: Outcome)
    requires Agreement(s) && w < |s.workers| && s.workers[w].Recording?
    ensures Agreement(RecordStep(s, w, now, outcome))
  {
    var worker := s.workers[w];
    var to := if worker.approved then Paid else Failed;
    HolderIsAlone(s, w);
    match outcome
    case Done => ProcessedCompletedAgrees(s, w, to, now);
    case CleanError => MovedAgrees(s, w, Failing(worker.msg));
    case DirtyError => ProcessedMovedAgrees(s, w, Failing(worker.msg), to, now);
  }

  lemma RequeueAgrees(c: Config, s: State, w: nat, outcome: Outcome)
    requires Agreement(s) && w < |s.workers| && s.workers[w].Failing?
    requires outcome != CleanError && s.workers[w].msg.retryCount < c.maxRetries
    ensures Agreement(RetryStep(c, s, w, outcome))
  {
    var id := s.workers[w].msg.orderId;
    HolderIsAlone(s, w);
    var again := s.workers[w].msg.(retryCount := s.workers[w].msg.retryCount + 1);
    var life := s.lives[id].(phase := Queued(again));
    var s' := RetryStep(c, s, w, outcome);
    assert s'.lives == s.lives[id := life] && s'.workers == s.workers[w := Waiting] && s'.queue == s.queue + [again];
    WorkerFreed(s.workers, s.lives, w, Waiting, life);
    QueuePushed(s.queue, s.lives, life);
    DeadKept(s.dead, s.lives, id, life);
    PublishingKept(s.publishing, s.lives, id, life);
  }

  lemma BuryAgrees(c: Config, s: State, w: nat, outcome: Outcome)
    requires Agreement(s) && w < |s.workers| && s.workers[w].Failing?
    requires outcome != CleanError && s.workers[w].msg.retryCount >= c.maxRetries
    ensures Agreement(RetryStep(c, s, w, outcome))
  {
    var id := s.workers[w].msg.orderId;
    HolderIsAlone(s, w);
    var life := s.lives[id].(phase := Dead(s.workers[w].msg));
    var s' := RetryStep(c, s, w, outcome);
    assert s'.lives == s.lives[id := life] && s'.workers == s.workers[w := Waiting] && s'.queue == s.queue;
    WorkerFreed(s.workers, s.lives, w, Waiting, life);
    QueueKept(s.queue, s.lives, id, life);
    DeadPushed(s.dead, s.lives, life);
    PublishingKept(s.publishing, s.lives, id, life);
  }

  lemma RetryAgrees(c: Config, s: State, w: nat, outcome: Outcome)
    requires Agreement(s) && w < |s.workers| && s.workers[w].Failing?
    ensures Agreement(RetryStep(c, s, w, outcome))
  {
    if outcome == CleanError {
      ReleasedAgrees(s, w, Waiting, Lost);
    } else if s.workers[w].msg.retryCount < c.maxRetries {
      RequeueAgrees(c, s, w, outcome);
    } else {
      BuryAgrees(c, s, w, outcome);
    }
  }

  lemma RequestAgrees(c: Config, s: State, t: Step)
    requires Agreement(s) && Enabled(s, t) && !t.ByWorker()
    ensures Agreement(Apply(c, s, t))
  {
    match t
    case Commit(order, items, outcome) => CommitAgrees(s, order, items, outcome);
    case Publish(id, outcome) => PublishAgrees(s, id, outcome);
    case Check(id, to) =>
    case Write(id, to, now, outcome) =>
      WriteAgrees(s.(requests := s.requests - multiset{Request(id, to)}), id, to, now);
  }

  lemma WorkerStepAgrees(c: Config, s: State, t: Step)
    requires Agreement(s) && Enabled(s, t) && t.ByWorker()
    ensures Agreement(Apply(c, s, t))
  {
    match t
    case Take(w) => TakeAgrees(s, w);
    case Leave(w) =>
    case Load(w, outcome) => LoadAgrees(s, w, outcome);
    case Screen(w, outcome) => ScreenAgrees(c, s, w, outcome);
    case Claim(w, now, outcome) => ClaimAgrees(s, w, now, outcome);
    case Pay(w, approved) => PayAgrees(s, w, approved);
    case Record(w, now, outcome) => RecordAgrees(s, w, now, outcome);
    case Retry(w, outcome) => RetryAgrees(c, s, w, outcome);
    case Crash(w) => ReleasedAgrees(s, w, Stopped, Lost);
  }

  lemma StepAgrees(c: Config, s: State, t: Step)
    requires Agreement(s) && Enabled(s, t)
    ensures Agreement(Apply(c, s, t))
  {
    if t.ByWorker() {
      WorkerStepAgrees(c, s, t);
    } else {
      RequestAgrees(c, s, t);
    }
  }
}
