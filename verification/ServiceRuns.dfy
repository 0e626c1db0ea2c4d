/** The calls of the order service as operations of serial histories. */
module ServiceRuns {
  import opened Basics
  import opened OrderModel
  import opened Pipeline
  import opened Service
  import opened Serial

  /** The state of the pipeline shows the service: its store, its producer's messages, its counters. */
  ghost predicate Shows(service: OrderService, s: State)
    reads service.repo.inner, service.producer, service.metrics
  {
    && s.orders == service.repo.inner.orders
    && s.items == service.repo.inner.items
    && s.queue == service.producer.messages
    && s.metrics == service.metrics.Value()
  }

  /** What Create's two writes leave of the pipeline's state. */
  lemma CreatePerforms(c: Config, s: State, order: Order, items: seq<Item>, commit: Outcome, publish: Outcome)
    requires Possible(s, Operation.Create(order, items, commit, publish))
    ensures var s' := Performed(c, s, Operation.Create(order, items, commit, publish));
      && s'.orders == (if commit == CleanError then s.orders else s.orders[order.id := order])
      && s'.items == (if commit == CleanError then s.items else s.items[order.id := items])
      && s'.queue == (if commit == Done && publish != CleanError then s.queue + [CreatedMessage(order)] else s.queue)
      && s'.metrics == (if commit == Done && publish == Done then s.metrics.(created := s.metrics.created + 1)
                        else s.metrics)
      && s'.workers == s.workers
  {
  }

  lemma TransitionPerforms(c: Config, s: State, id: Uuid, to: Status, now: int, outcome: Outcome)
    requires Possible(s, Transition(id, to, now, outcome))
    ensures var s' := Performed(c, s, Transition(id, to, now, outcome));
      && s'.orders == (if outcome == CleanError then s.orders else WithStatus(s.orders, id, to, now))
      && s'.items == s.items && s'.queue == s.queue && s'.metrics == s.metrics && s'.workers == s.workers
  {
  }

  /** An accepted Create is the operation Create of a serial history; a refused one changes nothing. */
  method CreateIsOperation(service: OrderService, createdBy: Uuid, customerId: Uuid, lines: seq<LineInput>,
                           x: Surroundings, ghost c: Config, ghost s: State)
    returns (r: Result<Order, AppError>, ghost s': State)
    requires Shows(service, s)
    requires x.orderId != NIL_UUID && x.orderId !in service.repo.inner.orders && |x.itemIds| == |lines|
    requires forall id :: id in x.catalog ==> x.catalog[id].id == id
    modifies service.repo.inner, service.producer, service.metrics
    ensures Shows(service, s')
    ensures Refusal(customerId, lines, x) != None ==> s' == s
    ensures Refusal(customerId, lines, x) == None ==>
      exists d: Draft ::
        && IsDraft(d, createdBy, customerId, lines, x)
        && Possible(s, Operation.Create(d.order, d.items, x.commit, x.publish))
        && s' == Performed(c, s, Operation.Create(d.order, d.items, x.commit, x.publish))
  {
    ghost var d;
    r, d := service.Create(createdBy, customerId, lines, x);
    s' := s;
    if d.Some? {
      CreatePerforms(c, s, d.value.order, d.value.items, x.commit, x.publish);
      s' := Performed(c, s, Operation.Create(d.value.order, d.value.items, x.commit, x.publish));
    }
  }

  /** A Cancel or Ship whose check passes is the operation Transition; otherwise nothing changes. */
  method TransitionIsOperation(service: OrderService, id: Uuid, to: Status, load: Outcome, now: int, fate: Outcome,
                               ghost c: Config, ghost s: State)
    returns (r: Result<Order, AppError>, ghost s': State)
    requires Shows(service, s) && (to == Canceled || to == Shipped)
    modifies service.repo.inner`orders
    ensures Shows(service, s')
    ensures var op := Transition(id, to, now, fate);
      s' == if load == Done && Possible(s, op) then Performed(c, s, op) else s
    ensures r.Ok? <==> load == Done && fate == Done && Possible(s, Transition(id, to, now, fate))
  {
    if to == Canceled {
      r := service.Cancel(id, load, now, fate);
    } else {
      r := service.Ship(id, load, now, fate);
    }
    s' := s;
    if load == Done && Possible(s, Transition(id, to, now, fate)) {
      TransitionPerforms(c, s, id, to, now, fate);
      s' := Performed(c, s, Transition(id, to, now, fate));
    }
  }
}
