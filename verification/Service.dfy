/** The order service and the worker loop: the sequential code whose steps the pipeline interleaves. */
module Service {
  import opened Basics
  import opened OrderModel
  import opened Pipeline
  import opened Iteration
  import opened Repository
  import opened Queues
  import Products

  datatype AppError =
    | CustomerIdRequired
    | ItemsRequired
    | QuantityNotPositive
    | ProductIdRequired
    | CustomerNotFound
    | CustomerUnavailable
    | InactiveCustomer
    | ProductsUnavailable
    | ProductNotFound
    | InactiveProduct
    | NotCreated
    | NotQueued
    | InvalidStatus
    | NoSuchOrder
    | StoreFailed

  type Catalog = map<Uuid, Products.Product>

  datatype LineInput = LineInput(productId: Uuid, quantity: Int64)

  // ---- What Create decides ----

  /** The first line that the request validation objects to. */
  function FirstInvalid(lines: seq<LineInput>): Option<AppError> {
    if lines == [] then None
    else if lines[0].quantity < 1 then Some(QuantityNotPositive)
    else if lines[0].productId == NIL_UUID then Some(ProductIdRequired)
    else FirstInvalid(lines[1..])
  }

  /** The first line whose product cannot be sold. */
  function FirstUnsellable(lines: seq<LineInput>, catalog: Catalog): Option<AppError> {
    if lines == [] then None
    else if lines[0].productId !in catalog then Some(ProductNotFound)
    else if !catalog[lines[0].productId].active then Some(InactiveProduct)
    else FirstUnsellable(lines[1..], catalog)
  }

  /** What Create finds around it: look-ups, fresh ids, the clock, and how its writes end. */
  datatype Surroundings = Surroundings(
    customers: map<Uuid, bool>, customersUp: bool,
    catalog: Catalog, productsUp: bool,
    orderId: Uuid, itemIds: seq<Uuid>, now: int,
    commit: Outcome, publish: Outcome)

  /** Why a request is turned down before anything is written, if it is. */
  function Refusal(customerId: Uuid, lines: seq<LineInput>, x: Surroundings): Option<AppError> {
    if customerId == NIL_UUID then Some(CustomerIdRequired)
    else if lines == [] then Some(ItemsRequired)
    else if FirstInvalid(lines) != None then FirstInvalid(lines)
    else if !x.customersUp then Some(CustomerUnavailable)
    else if customerId !in x.customers then Some(CustomerNotFound)
    else if !x.customers[customerId] then Some(InactiveCustomer)
    else if !x.productsUp then Some(ProductsUnavailable)
    else FirstUnsellable(lines, x.catalog)
  }

  /** Every line of the request is well-formed, before the given place. */
  predicate FitBefore(lines: seq<LineInput>, k: nat)
    requires k <= |lines|
  {
    forall j :: 0 <= j < k ==> lines[j].quantity >= 1 && lines[j].productId != NIL_UUID
  }

  /** Every line of the request asks for a product that can be sold, before the given place. */
  predicate SoldBefore(lines: seq<LineInput>, catalog: Catalog, k: nat)
    requires k <= |lines|
  {
    forall j :: 0 <= j < k ==> lines[j].productId in catalog && catalog[lines[j].productId].active
  }

  /** The first line that is wrong decides which error is given. */
  lemma {:induction false} FirstInvalidIff(lines: seq<LineInput>)
    ensures FirstInvalid(lines) == None <==> FitBefore(lines, |lines|)
    ensures FirstInvalid(lines) == Some(QuantityNotPositive) <==>
      exists k :: 0 <= k < |lines| && FitBefore(lines, k) && lines[k].quantity < 1
    ensures FirstInvalid(lines) == Some(ProductIdRequired) <==>
      exists k :: 0 <= k < |lines| && FitBefore(lines, k) && lines[k].quantity >= 1 && lines[k].productId == NIL_UUID
    ensures FirstInvalid(lines) in {None, Some(QuantityNotPositive), Some(ProductIdRequired)}
  {
    var k: nat := 0;
    while k < |lines| && lines[k].quantity >= 1 && lines[k].productId != NIL_UUID
      invariant k <= |lines| && FitBefore(lines, k)
    {
      k := k + 1;
    }
    NothingInvalid(lines, k);
    if k < |lines| {
      assert lines[k..][0] == lines[k];
      forall j | 0 <= j < |lines| && j != k && FitBefore(lines, j)
        ensures lines[j].quantity >= 1 && lines[j].productId != NIL_UUID
      {
        assert j < k;
      }
    }
  }

  lemma {:induction false} FirstUnsellableIff(lines: seq<LineInput>, catalog: Catalog)
    ensures FirstUnsellable(lines, catalog) == None <==> SoldBefore(lines, catalog, |lines|)
    ensures FirstUnsellable(lines, catalog) == Some(ProductNotFound) <==>
      exists k :: 0 <= k < |lines| && SoldBefore(lines, catalog, k) && lines[k].productId !in catalog
    ensures FirstUnsellable(lines, catalog) == Some(InactiveProduct) <==>
      exists k :: 0 <= k < |lines| && SoldBefore(lines, catalog, k)
        && lines[k].productId in catalog && !catalog[lines[k].productId].active
    ensures FirstUnsellable(lines, catalog) in {None, Some(ProductNotFound), Some(InactiveProduct)}
  {
    var k: nat := 0;
    while k < |lines| && lines[k].productId in catalog && catalog[lines[k].productId].active
      invariant k <= |lines| && SoldBefore(lines, catalog, k)
    {
      k := k + 1;
    }
    NothingUnsellable(lines, catalog, k);
    if k < |lines| {
      assert lines[k..][0] == lines[k];
      forall j | 0 <= j < |lines| && j != k && SoldBefore(lines, catalog, j)
        ensures lines[j].productId in catalog && catalog[lines[j].productId].active
      {
        assert j < k;
      }
    }
  }

  /** When a request is accepted, and exactly when it is turned down for which reason. */
  lemma RefusalIff(customerId: Uuid, lines: seq<LineInput>, x: Surroundings)
    ensures var r := Refusal(customerId, lines, x);
            var asked := customerId != NIL_UUID && lines != [];
            var fit := asked && forall k :: 0 <= k < |lines| ==>
              lines[k].quantity >= 1 && lines[k].productId != NIL_UUID;
            var served := fit && x.customersUp && customerId in x.customers && x.customers[customerId];
            var stocked := served && x.productsUp;
      && (r == None <==> stocked && forall k :: 0 <= k < |lines| ==>
            lines[k].productId in x.catalog && x.catalog[lines[k].productId].active)
      && (r == Some(CustomerIdRequired) <==> customerId == NIL_UUID)
      && (r == Some(ItemsRequired) <==> customerId != NIL_UUID && lines == [])
      && (r == Some(QuantityNotPositive) <==>
            asked && exists k :: 0 <= k < |lines| && FitBefore(lines, k) && lines[k].quantity < 1)
      && (r == Some(ProductIdRequired) <==>
            asked && exists k :: 0 <= k < |lines| && FitBefore(lines, k)
                                 && lines[k].quantity >= 1 && lines[k].productId == NIL_UUID)
      && (r == Some(CustomerUnavailable) <==> fit && !x.customersUp)
      && (r == Some(CustomerNotFound) <==> fit && x.customersUp && customerId !in x.customers)
      && (r == Some(InactiveCustomer) <==>
            fit && x.customersUp && customerId in x.customers && !x.customers[customerId])
      && (r == Some(ProductsUnavailable) <==> served && !x.productsUp)
      && (r == Some(ProductNotFound) <==>
            stocked && exists k :: 0 <= k < |lines| && SoldBefore(lines, x.catalog, k)
                                   && lines[k].productId !in x.catalog)
      && (r == Some(InactiveProduct) <==>
            stocked && exists k :: 0 <= k < |lines| && SoldBefore(lines, x.catalog, k)
                                   && lines[k].productId in x.catalog && !x.catalog[lines[k].productId].active)
  {
    FirstInvalidIff(lines);
    FirstUnsellableIff(lines, x.catalog);
  }

  /** A line of the request as stored: the product's current price and the line total (BR-PRD-005, BR-ORD-004). */
  ghost predicate IsPriced(item: Item, line: LineInput, orderId: Uuid, catalog: Catalog) {
    && line.productId in catalog
    && item.orderId == orderId
    && item.productId == line.productId
    && item.quantity == line.quantity
    && item.unitPrice == catalog[line.productId].price
    && item.totalPrice == ItemTotal(item.unitPrice, item.quantity)
  }

  ghost predicate ArePriced(items: seq<Item>, lines: seq<LineInput>, orderId: Uuid, catalog: Catalog) {
    |items| == |lines| && forall k :: 0 <= k < |items| ==> IsPriced(items[k], lines[k], orderId, catalog)
  }

  /** An order and its items, ready to be stored. */
  datatype Draft = Draft(order: Order, items: seq<Item>)

  /** The draft is what the request asks for: Created, consistent, and priced from the catalog. */
  ghost predicate IsDraft(d: Draft, createdBy: Uuid, customerId: Uuid, lines: seq<LineInput>, x: Surroundings) {
    && NewOrder(d.order, d.items)
    && d.order.id == x.orderId && d.order.customerId == customerId && d.order.createdBy == createdBy
    && d.order.createdAt == x.now && d.order.updatedAt == x.now
    && ArePriced(d.items, lines, x.orderId, x.catalog)
  }

  /** The prices and quantities that a request asks for. */
  function Asked(lines: seq<LineInput>, catalog: Catalog): (r: seq<Line>)
    requires forall k :: 0 <= k < |lines| ==> lines[k].productId in catalog
    ensures |r| == |lines|
  {
    seq(|lines|, k requires 0 <= k < |lines| => Line(catalog[lines[k].productId].price, lines[k].quantity))
  }

  /**
   * The stored total is the exact price of what was asked for, whenever that fits an int64; it is
   * wrong exactly when it does not fit.
   */
  lemma CreatedTotalIsExact(order: Order, items: seq<Item>, lines: seq<LineInput>, catalog: Catalog)
    requires ArePriced(items, lines, order.id, catalog) && Consistent(order, items)
    ensures order.total == ExactTotal(Asked(lines, catalog)) <==> FitsInt64(ExactTotal(Asked(lines, catalog)))
  {
    assert forall k :: 0 <= k < |items| ==> IsPriced(items[k], lines[k], order.id, catalog);
    assert Totals(items) == LineTotals(Asked(lines, catalog));
    TotalExactIffFits(Asked(lines, catalog));
  }

  lemma {:induction false} NothingInvalid(lines: seq<LineInput>, k: nat)
    requires k <= |lines|
    requires forall j :: 0 <= j < k ==> lines[j].quantity >= 1 && lines[j].productId != NIL_UUID
    ensures FirstInvalid(lines) == FirstInvalid(lines[k..])
  {
    if k > 0 {
      NothingInvalid(lines[1..], k - 1);
      assert lines[1..][k - 1..] == lines[k..];
    } else {
      assert lines[0..] == lines;
    }
  }

  lemma {:induction false} NothingUnsellable(lines: seq<LineInput>, catalog: Catalog, k: nat)
    requires k <= |lines|
    requires forall j :: 0 <= j < k ==> lines[j].productId in catalog && catalog[lines[j].productId].active
    ensures FirstUnsellable(lines, catalog) == FirstUnsellable(lines[k..], catalog)
  {
    if k > 0 {
      NothingUnsellable(lines[1..], catalog, k - 1);
      assert lines[1..][k - 1..] == lines[k..];
    } else {
      assert lines[0..] == lines;
    }
  }

  // ---- The service ----

  class OrderMetrics {
    var created: nat
    var processed: nat
    var failed: nat
    var durations: nat

    constructor ()
      ensures Value() == Metrics(0, 0, 0, 0)
    {
      created, processed, failed, durations := 0, 0, 0, 0;
    }

    ghost function Value(): Metrics
      reads this
    {
      Metrics(created, processed, failed, durations)
    }
  }

  class OrderService {
    const repo: TransientFailureRepo
    const producer: FakeProducer
    const metrics: OrderMetrics

    constructor (repo: TransientFailureRepo, producer: FakeProducer, metrics: OrderMetrics)
      ensures this.repo == repo && this.producer == producer && this.metrics == metrics
    {
      this.repo, this.producer, this.metrics := repo, producer, metrics;
    }

    /** FindManyByID: the products that exist among the ids, in the order asked for. */
    method FindManyById(catalog: Catalog, ids: seq<Uuid>) returns (out: seq<Products.Product>)
      ensures forall p :: p in out <==> exists k :: 0 <= k < |ids| && ids[k] in catalog && catalog[ids[k]] == p
    {
      out := [];
      for k := 0 to |ids|
        invariant forall p :: p in out <==> exists j :: 0 <= j < k && ids[j] in catalog && catalog[ids[j]] == p
      {
        if ids[k] in catalog {
          out := out + [catalog[ids[k]]];
        }
      }
    }

    /** The products of the request's lines, by id. */
    method LoadProducts(catalog: Catalog, lines: seq<LineInput>) returns (productById: Catalog)
      requires forall id :: id in catalog ==> catalog[id].id == id
      ensures forall k :: 0 <= k < |lines| ==>
        && (lines[k].productId in productById <==> lines[k].productId in catalog)
        && (lines[k].productId in catalog ==> productById[lines[k].productId] == catalog[lines[k].productId])
    {
      var ids := [];
      for k := 0 to |lines|
        invariant |ids| == k && forall j :: 0 <= j < k ==> ids[j] == lines[j].productId
      {
        ids := ids + [lines[k].productId];
      }
      var loaded := FindManyById(catalog, ids);
      productById := map[];
      for k := 0 to |loaded|
        invariant forall id :: id in productById ==> id in catalog && productById[id] == catalog[id]
        invariant forall j :: 0 <= j < k ==> loaded[j].id in productById
      {
        assert loaded[k] in loaded;
        productById := productById[loaded[k].id := loaded[k]];
      }
      forall k | 0 <= k < |lines| && lines[k].productId in catalog ensures lines[k].productId in productById {
        assert ids[k] == lines[k].productId;
        assert catalog[ids[k]] in loaded;
      }
    }

    /** The loop over the lines: price each one, or report the first that cannot be sold. */
    method PriceLines(lines: seq<LineInput>, catalog: Catalog, orderId: Uuid, itemIds: seq<Uuid>)
      returns (r: Result<seq<Item>, AppError>, itemTotals: seq<Int64>)
      requires forall id :: id in catalog ==> catalog[id].id == id
      requires |itemIds| == |lines|
      ensures match FirstUnsellable(lines, catalog)
        case Some(e) => r == Err(e)
        case None => r.Ok? && ArePriced(r.value, lines, orderId, catalog) && itemTotals == Totals(r.value)
    {
      var productById := LoadProducts(catalog, lines);
      itemTotals := [];
      var orderItems: seq<Item> := [];
      for k := 0 to |lines|
        invariant |orderItems| == |itemTotals| == k
        invariant forall j :: 0 <= j < k ==> lines[j].productId in catalog && catalog[lines[j].productId].active
        invariant forall j :: 0 <= j < k ==> IsPriced(orderItems[j], lines[j], orderId, catalog)
        invariant forall j :: 0 <= j < k ==> itemTotals[j] == orderItems[j].totalPrice
      {
        var line := lines[k];
        NothingUnsellable(lines, catalog, k);
        if line.productId !in productById {
          return Err(ProductNotFound), itemTotals;
        }
        var product := productById[line.productId];
        if !product.active {
          return Err(InactiveProduct), itemTotals;
        }
        var lineTotal := ItemTotal(product.price, line.quantity);
        itemTotals := itemTotals + [lineTotal];
        orderItems := orderItems + [Item(itemIds[k], orderId, line.productId, line.quantity, product.price, lineTotal)];
      }
      NothingUnsellable(lines, catalog, |lines|);
      return Ok(orderItems), itemTotals;
    }

    /** The validation loop over the lines of a request. */
    method Validate(lines: seq<LineInput>) returns (err: Option<AppError>)
      ensures err == FirstInvalid(lines)
    {
      for k := 0 to |lines|
        invariant forall j :: 0 <= j < k ==> lines[j].quantity >= 1 && lines[j].productId != NIL_UUID
      {
        NothingInvalid(lines, k);
        if lines[k].quantity < 1 {
          return Some(QuantityNotPositive);
        }
        if lines[k].productId == NIL_UUID {
          return Some(ProductIdRequired);
        }
      }
      NothingInvalid(lines, |lines|);
      return None;
    }

    /** Everything Create does before it writes. */
    method Prepare(createdBy: Uuid, customerId: Uuid, lines: seq<LineInput>, x: Surroundings)
      returns (r: Result<Draft, AppError>)
      requires x.orderId != NIL_UUID && |x.itemIds| == |lines|
      requires forall id :: id in x.catalog ==> x.catalog[id].id == id
      ensures match Refusal(customerId, lines, x)
        case Some(e) => r == Err(e)
        case None => r.Ok? && IsDraft(r.value, createdBy, customerId, lines, x)
    {
      if customerId == NIL_UUID {
        return Err(CustomerIdRequired);
      }
      if |lines| == 0 {
        return Err(ItemsRequired);
      }
      var invalid := Validate(lines);
      if invalid.Some? {
        return Err(invalid.value);
      }
      if !x.customersUp {
        return Err(CustomerUnavailable);
      }
      if customerId !in x.customers {
        return Err(CustomerNotFound);
      }
      if !x.customers[customerId] {
        return Err(InactiveCustomer);
      }
      if !x.productsUp {
        return Err(ProductsUnavailable);
      }
      var priced, itemTotals := PriceLines(lines, x.catalog, x.orderId, x.itemIds);
      if priced.Err? {
        return Err(priced.error);
      }
      var items := priced.value;
      assert forall k :: 0 <= k < |items| ==> IsPriced(items[k], lines[k], x.orderId, x.catalog);
      var total := OrderTotal(itemTotals);
      return Ok(Draft(Order(x.orderId, customerId, Created, total, createdBy, x.now, x.now, None), items));
    }

    /**
     * Create stores a consistent order and then publishes one message for it. A refused request
     * changes nothing; a failed commit publishes nothing; a failed publication leaves the stored
     * order behind.
     */
    method Create(createdBy: Uuid, customerId: Uuid, lines: seq<LineInput>, x: Surroundings)
      returns (r: Result<Order, AppError>, ghost d: Option<Draft>)
      requires x.orderId != NIL_UUID && x.orderId !in repo.inner.orders && |x.itemIds| == |lines|
      requires forall id :: id in x.catalog ==> x.catalog[id].id == id
      modifies repo.inner, producer, metrics
      ensures match Refusal(customerId, lines, x)
        case Some(e) =>
          r == Err(e) && d == None && unchanged(repo.inner) && unchanged(producer) && unchanged(metrics)
        case None =>
          && d.Some? && IsDraft(d.value, createdBy, customerId, lines, x)
          && var order := d.value.order;
          && repo.inner.orders == (if x.commit == CleanError then old(repo.inner.orders)
                                   else old(repo.inner.orders)[order.id := order])
          && repo.inner.items == (if x.commit == CleanError then old(repo.inner.items)
                                  else old(repo.inner.items)[order.id := d.value.items])
          && producer.messages == (if x.commit == Done && x.publish != CleanError
                                   then old(producer.messages)
                                     + [Message(order.id, "ORDER_CREATED", order.createdAt, 0)]
                                   else old(producer.messages))
          && metrics.Value() == (var m := old(metrics.Value());
                                 if x.commit == Done && x.publish == Done then m.(created := m.created + 1) else m)
          && r == (if x.commit != Done then Err(StoreFailed)
                   else if x.publish != Done then Err(NotQueued)
                   else Ok(order))
      ensures r.Ok? <==>
        && customerId != NIL_UUID && lines != []
        && (forall k :: 0 <= k < |lines| ==> lines[k].quantity >= 1 && lines[k].productId != NIL_UUID)
        && x.customersUp && customerId in x.customers && x.customers[customerId]
        && x.productsUp
        && (forall k :: 0 <= k < |lines| ==> lines[k].productId in x.catalog && x.catalog[lines[k].productId].active)
        && x.commit == Done && x.publish == Done
      ensures r.Ok? ==>
        && r.value.id == x.orderId && r.value.customerId == customerId && r.value.createdBy == createdBy
        && r.value.status == Created && r.value.createdAt == x.now && r.value.updatedAt == x.now
        && r.value.processedAt == None
        && repo.inner.orders == old(repo.inner.orders)[x.orderId := r.value]
        && producer.messages == old(producer.messages) + [Message(x.orderId, "ORDER_CREATED", x.now, 0)]
      ensures r.Ok? ==>
        && x.orderId in repo.inner.items && |repo.inner.items[x.orderId]| == |lines|
        && forall k :: 0 <= k < |lines| ==>
             && var item := repo.inner.items[x.orderId][k];
             && item.orderId == x.orderId && item.productId == lines[k].productId && item.quantity == lines[k].quantity
             && lines[k].productId in x.catalog && item.unitPrice == x.catalog[lines[k].productId].price
             && item.totalPrice == Wrap(item.unitPrice * item.quantity)
    {
      RefusalIff(customerId, lines, x);
      var prepared := Prepare(createdBy, customerId, lines, x);
      if prepared.Err? {
        return Err(prepared.error), None;
      }
      var order, items := prepared.value.order, prepared.value.items;
      d := Some(prepared.value);
      var err := repo.inner.CreateWithItems(Some(order), items, x.commit);
      if err != None {
        return Err(StoreFailed), d;
      }
      var published := producer.PublishOrderCreated(CreatedMessage(order), x.publish);
      if !published {
        return Err(NotQueued), d;
      }
      metrics.created := metrics.created + 1;
      return Ok(order), d;
    }

    /** Cancel and Ship: check the status, then write. */
    method Transition(id: Uuid, to: Status, required: Status, load: Outcome, now: int, fate: Outcome)
      returns (r: Result<Order, AppError>)
      requires to != Processing
      modifies repo.inner`orders
      ensures load != Done ==> r == Err(StoreFailed) && unchanged(repo.inner)
      ensures load == Done && id !in old(repo.inner.orders) ==> r == Err(NoSuchOrder) && unchanged(repo.inner)
      ensures load == Done && id in old(repo.inner.orders) ==>
        var status := old(repo.inner.orders)[id].status;
        if status != required || !CanTransition(status, to) then r == Err(InvalidStatus) && unchanged(repo.inner)
        else
          && repo.inner.orders ==
               (if fate == CleanError then old(repo.inner.orders)
                else old(repo.inner.orders)[id := old(repo.inner.orders)[id].(status := to, updatedAt := now)])
          && r == (if fate != Done then Err(StoreFailed)
                   else Ok(old(repo.inner.orders)[id].(status := to, updatedAt := now)))
    {
      var found := repo.inner.FindByID(id, load);
      if found.Err? {
        return Err(if found.error == OrderNotFound then NoSuchOrder else StoreFailed);
      }
      var order := found.value.0;
      if order.status != required {
        return Err(InvalidStatus);
      }
      if !CanTransition(order.status, to) {
        return Err(InvalidStatus);
      }
      var err := repo.UpdateStatus(id, to, now, Done, fate);
      if err != None {
        return Err(StoreFailed);
      }
      return Ok(order.(status := to, updatedAt := now));
    }

    /** BR-ORD-007: only Created orders can be canceled. */
    method Cancel(id: Uuid, load: Outcome, now: int, fate: Outcome) returns (r: Result<Order, AppError>)
      modifies repo.inner`orders
      ensures var was := old(repo.inner.orders);
              var passes := load == Done && id in was && was[id].status == Created;
        && (r.Ok? <==> passes && fate == Done)
        && repo.inner.orders == (if passes && fate != CleanError
                                 then was[id := was[id].(status := Canceled, updatedAt := now)] else was)
    {
      r := Transition(id, Canceled, Created, load, now, fate);
    }

    /** BR-ORD-008: only Paid orders can be shipped. */
    method Ship(id: Uuid, load: Outcome, now: int, fate: Outcome) returns (r: Result<Order, AppError>)
      modifies repo.inner`orders
      ensures var was := old(repo.inner.orders);
              var passes := load == Done && id in was && was[id].status == Paid;
        && (r.Ok? <==> passes && fate == Done)
        && repo.inner.orders == (if passes && fate != CleanError
                                 then was[id := was[id].(status := Shipped, updatedAt := now)] else was)
    {
      r := Transition(id, Shipped, Paid, load, now, fate);
    }

    /** BR-ORD-009, BR-ORD-010: drive a Created order through payment; leave any other order alone. */
    method Process(orderId: Uuid, f: Fates) returns (err: Option<RepoError>)
      modifies repo.inner`orders, metrics
      ensures var e := ProcessEffect(repo.sentinel, old(repo.inner.orders), old(metrics.Value()), orderId, f);
        repo.inner.orders == e.orders && metrics.Value() == e.metrics && (err != None <==> e.failed)
      ensures orderId == NIL_UUID ==> err == None && unchanged(repo.inner) && unchanged(metrics)
      ensures orderId != NIL_UUID && f.load != Done ==> err != None && unchanged(repo.inner) && unchanged(metrics)
      ensures var was := old(repo.inner.orders);
        f.load == Done && (orderId !in was || was[orderId].status != Created) ==>
          err == None && unchanged(repo.inner) && unchanged(metrics)
      ensures var was := old(repo.inner.orders);
        orderId != NIL_UUID && orderId in was && was[orderId].status == Created && repo.sentinel == None
        && f.load == Done && f.claim == Done && f.record == Done ==>
          && err == None
          && repo.inner.orders == was[orderId := was[orderId].(status := if f.approved then Paid else Failed,
                                                               processedAt := Some(f.processedAt),
                                                               updatedAt := f.processedAt)]
          && metrics.processed == old(metrics.processed) + (if f.approved then 1 else 0)
          && metrics.durations == old(metrics.durations) + (if f.approved then 1 else 0)
          && metrics.failed == old(metrics.failed) + (if f.approved then 0 else 1)
          && metrics.created == old(metrics.created)
    {
      if orderId == NIL_UUID {
        return None;
      }
      var found := repo.inner.FindByID(orderId, f.load);
      if found.Err? {
        if found.error == OrderNotFound {
          return None;
        }
        return Some(found.error);
      }
      var order := found.value.0;
      if order.status != Created {
        return None;
      }
      if !CanTransition(order.status, Processing) {
        return Some(Infrastructure);
      }
      err := repo.UpdateStatus(orderId, Processing, f.claimedAt, f.screen, f.claim);
      if err != None {
        return;
      }
      if !f.approved {
        err := repo.inner.MarkProcessed(orderId, Failed, f.processedAt, f.record);
        if err != None {
          return;
        }
        metrics.failed := metrics.failed + 1;
        return None;
      }
      err := repo.inner.MarkProcessed(orderId, Paid, f.processedAt, f.record);
      if err != None {
        return;
      }
      metrics.processed := metrics.processed + 1;
      metrics.durations := metrics.durations + 1;
      return None;
    }
  }
}
