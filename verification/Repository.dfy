/** The order repositories: the stored orders and the wrapper that fails on a sentinel total. */
module Repository {
  import opened Basics
  import opened OrderModel
  import opened Pipeline

  datatype RepoError = OrderNotFound | Infrastructure | OrderIsNil | OrderWithoutItems | ItemOrderMismatch

  /** The items belong to the order. */
  predicate AllOf(order: Order, items: seq<Item>) {
    forall k :: 0 <= k < |items| ==> items[k].orderId == order.id
  }

  /**
   * The stored orders. The fate of a call says whether the store carries it out and what it
   * answers; the in-memory repository always answers Done.
   */
  class OrderRepository {
    var orders: map<Uuid, Order>
    var items: map<Uuid, seq<Item>>
    var commitCount: nat

    constructor ()
      ensures orders == map[] && items == map[] && commitCount == 0
    {
      orders, items, commitCount := map[], map[], 0;
    }

    /** The order is a pointer, None standing for nil. */
    method CreateWithItems(order: Option<Order>, newItems: seq<Item>, fate: Outcome) returns (err: Option<RepoError>)
      modifies this
      ensures err == if order == None then Some(OrderIsNil)
                     else if newItems == [] then Some(OrderWithoutItems)
                     else if !AllOf(order.value, newItems) then Some(ItemOrderMismatch)
                     else if fate == Done then None
                     else Some(Infrastructure)
      ensures var stored := order.Some? && newItems != [] && AllOf(order.value, newItems) && fate != CleanError;
        && orders == (if stored then old(orders)[order.value.id := order.value] else old(orders))
        && items == (if stored then old(items)[order.value.id := newItems] else old(items))
        && commitCount == old(commitCount) + (if stored then 1 else 0)
      ensures err == None ==>
        order.Some? && |newItems| > 0 && forall item :: item in newItems ==> item.orderId == order.value.id
      ensures err == Some(ItemOrderMismatch) ==>
        order.Some? && exists item :: item in newItems && item.orderId != order.value.id
    {
      if order == None {
        return Some(OrderIsNil);
      }
      if |newItems| == 0 {
        return Some(OrderWithoutItems);
      }
      for k := 0 to |newItems|
        invariant forall j :: 0 <= j < k ==> newItems[j].orderId == order.value.id
        invariant orders == old(orders) && items == old(items) && commitCount == old(commitCount)
      {
        if newItems[k].orderId != order.value.id {
          return Some(ItemOrderMismatch);
        }
      }
      if fate == CleanError {
        return Some(Infrastructure);
      }
      orders := orders[order.value.id := order.value];
      items := items[order.value.id := newItems];
      commitCount := commitCount + 1;
      return if fate == Done then None else Some(Infrastructure);
    }

    /** The items of an order, none for an id without any. */
    function ItemsFor(id: Uuid): seq<Item>
      reads this
    {
      if id in items then items[id] else []
    }

    method FindByID(id: Uuid, fate: Outcome) returns (r: Result<(Order, seq<Item>), RepoError>)
      ensures r == if fate != Done then Err(Infrastructure)
                   else if id in orders then Ok((orders[id], ItemsFor(id)))
                   else Err(OrderNotFound)
      ensures r.Ok? ==> id in orders && r.value.0 == orders[id]
      ensures r.Ok? && id in items ==> r.value.1 == items[id]
      ensures r.Ok? && id !in items ==> r.value.1 == []
    {
      if fate != Done {
        return Err(Infrastructure);
      }
      if id !in orders {
        return Err(OrderNotFound);
      }
      return Ok((orders[id], ItemsFor(id)));
    }

    method UpdateStatus(id: Uuid, status: Status, now: int, fate: Outcome) returns (err: Option<RepoError>)
      modifies this`orders
      ensures orders == if fate == CleanError then old(orders) else WithStatus(old(orders), id, status, now)
      ensures err == None <==> fate == Done && id in old(orders)
      ensures fate == Done && id !in old(orders) ==> err == Some(OrderNotFound)
      ensures fate == CleanError || id !in old(orders) ==> orders == old(orders)
      ensures fate != CleanError && id in old(orders) ==>
        orders == old(orders)[id := old(orders)[id].(status := status, updatedAt := now)]
    {
      if fate == CleanError {
        return Some(Infrastructure);
      }
      if id !in orders {
        return if fate == Done then Some(OrderNotFound) else Some(Infrastructure);
      }
      var order := orders[id];
      orders := orders[id := order.(status := status, updatedAt := now)];
      return if fate == Done then None else Some(Infrastructure);
    }

    method MarkProcessed(id: Uuid, status: Status, processedAt: int, fate: Outcome) returns (err: Option<RepoError>)
      modifies this`orders
      ensures orders == if fate == CleanError then old(orders) else WithProcessed(old(orders), id, status, processedAt)
      ensures err == None <==> fate == Done && id in old(orders)
      ensures fate == Done && id !in old(orders) ==> err == Some(OrderNotFound)
      ensures fate == CleanError || id !in old(orders) ==> orders == old(orders)
      ensures fate != CleanError && id in old(orders) ==>
        orders == old(orders)[id := old(orders)[id].(status := status, processedAt := Some(processedAt),
                                                     updatedAt := processedAt)]
    {
      if fate == CleanError {
        return Some(Infrastructure);
      }
      if id !in orders {
        return if fate == Done then Some(OrderNotFound) else Some(Infrastructure);
      }
      var order := orders[id];
      orders := orders[id := order.(status := status, processedAt := Some(processedAt), updatedAt := processedAt)];
      return if fate == Done then None else Some(Infrastructure);
    }
  }

  /** The wrapper of the worker binary; without a sentinel it only forwards. */
  class TransientFailureRepo {
    const inner: OrderRepository
    const sentinel: Option<Int64>

    constructor (inner: OrderRepository, sentinel: Option<Int64>)
      ensures this.inner == inner && this.sentinel == sentinel
    {
      this.inner, this.sentinel := inner, sentinel;
    }

    /** The sentinel's look-up decides whether the write goes through; without a sentinel it always does. */
    method UpdateStatus(id: Uuid, status: Status, now: int, lookup: Outcome, fate: Outcome)
      returns (err: Option<RepoError>)
      modifies inner`orders
      ensures var was := old(inner.orders);
              var refuses := sentinel.Some? && status == Processing && lookup == Done
                             && id in was && was[id].total == sentinel.value;
        && (refuses ==> err == Some(Infrastructure) && inner.orders == was)
        && (!refuses ==>
              && (err == None <==> fate == Done && id in was)
              && inner.orders == (if fate == CleanError || id !in was then was
                                  else was[id := was[id].(status := status, updatedAt := now)]))
    {
      if sentinel.Some? && status == Processing {
        var found := inner.FindByID(id, lookup);
        if found.Ok? && found.value.0.total == sentinel.value {
          return Some(Infrastructure);
        }
      }
      err := inner.UpdateStatus(id, status, now, fate);
    }
  }
}
