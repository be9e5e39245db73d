/** The create-order use case: build the order (validation errors escape
    unchanged), hand it to the repository's `save` once, and replace any
    storage failure by a fixed message. */
module CreateOrder {
  import opened Errors
  import opened Orders

  const CREATE_ORDER_FAILED := "Erreur lors de la création de la commande"

  /** What one call does: its result, the persisted orders afterwards, and
      the order passed to `save` (`None` when `save` is not called). */
  datatype OrderStep = OrderStep(result: Result<Order>, orders: seq<Order>, saveCall: Option<Order>)

  /** The specification of `execute` on a store holding `orders` whose next
      `save` succeeds exactly when `saveSucceeds`. */
  function CreateOrderSpec(orders: seq<Order>, saveSucceeds: bool,
                           productIds: Option<seq<int>>, totalPrice: real, now: int): (s: OrderStep)
    ensures NewOrder(productIds, totalPrice, now).Err? ==>
      s == OrderStep(NewOrder(productIds, totalPrice, now), orders, None)
    ensures NewOrder(productIds, totalPrice, now).Ok? ==>
      s.saveCall == Some(NewOrder(productIds, totalPrice, now).value)
    ensures s.saveCall.Some? && saveSucceeds ==>
      s.result == Ok(s.saveCall.value) && s.orders == orders + [s.saveCall.value]
    ensures s.saveCall.Some? && !saveSucceeds ==>
      s.result == Err(Error(CREATE_ORDER_FAILED)) && s.orders == orders
    ensures s.result.Ok? ==>
      && ValidOrder(s.result.value)
      && s.result.value.productIds == productIds.value
      && s.result.value.totalPrice == totalPrice
      && s.result.value.status == PENDING
  {
    match NewOrder(productIds, totalPrice, now)
    case Err(e) => OrderStep(Err(e), orders, None)
    case Ok(order) =>
      if saveSucceeds then OrderStep(Ok(order), orders + [order], Some(order))
      else OrderStep(Err(Error(CREATE_ORDER_FAILED)), orders, Some(order))
  }

  /** An in-memory repository: the orders it holds, whether its writes
      succeed, and (ghost) every order ever passed to `Save`. */
  class OrderStore {
    var orders: seq<Order>
    var acceptsWrites: bool
    ghost var saveCalls: seq<Order>

    constructor (acceptsWrites: bool)
      ensures orders == [] && saveCalls == [] && this.acceptsWrites == acceptsWrites
    {
      orders := [];
      this.acceptsWrites := acceptsWrites;
      saveCalls := [];
    }

    /** `save(order)`: resolves and appends the order, or rejects and keeps the store. */
    method Save(order: Order) returns (ok: bool)
      modifies this
      ensures ok == old(acceptsWrites) && acceptsWrites == old(acceptsWrites)
      ensures orders == if ok then old(orders) + [order] else old(orders)
      ensures saveCalls == old(saveCalls) + [order]
    {
      ok := acceptsWrites;
      if ok {
        orders := orders + [order];
      }
      saveCalls := saveCalls + [order];
    }
  }

  class CreateOrderUseCase {
    /** Assigned once, by the constructor. */
    const orderRepository: OrderStore

    constructor (orderRepository: OrderStore)
      ensures this.orderRepository == orderRepository
    {
      this.orderRepository := orderRepository;
    }

    /** `now` is the clock reading the order is stamped with. */
    method Execute(productIds: Option<seq<int>>, totalPrice: real, now: int) returns (r: Result<Order>)
      modifies orderRepository
      ensures var s := CreateOrderSpec(old(orderRepository.orders), old(orderRepository.acceptsWrites),
                                       productIds, totalPrice, now);
        && r == s.result
        && orderRepository.orders == s.orders
        && orderRepository.saveCalls == old(orderRepository.saveCalls) +
             (if s.saveCall.Some? then [s.saveCall.value] else [])
      ensures orderRepository.acceptsWrites == old(orderRepository.acceptsWrites)
    {
      var built := NewOrder(productIds, totalPrice, now);
      if built.Err? {
        return built;
      }
      var order := built.value;
      var ok := orderRepository.Save(order);
      if ok {
        r := Ok(order);
      } else {
        r := Err(Error(CREATE_ORDER_FAILED));
      }
    }
  }

  // Any number of requests against one store.

  datatype OrderRequest = OrderRequest(productIds: Option<seq<int>>, totalPrice: real, now: int, saveSucceeds: bool)

  /** The orders persisted after serving `requests` in turn. */
  function ReplayOrders(orders: seq<Order>, requests: seq<OrderRequest>): seq<Order>
    decreases |requests|
  {
    if requests == [] then orders
    else
      var q := requests[0];
      ReplayOrders(CreateOrderSpec(orders, q.saveSucceeds, q.productIds, q.totalPrice, q.now).orders, requests[1..])
  }

  predicate AllValid(orders: seq<Order>) {
    forall i | 0 <= i < |orders| :: ValidOrder(orders[i])
  }

  /** Whatever the requests and storage failures, the store only grows
      (earlier orders are kept as they were), by at most one order per
      request, and everything persisted satisfies the order invariant. */
  lemma {:induction false} ReplayPersistsOnlyValidOrders(orders: seq<Order>, requests: seq<OrderRequest>)
    requires AllValid(orders)
    ensures orders <= ReplayOrders(orders, requests)
    ensures AllValid(ReplayOrders(orders, requests))
    ensures |ReplayOrders(orders, requests)| <= |orders| + |requests|
    decreases |requests|
  {
    if requests != [] {
      var q := requests[0];
      var next := CreateOrderSpec(orders, q.saveSucceeds, q.productIds, q.totalPrice, q.now).orders;
      assert orders <= next;
      ReplayPersistsOnlyValidOrders(next, requests[1..]);
    }
  }

  /** The successful case of the use-case test: `[1, 2, 3]` for a total of 150. */
  lemma ValidOrderIsCreated(now: int)
    ensures CreateOrderSpec([], true, Some([1, 2, 3]), 150.0, now).result ==
      Ok(Order(None, [1, 2, 3], 150.0, now, PENDING))
  {
  }

  /** The three rejection cases of the use-case test. */
  lemma InvalidOrdersAreRejected(orders: seq<Order>, saveSucceeds: bool, now: int)
    ensures CreateOrderSpec(orders, saveSucceeds, Some([1, 2, 3, 4, 5, 6]), 300.0, now).result == Err(Error(TOO_MANY_PRODUCTS))
    ensures CreateOrderSpec(orders, saveSucceeds, Some([1, 2]), 1.0, now).result == Err(Error(TOTAL_TOO_LOW))
    ensures CreateOrderSpec(orders, saveSucceeds, Some([1, 2]), 600.0, now).result == Err(Error(TOTAL_TOO_HIGH))
  {
  }

  /** The use-case test run through the method contracts alone. */
  method CreateOrderClient(now: int)
    returns (created: Result<Order>, tooMany: Result<Order>, tooCheap: Result<Order>, tooDear: Result<Order>,
             persisted: seq<Order>)
    ensures created == Ok(Order(None, [1, 2, 3], 150.0, now, PENDING))
    ensures tooMany == Err(Error(TOO_MANY_PRODUCTS))
    ensures tooCheap == Err(Error(TOTAL_TOO_LOW))
    ensures tooDear == Err(Error(TOTAL_TOO_HIGH))
    ensures persisted == [created.value]
  {
    var store := new OrderStore(true);
    var useCase := new CreateOrderUseCase(store);
    created := useCase.Execute(Some([1, 2, 3]), 150.0, now);
    tooMany := useCase.Execute(Some([1, 2, 3, 4, 5, 6]), 300.0, now);
    tooCheap := useCase.Execute(Some([1, 2]), 1.0, now);
    tooDear := useCase.Execute(Some([1, 2]), 600.0, now);
    persisted := store.orders;
  }
}
