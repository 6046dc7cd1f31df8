/**
 * OrderService: the order status lifecycle, the stock an order reserves when it is created
 * and gives back when it is cancelled, and the per-user order counts. OrderService holds no
 * reference to the cache, so none of its writes drops a cached entry.
 */
module OrderService {
  import opened Wrappers
  import opened Database

  // ---------------------------------------------------------------------------------------
  // Status transitions

  /**
   * isValidStatusTransition: the one table updateOrderStatusByProducer checks against. An
   * allowed move never leaves DELIVERED or CANCELLED and never goes back along the lifecycle.
   */
  function IsValidStatusTransition(current: OrderStatus, next: OrderStatus): (allowed: bool)
    ensures allowed ==> current != DELIVERED && current != CANCELLED
    ensures allowed ==> Stage(current) < Stage(next)
  {
    match current
    case PENDING => next == CONFIRMED || next == CANCELLED
    case CONFIRMED => next == PREPARING || next == CANCELLED
    case PREPARING => next == SHIPPED
    case SHIPPED => next == DELIVERED
    case DELIVERED => false
    case CANCELLED => false
  }

  /** The position of a status along the lifecycle, cancellation last. */
  function Stage(s: OrderStatus): (n: nat)
    ensures n <= 5
  {
    match s
    case PENDING => 0
    case CONFIRMED => 1
    case PREPARING => 2
    case SHIPPED => 3
    case DELIVERED => 4
    case CANCELLED => 5
  }

  predicate IsFinal(s: OrderStatus) { forall next: OrderStatus :: !IsValidStatusTransition(s, next) }

  /**
   * Every allowed transition moves strictly forward, so no status is ever re-entered through
   * the table; DELIVERED and CANCELLED, and only they, allow no transition at all.
   */
  lemma TransitionsMoveForward(current: OrderStatus, next: OrderStatus)
    ensures IsValidStatusTransition(current, next) ==> Stage(current) < Stage(next)
    ensures IsFinal(current) <==> current == DELIVERED || current == CANCELLED
  {
    if !IsFinal(current) {
      assert current != DELIVERED && current != CANCELLED;
    } else {
      assert !IsValidStatusTransition(current, CONFIRMED) && !IsValidStatusTransition(current, PREPARING);
      assert !IsValidStatusTransition(current, SHIPPED) && !IsValidStatusTransition(current, DELIVERED);
    }
  }

  /** The statuses cancelOrder accepts are exactly those the table lets move to CANCELLED. */
  lemma CancellableIffTableAllows(s: OrderStatus)
    ensures (s == PENDING || s == CONFIRMED) <==> IsValidStatusTransition(s, CANCELLED)
  {
  }

  /** confirmDelivery accepts SHIPPED only, the one status the table lets move to DELIVERED. */
  lemma DeliverableIffTableAllows(s: OrderStatus)
    ensures s == SHIPPED <==> IsValidStatusTransition(s, DELIVERED)
  {
  }

  // ---------------------------------------------------------------------------------------
  // Stock

  /** The total quantity that a list of order lines asks of one product. */
  function Demand(items: seq<OrderItem>, productId: int): int
  {
    if items == [] then 0
    else (if items[0].productId == productId then items[0].quantity else 0) + Demand(items[1..], productId)
  }

  /**
   * The stock loop of createOrder as written, line by line: a missing product or a line
   * asking for more than the product has left (after the earlier lines) throws; otherwise
   * the line's quantity is taken off the product. Nothing checks the sign of a quantity: the
   * request's item list carries no cascading validation, so the line constraints of the item
   * request are never applied.
   */
  function ReserveAsWritten(products: map<int, Product>, items: seq<OrderItem>): (r: Option<map<int, Product>>)
    ensures r.Some? ==> r.value.Keys == products.Keys && AllKnown(products, items)
    decreases |items|
  {
    if items == [] then Some(products)
    else
      var line := items[0];
      if line.productId !in products then None
      else
        var p := products[line.productId];
        if p.quantity < line.quantity then None
        else ReserveAsWritten(products[line.productId := p.(quantity := p.quantity - line.quantity)], items[1..])
  }

  /**
   * The stock loop as intended: the loop as written, with a line whose quantity is not
   * positive rejected, as the item request's own constraints demand.
   */
  function Reserve(products: map<int, Product>, items: seq<OrderItem>): (r: Option<map<int, Product>>)
    ensures r.Some? ==> r.value.Keys == products.Keys && AllKnown(products, items) && Positive(items)
    decreases |items|
  {
    if items == [] then Some(products)
    else
      var line := items[0];
      if line.quantity <= 0 || line.productId !in products then None
      else
        var p := products[line.productId];
        if p.quantity < line.quantity then None
        else Reserve(products[line.productId := p.(quantity := p.quantity - line.quantity)], items[1..])
  }

  /** The stock loop of cancelOrder: each line's quantity goes back onto its product. */
  function Release(products: map<int, Product>, items: seq<OrderItem>): (r: map<int, Product>)
    ensures r.Keys == products.Keys
    decreases |items|
  {
    if items == [] then products
    else
      var line := items[0];
      var next := if line.productId in products then
                    products[line.productId := products[line.productId].(quantity := products[line.productId].quantity + line.quantity)]
                  else products;
      Release(next, items[1..])
  }

  predicate SameStockExcept(a: map<int, Product>, b: map<int, Product>, items: seq<OrderItem>, sign: int)
  {
    a.Keys == b.Keys &&
    forall id :: id in a ==> b[id] == a[id].(quantity := a[id].quantity + sign * Demand(items, id))
  }

  /** A successful reservation takes each product's whole demand off it and touches nothing else. */
  lemma {:induction false} ReserveTakesDemand(products: map<int, Product>, items: seq<OrderItem>)
    requires Reserve(products, items).Some?
    ensures SameStockExcept(products, Reserve(products, items).value, items, -1)
    decreases |items|
  {
    if items != [] {
      var line := items[0];
      var p := products[line.productId];
      var next := products[line.productId := p.(quantity := p.quantity - line.quantity)];
      ReserveTakesDemand(next, items[1..]);
    }
  }

  /** Releasing gives each product its whole demand back and touches nothing else. */
  lemma {:induction false} ReleaseGivesDemand(products: map<int, Product>, items: seq<OrderItem>)
    ensures SameStockExcept(products, Release(products, items), items, 1)
    decreases |items|
  {
    if items != [] {
      var line := items[0];
      var next := if line.productId in products then
                    products[line.productId := products[line.productId].(quantity := products[line.productId].quantity + line.quantity)]
                  else products;
      ReleaseGivesDemand(next, items[1..]);
    }
  }

  /** Cancelling an order puts back exactly the stock that creating it took. */
  lemma CancelRestoresStock(products: map<int, Product>, items: seq<OrderItem>)
    requires Reserve(products, items).Some?
    ensures Release(Reserve(products, items).value, items) == products
  {
    var reserved := Reserve(products, items).value;
    ReserveTakesDemand(products, items);
    ReleaseGivesDemand(reserved, items);
    var back := Release(reserved, items);
    assert back.Keys == products.Keys;
    forall id | id in products ensures back[id] == products[id] {
    }
  }

  predicate Positive(items: seq<OrderItem>)
  {
    forall i :: 0 <= i < |items| ==> items[i].quantity > 0
  }

  lemma {:induction false} DemandOfPositive(items: seq<OrderItem>, productId: int)
    requires Positive(items)
    ensures Demand(items, productId) >= 0
    ensures (exists i :: 0 <= i < |items| && items[i].productId == productId) ==> Demand(items, productId) > 0
    decreases |items|
  {
    if items != [] {
      DemandOfPositive(items[1..], productId);
      if exists i :: 0 <= i < |items| && items[i].productId == productId {
        var i :| 0 <= i < |items| && items[i].productId == productId;
        if i > 0 {
          assert items[1..][i - 1].productId == productId;
        }
      }
    }
  }

  predicate AllKnown(products: map<int, Product>, items: seq<OrderItem>)
  {
    forall i :: 0 <= i < |items| ==> items[i].productId in products
  }

  /** Each product an order line names has at least the lines' total demand in stock. */
  predicate DemandFits(products: map<int, Product>, items: seq<OrderItem>)
  {
    forall i :: 0 <= i < |items| && items[i].productId in products ==>
      Demand(items, items[i].productId) <= products[items[i].productId].quantity
  }

  /** One passing line of the stock loop: the rest fits what is left iff the whole list fits. */
  lemma DemandFitsStep(products: map<int, Product>, items: seq<OrderItem>)
    requires items != [] && Positive(items)
    requires items[0].productId in products && items[0].quantity <= products[items[0].productId].quantity
    ensures var line := items[0];
            var p := products[line.productId];
            var next := products[line.productId := p.(quantity := p.quantity - line.quantity)];
            DemandFits(next, items[1..]) <==> DemandFits(products, items)
  {
    var line := items[0];
    var rest := items[1..];
    var p := products[line.productId];
    var next := products[line.productId := p.(quantity := p.quantity - line.quantity)];
    if DemandFits(next, rest) {
      forall i | 0 <= i < |items| && items[i].productId in products
        ensures Demand(items, items[i].productId) <= products[items[i].productId].quantity
      {
        if i > 0 {
          assert items[i] == rest[i - 1];
        } else if exists j :: 0 <= j < |rest| && rest[j].productId == line.productId {
          var j :| 0 <= j < |rest| && rest[j].productId == line.productId;
          assert Demand(rest, rest[j].productId) <= next[rest[j].productId].quantity;
        } else {
          NoLineNoDemand(rest, line.productId);
        }
      }
    }
    if DemandFits(products, items) {
      forall j | 0 <= j < |rest| && rest[j].productId in next
        ensures Demand(rest, rest[j].productId) <= next[rest[j].productId].quantity
      {
        assert rest[j] == items[j + 1];
        assert Demand(items, items[0].productId) <= products[items[0].productId].quantity;
      }
    }
  }

  /**
   * The intended stock checks pass exactly when every line is positive, every product exists
   * and each product's total demand fits its stock: the order of the lines does not matter.
   */
  lemma {:induction false} ReserveSucceedsIff(products: map<int, Product>, items: seq<OrderItem>)
    ensures Reserve(products, items).Some? <==>
              Positive(items) && AllKnown(products, items) && DemandFits(products, items)
    decreases |items|
  {
    if items != [] {
      var line := items[0];
      var rest := items[1..];
      assert Positive(items) <==> line.quantity > 0 && Positive(rest) by {
        if line.quantity > 0 && Positive(rest) {
          forall i | 0 <= i < |items| ensures items[i].quantity > 0 {
            if i > 0 { assert items[i] == rest[i - 1]; }
          }
        }
        if Positive(items) {
          forall i | 0 <= i < |rest| ensures rest[i].quantity > 0 { assert rest[i] == items[i + 1]; }
        }
      }
      assert AllKnown(products, items) <==> line.productId in products && AllKnown(products, rest) by {
        if line.productId in products && AllKnown(products, rest) {
          forall i | 0 <= i < |items| ensures items[i].productId in products {
            if i > 0 { assert items[i] == rest[i - 1]; }
          }
        }
        if AllKnown(products, items) {
          forall i | 0 <= i < |rest| ensures rest[i].productId in products { assert rest[i] == items[i + 1]; }
        }
      }
      if line.quantity <= 0 {
      } else if line.productId !in products {
        assert !AllKnown(products, items) by { assert items[0].productId !in products; }
      } else {
        var p := products[line.productId];
        var next := products[line.productId := p.(quantity := p.quantity - line.quantity)];
        if p.quantity < line.quantity {
          if Positive(rest) {
            DemandOfPositive(rest, line.productId);
            assert Demand(items, items[0].productId) > products[items[0].productId].quantity;
            assert !DemandFits(products, items);
          }
        } else {
          ReserveSucceedsIff(next, rest);
          assert AllKnown(next, rest) <==> AllKnown(products, rest);
          if Positive(rest) {
            DemandFitsStep(products, items);
          }
        }
      }
    }
  }

  /** The intended loop is the loop as written behind a check that every line is positive. */
  lemma {:induction false} ReserveIsCheckedLoop(products: map<int, Product>, items: seq<OrderItem>)
    ensures Reserve(products, items) == if Positive(items) then ReserveAsWritten(products, items) else None
    decreases |items|
  {
    if items != [] {
      var line := items[0];
      var rest := items[1..];
      assert Positive(items) <==> line.quantity > 0 && Positive(rest) by {
        if line.quantity > 0 && Positive(rest) {
          forall i | 0 <= i < |items| ensures items[i].quantity > 0 {
            if i > 0 { assert items[i] == rest[i - 1]; }
          }
        }
        if Positive(items) {
          forall i | 0 <= i < |rest| ensures rest[i].quantity > 0 { assert rest[i] == items[i + 1]; }
        }
      }
      if line.quantity > 0 && line.productId in products {
        var p := products[line.productId];
        if p.quantity >= line.quantity {
          ReserveIsCheckedLoop(products[line.productId := p.(quantity := p.quantity - line.quantity)], rest);
        }
      }
    }
  }

  /**
   * The loop as written accepts a line of -5 on a product with no stock and raises its stock
   * to 5; the intended loop rejects the order.
   */
  lemma ReserveAsWrittenAcceptsNegativeLine()
    ensures ReserveAsWritten(map[1 := Product("p", "", 0, 7)], [OrderItem(1, -5)]) ==
              Some(map[1 := Product("p", "", 5, 7)])
    ensures Reserve(map[1 := Product("p", "", 0, 7)], [OrderItem(1, -5)]).None?
  {
    var products := map[1 := Product("p", "", 0, 7)];
    var items := [OrderItem(1, -5)];
    var next := products[1 := products[1].(quantity := 0 - -5)];
    assert items[1..] == [];
    assert ReserveAsWritten(products, items) == ReserveAsWritten(next, []);
    assert next == map[1 := Product("p", "", 5, 7)];
  }

  /** After a successful reservation no product that an order line names is left below zero. */
  lemma {:induction false} ReserveLeavesNoNegativeStock(products: map<int, Product>, items: seq<OrderItem>)
    requires Reserve(products, items).Some?
    ensures forall i :: 0 <= i < |items| ==>
              items[i].productId in Reserve(products, items).value &&
              Reserve(products, items).value[items[i].productId].quantity >= 0
    decreases |items|
  {
    if items != [] {
      var line := items[0];
      var rest := items[1..];
      var p := products[line.productId];
      var next := products[line.productId := p.(quantity := p.quantity - line.quantity)];
      var after := Reserve(products, items).value;
      ReserveLeavesNoNegativeStock(next, rest);
      ReserveTakesDemand(next, rest);
      forall i | 0 <= i < |items|
        ensures items[i].productId in after && after[items[i].productId].quantity >= 0
      {
        if i > 0 {
          assert items[i] == rest[i - 1];
        } else if exists j :: 0 <= j < |rest| && rest[j].productId == line.productId {
          var j :| 0 <= j < |rest| && rest[j].productId == line.productId;
          assert after[rest[j].productId].quantity >= 0;
        } else {
          NoLineNoDemand(rest, line.productId);
        }
      }
    }
  }

  lemma {:induction false} NoLineNoDemand(items: seq<OrderItem>, productId: int)
    requires forall j :: 0 <= j < |items| ==> items[j].productId != productId
    ensures Demand(items, productId) == 0
    decreases |items|
  {
    if items != [] {
      NoLineNoDemand(items[1..], productId);
    }
  }

  // ---------------------------------------------------------------------------------------
  // Queries

  /** getOrderByIdAndUserId: the order, only when it belongs to the user. */
  function OrderOfUser(orders: map<int, Order>, orderId: int, userId: int): (r: Option<Order>)
    ensures r.Some? <==> orderId in orders && orders[orderId].userId == userId
    ensures r.Some? ==> r.value == orders[orderId]
  {
    if orderId in orders && orders[orderId].userId == userId then Some(orders[orderId]) else None
  }

  /** The count of a status in a list of orders, as the stream sums of getOrderStatsByUserId. */
  function CountStatus(orders: seq<Order>, s: OrderStatus): (n: nat)
    ensures n <= |orders|
    ensures n == 0 <==> forall i :: 0 <= i < |orders| ==> orders[i].status != s
  {
    if orders == [] then 0 else (if orders[0].status == s then 1 else 0) + CountStatus(orders[1..], s)
  }

  datatype OrderStats = OrderStats(totalOrders: nat, pendingOrders: nat, completedOrders: nat, cancelledOrders: nat)

  /** The counts of getOrderStatsByUserId over the user's orders; completed means DELIVERED. */
  function StatsOf(userOrders: seq<Order>): (st: OrderStats)
    ensures st.totalOrders == |userOrders|
    ensures st.pendingOrders <= st.totalOrders && st.completedOrders <= st.totalOrders &&
            st.cancelledOrders <= st.totalOrders
  {
    OrderStats(|userOrders|, CountStatus(userOrders, PENDING), CountStatus(userOrders, DELIVERED),
               CountStatus(userOrders, CANCELLED))
  }

  /** The three counts are of disjoint statuses, so together they never exceed the total. */
  lemma {:induction false} StatsWithinTotal(userOrders: seq<Order>)
    ensures var st := StatsOf(userOrders);
            st.pendingOrders + st.completedOrders + st.cancelledOrders <= st.totalOrders
    decreases |userOrders|
  {
    if userOrders != [] {
      StatsWithinTotal(userOrders[1..]);
    }
  }

  /** Whether some line of the order is a product of the producer (the anyMatch of both updates). */
  predicate HasProducerProduct(products: map<int, Product>, items: seq<OrderItem>, producerId: int)
  {
    exists i :: 0 <= i < |items| && items[i].productId in products && products[items[i].productId].producerId == producerId
  }

  /** An order request: the lines, and the text fields copied onto the order. */
  datatype OrderRequest = OrderRequest(shippingAddress: string, paymentMethod: string, notes: string, items: seq<OrderItem>)

  class OrderService {
    const db: Tables

    constructor (db: Tables)
      ensures this.db == db
    {
      this.db := db;
    }

    /**
     * createOrder: the user must exist; every line reserves stock (a line whose quantity is
     * not positive is rejected, as intended, where the code as written would add it to the
     * stock); the order is saved as PENDING and the user's cart rows are deleted. Any throw
     * rolls the whole call back.
     * `newId` is the id the database generates for the order.
     */
    method CreateOrder(userId: int, request: OrderRequest, newId: int) returns (r: Result<int>)
      requires newId !in db.orders
      modifies db`products, db`orders, db`cartItems
      ensures (userId !in old(db.users) || Reserve(old(db.products), request.items).None?) ==>
                r.Err? && db.products == old(db.products) && db.orders == old(db.orders) &&
                db.cartItems == old(db.cartItems)
      ensures userId in old(db.users) && Reserve(old(db.products), request.items).Some? ==>
                r == Ok(newId) &&
                db.products == Reserve(old(db.products), request.items).value &&
                db.orders == old(db.orders)[newId := Order(userId, PENDING, request.items,
                                                request.shippingAddress, request.paymentMethod, request.notes)] &&
                db.cartItems == CartsWithoutUser(old(db.cartItems), userId)
    {
      if userId !in db.users {
        return Err("IllegalArgumentException");
      }
      var items := request.items;
      var stock := db.products;
      var i := 0;
      while i < |items|
        invariant 0 <= i <= |items|
        invariant Reserve(db.products, items) == Reserve(stock, items[i..])
      {
        var line := items[i];
        assert items[i..][0] == line && items[i..][1..] == items[i + 1..];
        if line.quantity <= 0 {
          return Err("IllegalArgumentException");
        }
        if line.productId !in stock {
          return Err("IllegalArgumentException");
        }
        var p := stock[line.productId];
        if p.quantity < line.quantity {
          return Err("IllegalArgumentException");
        }
        stock := stock[line.productId := p.(quantity := p.quantity - line.quantity)];
        i := i + 1;
      }
      assert items[i..] == [];
      db.products := stock;
      db.orders := db.orders[newId := Order(userId, PENDING, items, request.shippingAddress,
                                            request.paymentMethod, request.notes)];
      db.cartItems := CartsWithoutUser(db.cartItems, userId);
      r := Ok(newId);
    }

    /**
     * cancelOrder: empty for a missing order; throws for another user's order or a status
     * other than PENDING and CONFIRMED; otherwise every line's stock goes back and the order
     * becomes CANCELLED.
     */
    method CancelOrder(orderId: int, userId: int) returns (r: Result<Option<Order>>)
      modifies db`products, db`orders
      ensures orderId !in old(db.orders) ==>
                r == Ok(None) && db.products == old(db.products) && db.orders == old(db.orders)
      ensures orderId in old(db.orders) ==>
                var order := old(db.orders)[orderId];
                if order.userId != userId || (order.status != PENDING && order.status != CONFIRMED) then
                  r.Err? && db.products == old(db.products) && db.orders == old(db.orders)
                else
                  r == Ok(Some(order.(status := CANCELLED))) &&
                  db.products == Release(old(db.products), order.items) &&
                  db.orders == old(db.orders)[orderId := order.(status := CANCELLED)]
    {
      if orderId !in db.orders {
        return Ok(None);
      }
      var order := db.orders[orderId];
      if order.userId != userId {
        return Err("IllegalArgumentException");
      }
      if order.status != PENDING && order.status != CONFIRMED {
        return Err("IllegalArgumentException");
      }
      var items := order.items;
      var i := 0;
      while i < |items|
        invariant 0 <= i <= |items|
        invariant Release(old(db.products), items) == Release(db.products, items[i..])
        invariant db.orders == old(db.orders)
      {
        var line := items[i];
        assert items[i..][0] == line && items[i..][1..] == items[i + 1..];
        if line.productId in db.products {
          var p := db.products[line.productId];
          db.products := db.products[line.productId := p.(quantity := p.quantity + line.quantity)];
        }
        i := i + 1;
      }
      assert items[i..] == [];
      order := order.(status := CANCELLED);
      db.orders := db.orders[orderId := order];
      r := Ok(Some(order));
    }

    /** confirmDelivery: empty for a missing order; the owner may move a SHIPPED order to DELIVERED. */
    method ConfirmDelivery(orderId: int, userId: int) returns (r: Result<Option<Order>>)
      modifies db`orders
      ensures orderId !in old(db.orders) ==> r == Ok(None) && db.orders == old(db.orders)
      ensures orderId in old(db.orders) ==>
                var order := old(db.orders)[orderId];
                if order.userId != userId || order.status != SHIPPED then
                  r.Err? && db.orders == old(db.orders)
                else
                  r == Ok(Some(order.(status := DELIVERED))) &&
                  db.orders == old(db.orders)[orderId := order.(status := DELIVERED)]
    {
      if orderId !in db.orders {
        return Ok(None);
      }
      var order := db.orders[orderId];
      if order.userId != userId {
        return Err("IllegalArgumentException");
      }
      if order.status != SHIPPED {
        return Err("IllegalArgumentException");
      }
      order := order.(status := DELIVERED);
      db.orders := db.orders[orderId := order];
      r := Ok(Some(order));
    }

    /** updateOrderStatus: any status, once some line is the producer's; no transition check. */
    method UpdateOrderStatus(orderId: int, status: OrderStatus, producerId: int) returns (r: Result<Option<Order>>)
      modifies db`orders
      ensures orderId !in old(db.orders) ==> r == Ok(None) && db.orders == old(db.orders)
      ensures orderId in old(db.orders) ==>
                var order := old(db.orders)[orderId];
                if !HasProducerProduct(db.products, order.items, producerId) then
                  r.Err? && db.orders == old(db.orders)
                else
                  r == Ok(Some(order.(status := status))) &&
                  db.orders == old(db.orders)[orderId := order.(status := status)]
    {
      if orderId !in db.orders {
        return Ok(None);
      }
      var order := db.orders[orderId];
      if !HasProducerProduct(db.products, order.items, producerId) {
        return Err("IllegalArgumentException");
      }
      order := order.(status := status);
      db.orders := db.orders[orderId := order];
      r := Ok(Some(order));
    }

    /** updateOrderStatusByProducer: as updateOrderStatus, but only along the transition table. */
    method UpdateOrderStatusByProducer(orderId: int, status: OrderStatus, producerId: int) returns (r: Result<Option<Order>>)
      modifies db`orders
      ensures orderId !in old(db.orders) ==> r == Ok(None) && db.orders == old(db.orders)
      ensures orderId in old(db.orders) ==>
                var order := old(db.orders)[orderId];
                if !HasProducerProduct(db.products, order.items, producerId) ||
                   !IsValidStatusTransition(order.status, status) then
                  r.Err? && db.orders == old(db.orders)
                else
                  r == Ok(Some(order.(status := status))) &&
                  db.orders == old(db.orders)[orderId := order.(status := status)]
    {
      if orderId !in db.orders {
        return Ok(None);
      }
      var order := db.orders[orderId];
      if !HasProducerProduct(db.products, order.items, producerId) {
        return Err("IllegalArgumentException");
      }
      if !IsValidStatusTransition(order.status, status) {
        return Err("IllegalArgumentException");
      }
      order := order.(status := status);
      db.orders := db.orders[orderId := order];
      r := Ok(Some(order));
    }

    /** getOrderByIdAndUserId, read from the orders table. */
    method GetOrderByIdAndUserId(orderId: int, userId: int) returns (r: Option<Order>)
      ensures r == OrderOfUser(db.orders, orderId, userId)
    {
      if orderId in db.orders {
        var order := db.orders[orderId];
        if order.userId == userId {
          return Some(order);
        }
      }
      return None;
    }
  }
}
