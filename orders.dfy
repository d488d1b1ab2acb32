/**
 * The order store: orders newest first, each built from the items passed in with its total,
 * a default address and payment method when none is given, and a three-day delivery estimate.
 */
module Orders {
  import opened Wrappers
  import opened Text
  import opened Entities
  import opened Storage
  import opened Remote
  import Cart

  /** `3 * 24 * 60 * 60 * 1000` milliseconds. */
  const DeliveryOffset: nat := 3 * 24 * 60 * 60 * 1000

  const DefaultPayment := "Credit Card ending in 1234"

  /** The address used when none is given: named after the user, or "Guest". */
  function DefaultAddress(user: Option<User>): (a: Address)
    ensures a.name == if user.Some? && user.value.name != "" then user.value.name else "Guest"
    ensures a.address == "123 Main St" && a.city == "New York" && a.state == "NY"
    ensures a.zip == "10001" && a.country == "United States"
  {
    Address(if user.Some? && user.value.name != "" then user.value.name else "Guest",
            "123 Main St", "New York", "NY", "10001", "United States")
  }

  /** The record `createOrder` builds (`created_at` and `estimated_delivery` as clock readings). */
  function NewOrder(items: seq<CartLine>, shipping: Option<Address>, payment: Option<string>,
                    sessionId: string, env: Env): Order
  {
    Order(
      "order_" + NatToString(env.now),
      sessionId,
      items,
      Cart.Total(items),
      "Processing",
      shipping.GetOr(DefaultAddress(env.user)),
      if Truthy(payment) then payment.value else DefaultPayment,
      env.now,
      env.now + DeliveryOffset)
  }

  /**
   * The new order carries exactly the given items, their price × quantity total, status
   * "Processing" and the session id; delivery is due 259,200,000 ms after creation; defaults
   * apply only when no address or payment method is given.
   */
  lemma NewOrderShape(items: seq<CartLine>, shipping: Option<Address>, payment: Option<string>,
                      sessionId: string, env: Env)
    ensures var o := NewOrder(items, shipping, payment, sessionId, env);
      && o.items == items && o.total == Cart.Total(items)
      && o.status == "Processing" && o.sessionId == sessionId
      && StartsWith(o.id, "order_")
      && |o.id| > 6 && AllDigits(o.id[6..]) && DecimalValue(o.id[6..]) == env.now
      && o.createdAt == env.now
      && o.estimatedDelivery - o.createdAt == 259200000
      && (shipping.Some? ==> o.shippingAddress == shipping.value)
      && (shipping.None? ==> o.shippingAddress.name == (if env.user.Some? && env.user.value.name != "" then env.user.value.name else "Guest"))
      && (Truthy(payment) ==> o.paymentMethod == payment.value)
      && (!Truthy(payment) ==> o.paymentMethod == "Credit Card ending in 1234")
  {
    var o := NewOrder(items, shipping, payment, sessionId, env);
    assert o.id[6..] == NatToString(env.now);
  }

  /** Two lines (100, 2) and (50, 1) total 250. */
  lemma TotalExample(a: Product, b: Product)
    requires a.price == 100 && b.price == 50
    ensures Cart.Total([CartLine(a, 2), CartLine(b, 1)]) == 250
  {
    var lines := [CartLine(a, 2), CartLine(b, 1)];
    assert lines[1..] == [CartLine(b, 1)] && lines[1..][1..] == [];
    assert Cart.Total([CartLine(b, 1)]) == 50;
    assert Cart.Total(lines) == a.price * 2 + Cart.Total(lines[1..]);
  }

  class OrderStore {
    var orders: seq<Order>
    var loading: bool
    const storage: LocalStorage

    constructor (storage: LocalStorage)
      ensures this.storage == storage && orders == [] && !loading
    {
      this.storage := storage;
      orders := [];
      loading := false;
    }

    /** `orderCount`. */
    function OrderCount(): nat
      reads this
    {
      |orders|
    }

    /** `loadOrders`: fetch the session's orders; on failure fall back to the local mirror. */
    method Load(env: Env, ok: bool, server: seq<Order>) returns (call: RemoteCall)
      modifies this`orders, this`loading, storage`sessionId, storage`orders
      ensures var s := ResolveSessionId(env.user, old(storage.sessionId), env.now, env.random);
        storage.sessionId == s.stored && call == OrdersGet(s.id)
      ensures orders == Reload(old(orders), ok, server, old(storage.orders))
      ensures storage.orders == ReloadMirror(ok, server, old(storage.orders))
      ensures !loading
    {
      var sessionId := GetSessionId(storage, env);
      call := OrdersGet(sessionId);
      loading := true;
      if ok {
        orders := server;
        storage.orders := Some(orders);
      } else if storage.orders.Some? {
        orders := storage.orders.value;
      }
      loading := false;
    }

    /** `createOrder(items, shippingAddress, paymentMethod)`: prepends the new order and returns it. */
    method Create(items: seq<CartLine>, shipping: Option<Address>, payment: Option<string>, env: Env)
      returns (order: Order, call: RemoteCall)
      modifies this`orders, storage`sessionId, storage`orders
      ensures var s := ResolveSessionId(env.user, old(storage.sessionId), env.now, env.random);
        && storage.sessionId == s.stored
        && order == NewOrder(items, shipping, payment, s.id, env)
      ensures orders == [order] + old(orders)
      ensures |orders| == |old(orders)| + 1 && orders[1..] == old(orders)
      ensures call == OrderCreate(order)
      ensures storage.orders == Some(orders)
    {
      var sessionId := GetSessionId(storage, env);
      order := NewOrder(items, shipping, payment, sessionId, env);
      orders := [order] + orders;
      storage.orders := Some(orders);
      call := OrderCreate(order);
    }
  }
}
