/** What checkout, the webhook and the clean-up leave in the shop's tables, row by row. */
module ShopOutcomes {
  import opened Sums
  import opened ShopModel
  import opened StockConservation
  import opened CheckoutOrders

  // ---- checkout ----------------------------------------------------------------------------------------------------

  /** How many units of p the cart asks for. */
  function Wanted(cart: seq<CartLine>, p: Id): int {
    if cart == [] then 0
    else
      Wanted(cart[..|cart| - 1], p) + if cart[|cart| - 1].product == p then cart[|cart| - 1].quantity else 0
  }

  /** What the cart costs at the products' prices. */
  function Cost(products: map<Id, Product>, cart: seq<CartLine>): int
    requires Known(products, cart)
  {
    if cart == [] then 0
    else
      var line := cart[|cart| - 1];
      Cost(products, cart[..|cart| - 1]) + products[line.product].price * line.quantity
  }

  lemma {:induction false} WantedIsQuantity(products: map<Id, Product>, cart: seq<CartLine>, p: Id)
    requires Known(products, cart)
    ensures Quantity(Items(products, cart), p) == Wanted(cart, p)
  {
    if cart != [] {
      WantedIsQuantity(products, cart[..|cart| - 1], p);
      ItemsAppend(products, cart);
      SumAppend(Items(products, cart[..|cart| - 1]), ItemOf(products, cart[|cart| - 1]), UnitsOf(p));
    }
  }

  lemma {:induction false} CostIsTotal(products: map<Id, Product>, cart: seq<CartLine>)
    requires Known(products, cart)
    ensures TotalPrice(Items(products, cart)) == Cost(products, cart)
  {
    if cart != [] {
      CostIsTotal(products, cart[..|cart| - 1]);
      ItemsAppend(products, cart);
      SumAppend(Items(products, cart[..|cart| - 1]), ItemOf(products, cart[|cart| - 1]), PriceOf());
    }
  }

  lemma {:induction false} WantedUpTo(cart: seq<CartLine>, i: nat)
    requires i < |cart|
    ensures Wanted(cart[..i + 1], cart[i].product) == Wanted(cart[..i], cart[i].product) + cart[i].quantity
  {
    assert cart[..i + 1][..i] == cart[..i] && cart[..i + 1][i] == cart[i];
  }

  /** Every line finds stock in its turn if and only if the lines up to it do not ask for more than there is; exactly
      the stock left is enough. */
  lemma StockedExactly(products: map<Id, Product>, cart: seq<CartLine>)
    requires Known(products, cart)
    ensures Stocked(products, cart)
      <==> forall i :: 0 <= i < |cart| ==> Wanted(cart[..i + 1], cart[i].product) <= products[cart[i].product].stock
  {
    forall i | 0 <= i < |cart|
      ensures EnoughFor(products, cart, i)
        <==> Wanted(cart[..i + 1], cart[i].product) <= products[cart[i].product].stock
    {
      TakeTakes(products, cart[..i], cart[i].product);
      WantedIsQuantity(products, cart[..i], cart[i].product);
      WantedUpTo(cart, i);
    }
  }

  /** A new order of this call, yet to be paid. */
  predicate Fresh(o: Order, client: Id, reference: string, now: int) {
    && o.client == client && o.reference == reference && o.createdAt == now && o.putBack == 0
    && o.status == OrderStatus.PENDING_PAYMENT
  }

  /** A checkout is refused for a product that is unknown or repeated (or, for an empty cart, if there are products),
      for one of which too little is left, and when the provider does not take a positive amount; else it takes just
      what the cart asks for and adds fresh orders. */
  lemma CheckoutOutcome(s: Shop, client: Id, cart: seq<CartLine>, reference: string, now: int, provider: bool, p: Id)
    ensures
      var (s', reply) := Checkout(s, client, cart, reference, now, provider);
      if !Known(s.products, cart) || !NoRepeats(cart) || (cart == [] && s.products != map[]) then
        (s', reply) == (s, Refused(PRODUCT_NOT_FOUND))
      else if exists i :: 0 <= i < |cart| && cart[i].quantity > s.products[cart[i].product].stock then
        (s', reply) == (s, Refused(OUT_OF_STOCK))
      else if Cost(s.products, cart) > 0 && !provider then (s', reply) == (s, Refused(PROVIDER_FAILED))
      else
        && reply == Placed(Cost(s.products, cart))
        && s'.products.Keys == s.products.Keys
        && (p in s.products ==>
              s'.products[p] == s.products[p].(stock := s.products[p].stock - Wanted(cart, p)))
        && |s'.orders| >= |s.orders| && s'.orders[..|s.orders|] == s.orders
        && forall n :: |s.orders| <= n < |s'.orders| ==> Fresh(s'.orders[n], client, reference, now)
  {
    var products := s.products;
    DistinctByCount(products, cart);
    if cart == [] {
      assert |products.Keys| == 0 <==> products == map[];
    }
    if Known(products, cart) && NoRepeats(cart) {
      StockedOnce(products, cart);
      CostIsTotal(products, cart);
      TakeLeaves(products, cart, p);
    }
  }

  lemma TakeLeaves(products: map<Id, Product>, cart: seq<CartLine>, p: Id)
    requires Known(products, cart)
    ensures Take(products, cart).Keys == products.Keys
    ensures p in products ==>
      Take(products, cart)[p] == products[p].(stock := products[p].stock - Wanted(cart, p))
  {
    if p in products {
      TakeTakes(products, cart, p);
      WantedIsQuantity(products, cart, p);
    } else {
      TakeKeys(products, cart);
    }
  }

  lemma {:induction false} TakeKeys(products: map<Id, Product>, cart: seq<CartLine>)
    requires Known(products, cart)
    ensures Take(products, cart).Keys == products.Keys
  {
    if cart != [] {
      TakeKeys(products, cart[..|cart| - 1]);
    }
  }

  lemma {:induction false} NotWanted(cart: seq<CartLine>, p: Id)
    requires forall i :: 0 <= i < |cart| ==> cart[i].product != p
    ensures Wanted(cart, p) == 0
  {
    if cart != [] {
      NotWanted(cart[..|cart| - 1], p);
    }
  }

  /** In a cart without repeats each line stands for itself. */
  lemma StockedOnce(products: map<Id, Product>, cart: seq<CartLine>)
    requires Known(products, cart) && NoRepeats(cart)
    ensures Stocked(products, cart)
      <==> !exists i :: 0 <= i < |cart| && cart[i].quantity > products[cart[i].product].stock
  {
    StockedExactly(products, cart);
    forall i | 0 <= i < |cart|
      ensures Wanted(cart[..i + 1], cart[i].product) == cart[i].quantity
    {
      NotWanted(cart[..i], cart[i].product);
      WantedUpTo(cart, i);
    }
  }

  // ---- settling and cleaning up ------------------------------------------------------------------------------------

  /** Units of p in the orders that are chosen. */
  function UnitsIn(orders: seq<Order>, chosen: Order -> bool, p: Id): int {
    if orders == [] then 0
    else
      UnitsIn(orders[..|orders| - 1], chosen, p)
      + if chosen(orders[|orders| - 1]) then Quantity(orders[|orders| - 1].items, p) else 0
  }

  /** The chosen orders are cancelled and their units of p are back on the shelf; nothing else has changed. */
  ghost predicate CancelledBack(s: Shop, s': Shop, chosen: Order -> bool, p: Id) {
    && |s'.orders| == |s.orders| && s'.products.Keys == s.products.Keys
    && (forall n :: 0 <= n < |s.orders| ==>
          s'.orders[n]
            == if chosen(s.orders[n]) then s.orders[n].(status := CANCELLED, putBack := s.orders[n].putBack + 1)
               else s.orders[n])
    && (p in s.products ==>
          s'.products[p] == s.products[p].(stock := s.products[p].stock + UnitsIn(s.orders, chosen, p)))
  }

  /** The chosen orders are paid; nothing else has changed. */
  ghost predicate PaidUp(s: Shop, s': Shop, chosen: Order -> bool) {
    && |s'.orders| == |s.orders| && s'.products == s.products
    && forall n :: 0 <= n < |s.orders| ==>
      s'.orders[n] == if chosen(s.orders[n]) then s.orders[n].(status := PAID) else s.orders[n]
  }

  function WithReference(reference: string): Order -> bool {
    (o: Order) => o.reference == reference
  }

  function PendingSince(threshold: int): Order -> bool {
    (o: Order) => o.status == OrderStatus.PENDING_PAYMENT && o.createdAt <= threshold
  }

  /** One order more is cancelled. */
  lemma CancelNext(s: Shop, before: Shop, n: nat, chosen: Order -> bool, p: Id)
    requires n < |s.orders| && chosen(s.orders[n])
    requires CancelledFirst(s, before, n, chosen, p)
    ensures CancelledFirst(s, CancelOrder(before, n), n + 1, chosen, p)
  {
    var o := s.orders[n];
    assert s.orders[..n + 1][..n] == s.orders[..n];
    if p in s.products {
      PutBackPuts(before.products, o.items, p);
    } else {
      PutBackKeys(before.products, o.items);
    }
  }

  lemma LeaveNext(s: Shop, before: Shop, n: nat, chosen: Order -> bool, p: Id)
    requires n < |s.orders| && !chosen(s.orders[n])
    requires CancelledFirst(s, before, n, chosen, p)
    ensures CancelledFirst(s, before, n + 1, chosen, p)
  {
    assert s.orders[..n + 1][..n] == s.orders[..n];
  }

  /** The first n orders are done. */
  ghost predicate CancelledFirst(s: Shop, s': Shop, n: nat, chosen: Order -> bool, p: Id)
    requires n <= |s.orders|
  {
    && |s'.orders| == |s.orders| && s'.products.Keys == s.products.Keys
    && (forall i :: 0 <= i < |s.orders| ==>
          s'.orders[i]
            == if i < n && chosen(s.orders[i])
               then s.orders[i].(status := CANCELLED, putBack := s.orders[i].putBack + 1)
               else s.orders[i])
    && (p in s.products ==>
          s'.products[p] == s.products[p].(stock := s.products[p].stock + UnitsIn(s.orders[..n], chosen, p)))
  }

  lemma {:induction false} FailFirst(s: Shop, reference: string, n: nat, p: Id)
    requires n <= |s.orders|
    ensures CancelledFirst(s, SettleFirst(s, reference, false, n), n, WithReference(reference), p)
  {
    if n > 0 {
      FailFirst(s, reference, n - 1, p);
      var before := SettleFirst(s, reference, false, n - 1);
      if s.orders[n - 1].reference == reference {
        assert SettleFirst(s, reference, false, n) == CancelOrder(before, n - 1);
        CancelNext(s, before, n - 1, WithReference(reference), p);
      } else {
        LeaveNext(s, before, n - 1, WithReference(reference), p);
      }
    }
  }

  lemma {:induction false} PayFirst(s: Shop, reference: string, n: nat)
    requires n <= |s.orders|
    ensures
      var s' := SettleFirst(s, reference, true, n);
      && s'.products == s.products && |s'.orders| == |s.orders|
      && forall i :: 0 <= i < |s.orders| ==>
        s'.orders[i]
          == if i < n && s.orders[i].reference == reference then s.orders[i].(status := PAID) else s.orders[i]
  {
    if n > 0 {
      PayFirst(s, reference, n - 1);
    }
  }

  /** A group with an order that is not pending stays as it is. Else success pays every order of the group and leaves
      the stock, and failure cancels every one and puts all their units back. */
  lemma GroupOutcome(s: Shop, reference: string, success: bool, p: Id)
    ensures
      var s' := SettleOrders(s, reference, success);
      if exists n :: 0 <= n < |s.orders| && s.orders[n].reference == reference
                     && s.orders[n].status != OrderStatus.PENDING_PAYMENT
      then s' == s
      else if success then PaidUp(s, s', WithReference(reference))
      else CancelledBack(s, s', WithReference(reference), p)
  {
    PayFirst(s, reference, |s.orders|);
    FailFirst(s, reference, |s.orders|, p);
    assert s.orders[..|s.orders|] == s.orders;
  }

  lemma {:induction false} CleanFirstCancels(s: Shop, threshold: int, n: nat, p: Id)
    requires n <= |s.orders|
    ensures CancelledFirst(s, CleanFirst(s, threshold, n), n, PendingSince(threshold), p)
  {
    if n > 0 {
      CleanFirstCancels(s, threshold, n - 1, p);
      var before := CleanFirst(s, threshold, n - 1);
      if PendingSince(threshold)(s.orders[n - 1]) {
        assert CleanFirst(s, threshold, n) == CancelOrder(before, n - 1);
        CancelNext(s, before, n - 1, PendingSince(threshold), p);
      } else {
        LeaveNext(s, before, n - 1, PendingSince(threshold), p);
      }
    }
  }

  /** A clean-up cancels the orders still pending since the threshold, puts all their units back, and leaves the
      rest. */
  lemma CleanupOutcome(s: Shop, threshold: int, p: Id)
    ensures CancelledBack(s, Cleanup(s, threshold), PendingSince(threshold), p)
  {
    CleanFirstCancels(s, threshold, |s.orders|, p);
    assert s.orders[..|s.orders|] == s.orders;
  }

  /** A vendor sets the status of an order of their own, and of no other. */
  lemma StatusOutcome(s: Shop, n: nat, vendor: Id, status: OrderStatus)
    ensures
      var (s', reply) := UpdateStatus(s, n, vendor, status);
      if n < |s.orders| && s.orders[n].vendor == vendor then
        reply.Placed? && s' == s.(orders := s.orders[n := s.orders[n].(status := status)])
      else (s', reply) == (s, Refused(ORDER_NOT_FOUND))
  {
  }
}
