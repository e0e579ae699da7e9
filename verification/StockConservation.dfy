/** Where the units of a product are, over every run of the shop. */
module StockConservation {
  import opened Sums
  import opened ShopModel

  // ---- the cart, grouped -------------------------------------------------------------------------------------------

  function GroupSum(products: map<Id, Product>, cart: seq<CartLine>, vendors: seq<Id>, f: Item -> int): int
    requires Known(products, cart)
  {
    if vendors == [] then 0
    else
      GroupSum(products, cart, vendors[..|vendors| - 1], f)
      + Sum(ItemsOf(products, cart, vendors[|vendors| - 1]), f)
  }

  ghost predicate NoRepeat(ids: seq<Id>) {
    forall i, j :: 0 <= i < j < |ids| ==> ids[i] != ids[j]
  }

  lemma {:induction false} VendorsNoRepeat(products: map<Id, Product>, cart: seq<CartLine>)
    requires Known(products, cart)
    ensures NoRepeat(Vendors(products, cart))
  {
    if cart != [] {
      VendorsNoRepeat(products, cart[..|cart| - 1]);
    }
  }

  /** A line of another vendor leaves a group alone; a line of this vendor is appended to it. */
  lemma {:induction false} OneLineMore(products: map<Id, Product>, cart: seq<CartLine>, vendors: seq<Id>,
                                       f: Item -> int)
    requires cart != [] && Known(products, cart) && NoRepeat(vendors)
    ensures
      var head, line := cart[..|cart| - 1], cart[|cart| - 1];
      GroupSum(products, cart, vendors, f)
        == GroupSum(products, head, vendors, f)
           + if products[line.product].vendor in vendors then f(ItemOf(products, line)) else 0
  {
    if vendors != [] {
      var rest, v := vendors[..|vendors| - 1], vendors[|vendors| - 1];
      var head, line := cart[..|cart| - 1], cart[|cart| - 1];
      OneLineMore(products, cart, rest, f);
      assert vendors == rest + [v];
      assert v !in rest;
      var items := ItemsOf(products, head, v);
      assert (items + [ItemOf(products, line)])[..|items|] == items;
    }
  }

  lemma {:induction false} NoLinesOf(products: map<Id, Product>, cart: seq<CartLine>, v: Id)
    requires Known(products, cart) && v !in Vendors(products, cart)
    ensures ItemsOf(products, cart, v) == []
  {
    if cart != [] {
      NoLinesOf(products, cart[..|cart| - 1], v);
    }
  }

  lemma ItemsAppend(products: map<Id, Product>, cart: seq<CartLine>)
    requires cart != [] && Known(products, cart)
    ensures Items(products, cart) == Items(products, cart[..|cart| - 1]) + [ItemOf(products, cart[|cart| - 1])]
  {
  }

  lemma NewGroup(products: map<Id, Product>, cart: seq<CartLine>, vendors: seq<Id>, v: Id, f: Item -> int)
    requires Known(products, cart)
    ensures GroupSum(products, cart, vendors + [v], f)
         == GroupSum(products, cart, vendors, f) + Sum(ItemsOf(products, cart, v), f)
  {
    assert (vendors + [v])[..|vendors|] == vendors;
  }

  /** The vendors' groups are a partition of the cart: whatever is summed over its lines, prices or quantities, comes
      out the same group by group. */
  lemma {:induction false} GroupsPartition(products: map<Id, Product>, cart: seq<CartLine>, f: Item -> int)
    requires Known(products, cart)
    ensures GroupSum(products, cart, Vendors(products, cart), f) == Sum(Items(products, cart), f)
  {
    if cart == [] {
    } else {
      var head, line := cart[..|cart| - 1], cart[|cart| - 1];
      var vendors, v := Vendors(products, head), products[line.product].vendor;
      GroupsPartition(products, head, f);
      ItemsAppend(products, cart);
      SumAppend(Items(products, head), ItemOf(products, line), f);
      GroupSumOfCart(products, cart, f);
    }
  }

  lemma GroupSumOfCart(products: map<Id, Product>, cart: seq<CartLine>, f: Item -> int)
    requires cart != [] && Known(products, cart)
    ensures
      var head, line := cart[..|cart| - 1], cart[|cart| - 1];
      GroupSum(products, cart, Vendors(products, cart), f)
        == GroupSum(products, head, Vendors(products, head), f) + f(ItemOf(products, line))
  {
    var head, line := cart[..|cart| - 1], cart[|cart| - 1];
    var vendors, v := Vendors(products, head), products[line.product].vendor;
    VendorsNoRepeat(products, head);
    OneLineMore(products, cart, vendors, f);
    if v !in vendors {
      NoLinesOf(products, head, v);
      NewGroup(products, cart, vendors, v, f);
      SumAppend([], ItemOf(products, line), f);
      assert ItemsOf(products, cart, v) == [] + [ItemOf(products, line)];
    }
  }

  // ---- units -------------------------------------------------------------------------------------------------------

  /** Units of product p in an item. */
  function UnitsOf(p: Id): Item -> int {
    (i: Item) => if i.product == p then i.quantity else 0
  }

  function Quantity(items: seq<Item>, p: Id): int {
    Sum(items, UnitsOf(p))
  }

  /** Units of p that orders took and did not put back; an order that put them back twice counts negative. */
  function Out(orders: seq<Order>, p: Id): int {
    if orders == [] then 0 else Out(orders[..|orders| - 1], p) + OutOf(orders[|orders| - 1], p)
  }

  function OutOf(o: Order, p: Id): int {
    (1 - o.putBack) * Quantity(o.items, p)
  }

  /** Units of p in stock or out with an order. */
  function Units(s: Shop, p: Id): int
    requires p in s.products
  {
    s.products[p].stock + Out(s.orders, p)
  }

  lemma {:induction false} QuantityNotNegative(items: seq<Item>, p: Id)
    ensures Quantity(items, p) >= 0
  {
    if items != [] {
      QuantityNotNegative(items[..|items| - 1], p);
    }
  }

  lemma {:induction false} OutAppend(orders: seq<Order>, more: seq<Order>, p: Id)
    ensures Out(orders + more, p) == Out(orders, p) + Out(more, p)
  {
    if more == [] {
      assert orders + more == orders;
    } else {
      var n := |more| - 1;
      assert (orders + more)[..|orders| + n] == orders + more[..n];
      OutAppend(orders, more[..n], p);
    }
  }

  lemma {:induction false} OutUpdate(orders: seq<Order>, n: nat, o: Order, p: Id)
    requires n < |orders|
    ensures Out(orders[n := o], p) == Out(orders, p) - OutOf(orders[n], p) + OutOf(o, p)
  {
    var m := |orders| - 1;
    if n == m {
      assert orders[n := o][..m] == orders[..m];
    } else {
      assert orders[n := o][..m] == orders[..m][n := o];
      OutUpdate(orders[..m], n, o, p);
    }
  }

  /** Products keep vendor and price; only stock moves. */
  ghost predicate SameCatalog(products: map<Id, Product>, after: map<Id, Product>) {
    && after.Keys == products.Keys
    && forall p :: p in products ==> after[p] == products[p].(stock := after[p].stock)
  }

  lemma {:induction false} TakeTakes(products: map<Id, Product>, cart: seq<CartLine>, p: Id)
    requires Known(products, cart) && p in products
    ensures SameCatalog(products, Take(products, cart))
    ensures Take(products, cart)[p].stock == products[p].stock - Quantity(Items(products, cart), p)
  {
    if cart != [] {
      TakeTakes(products, cart[..|cart| - 1], p);
      ItemsAppend(products, cart);
      SumAppend(Items(products, cart[..|cart| - 1]), ItemOf(products, cart[|cart| - 1]), UnitsOf(p));
    }
  }

  lemma {:induction false} PutBackPuts(products: map<Id, Product>, items: seq<Item>, p: Id)
    requires p in products
    ensures SameCatalog(products, PutBack(products, items))
    ensures PutBack(products, items)[p].stock == products[p].stock + Quantity(items, p)
  {
    if items != [] {
      PutBackPuts(products, items[..|items| - 1], p);
    }
  }

  lemma CancelConserves(s: Shop, n: nat, p: Id)
    requires n < |s.orders| && p in s.products
    ensures p in CancelOrder(s, n).products && Units(CancelOrder(s, n), p) == Units(s, p)
    ensures CancelOrder(s, n).products[p].stock >= s.products[p].stock
  {
    var o := s.orders[n];
    var o' := o.(status := CANCELLED, putBack := o.putBack + 1);
    PutBackPuts(s.products, o.items, p);
    OutUpdate(s.orders, n, o', p);
    QuantityNotNegative(o.items, p);
    OutDrops(o, o', p);
  }

  lemma OutDrops(o: Order, o': Order, p: Id)
    requires o'.items == o.items && o'.putBack == o.putBack + 1
    ensures OutOf(o', p) == OutOf(o, p) - Quantity(o.items, p)
  {
  }

  lemma PayConserves(s: Shop, n: nat, o: Order, p: Id)
    requires n < |s.orders| && p in s.products
    requires o.items == s.orders[n].items && o.putBack == s.orders[n].putBack
    ensures Units(s.(orders := s.orders[n := o]), p) == Units(s, p)
  {
    OutUpdate(s.orders, n, o, p);
  }

  /** p is still there, has as many units in all, and no less in stock. */
  ghost predicate Conserved(s: Shop, s': Shop, p: Id)
    requires p in s.products
  {
    p in s'.products && Units(s', p) == Units(s, p)
  }

  lemma {:induction false} SettleConserves(s: Shop, reference: string, success: bool, n: nat, p: Id)
    requires n <= |s.orders| && p in s.products
    ensures Conserved(s, SettleFirst(s, reference, success, n), p)
    ensures SettleFirst(s, reference, success, n).products[p].stock >= s.products[p].stock
  {
    if n > 0 {
      var before := SettleFirst(s, reference, success, n - 1);
      SettleConserves(s, reference, success, n - 1, p);
      CancelConserves(before, n - 1, p);
      PayConserves(before, n - 1, before.orders[n - 1].(status := PAID), p);
    }
  }

  lemma {:induction false} CleanConserves(s: Shop, threshold: int, n: nat, p: Id)
    requires n <= |s.orders| && p in s.products
    ensures Conserved(s, CleanFirst(s, threshold, n), p)
    ensures CleanFirst(s, threshold, n).products[p].stock >= s.products[p].stock
  {
    if n > 0 {
      CleanConserves(s, threshold, n - 1, p);
      CancelConserves(CleanFirst(s, threshold, n - 1), n - 1, p);
    }
  }

  /** The units out with the orders of vendors[..n]. */
  lemma NewOrderOut(products: map<Id, Product>, cart: seq<CartLine>, client: Id, reference: string, now: int, k: nat,
                    p: Id)
    requires Known(products, cart) && k < |Vendors(products, cart)|
    ensures OutOf(NewOrders(products, cart, client, reference, now)[k], p)
         == Quantity(ItemsOf(products, cart, Vendors(products, cart)[k]), p)
  {
  }

  lemma {:induction false} NewOrdersOut(products: map<Id, Product>, cart: seq<CartLine>, client: Id, reference: string,
                                        now: int, n: nat, p: Id)
    requires Known(products, cart) && n <= |Vendors(products, cart)|
    ensures Out(NewOrders(products, cart, client, reference, now)[..n], p)
         == GroupSum(products, cart, Vendors(products, cart)[..n], UnitsOf(p))
  {
    if n > 0 {
      NewOrdersOut(products, cart, client, reference, now, n - 1, p);
      var orders, vendors := NewOrders(products, cart, client, reference, now), Vendors(products, cart);
      assert orders[..n][..n - 1] == orders[..n - 1] && vendors[..n][..n - 1] == vendors[..n - 1];
      NewOrderOut(products, cart, client, reference, now, n - 1, p);
    }
  }

  lemma CheckoutConserves(s: Shop, client: Id, cart: seq<CartLine>, reference: string, now: int, provider: bool, p: Id)
    requires p in s.products
    ensures Conserved(s, Checkout(s, client, cart, reference, now, provider).0, p)
  {
    var (s', reply) := Checkout(s, client, cart, reference, now, provider);
    if reply.Placed? {
      var orders, vendors := NewOrders(s.products, cart, client, reference, now), Vendors(s.products, cart);
      TakeTakes(s.products, cart, p);
      OutAppend(s.orders, orders, p);
      NewOrdersOut(s.products, cart, client, reference, now, |orders|, p);
      assert orders[..|orders|] == orders && vendors[..|vendors|] == vendors;
      GroupsPartition(s.products, cart, UnitsOf(p));
    }
  }

  /** No step of the shop, whatever a vendor marks, creates or loses a unit of any product. */
  lemma StepConserves(s: Shop, e: Event, p: Id)
    requires p in s.products
    ensures Conserved(s, Step(s, e), p)
  {
    match e
    case Buy(client, cart, reference, now, provider) => CheckoutConserves(s, client, cart, reference, now, provider, p);
    case Webhook(reference, success) => SettleConserves(s, reference, success, |s.orders|, p);
    case Clean(threshold) => CleanConserves(s, threshold, |s.orders|, p);
    case Mark(n, vendor, status) =>
      if n < |s.orders| {
        PayConserves(s, n, s.orders[n].(status := status), p);
      }
  }

  lemma {:induction false} RunConserves(s: Shop, es: seq<Event>, p: Id)
    requires p in s.products
    ensures Conserved(s, Run(s, es), p)
  {
    if es != [] {
      RunConserves(s, es[..|es| - 1], p);
      StepConserves(Run(s, es[..|es| - 1]), es[|es| - 1], p);
    }
  }

  // ---- stock is never negative -------------------------------------------------------------------------------------

  ghost predicate NoDebt(products: map<Id, Product>) {
    forall p :: p in products ==> products[p].stock >= 0
  }

  lemma {:induction false} TakeNoDebt(products: map<Id, Product>, cart: seq<CartLine>, n: nat)
    requires Known(products, cart) && NoDebt(products) && Stocked(products, cart) && n <= |cart|
    ensures Known(products, cart[..n]) && NoDebt(Take(products, cart[..n]))
  {
    if n > 0 {
      TakeNoDebt(products, cart, n - 1);
      assert cart[..n][..n - 1] == cart[..n - 1];
      assert EnoughFor(products, cart, n - 1);
    }
  }

  lemma StepNoDebt(s: Shop, e: Event)
    requires NoDebt(s.products)
    ensures NoDebt(Step(s, e).products)
  {
    var s' := Step(s, e);
    forall p | p in s'.products
      ensures s'.products[p].stock >= 0
    {
      match e
      case Buy(client, cart, reference, now, provider) =>
        if Checkout(s, client, cart, reference, now, provider).1.Placed? {
          TakeNoDebt(s.products, cart, |cart|);
          assert cart[..|cart|] == cart;
        }
      case Webhook(reference, success) =>
        SettledCatalog(s, reference, success, |s.orders|);
        SettleConserves(s, reference, success, |s.orders|, p);
      case Clean(threshold) =>
        CleanedCatalog(s, threshold, |s.orders|);
        CleanConserves(s, threshold, |s.orders|, p);
      case Mark(n, vendor, status) =>
    }
  }

  lemma {:induction false} PutBackKeys(products: map<Id, Product>, items: seq<Item>)
    ensures PutBack(products, items).Keys == products.Keys
  {
    if items != [] {
      PutBackKeys(products, items[..|items| - 1]);
    }
  }

  lemma {:induction false} SettledCatalog(s: Shop, reference: string, success: bool, n: nat)
    requires n <= |s.orders|
    ensures SettleFirst(s, reference, success, n).products.Keys == s.products.Keys
  {
    if n > 0 {
      var before := SettleFirst(s, reference, success, n - 1);
      SettledCatalog(s, reference, success, n - 1);
      PutBackKeys(before.products, before.orders[n - 1].items);
    }
  }

  lemma {:induction false} CleanedCatalog(s: Shop, threshold: int, n: nat)
    requires n <= |s.orders|
    ensures CleanFirst(s, threshold, n).products.Keys == s.products.Keys
  {
    if n > 0 {
      var before := CleanFirst(s, threshold, n - 1);
      CleanedCatalog(s, threshold, n - 1);
      PutBackKeys(before.products, before.orders[n - 1].items);
    }
  }

  // ---- put back at most once ---------------------------------------------------------------------------------------

  ghost predicate OnceOnly(s: Shop) {
    forall n :: 0 <= n < |s.orders| ==>
      s.orders[n].putBack <= 1 && (s.orders[n].status == PENDING_PAYMENT ==> s.orders[n].putBack == 0)
  }

  /** An order's items go back only when the step takes the order from PENDING_PAYMENT to CANCELLED. */
  ghost predicate PutsBackProperly(s: Shop, s': Shop) {
    && |s'.orders| >= |s.orders|
    && forall n :: 0 <= n < |s.orders| && s'.orders[n].putBack != s.orders[n].putBack ==>
         && s'.orders[n].putBack == s.orders[n].putBack + 1
         && s.orders[n].status == PENDING_PAYMENT && s'.orders[n].status == CANCELLED
  }

  lemma {:induction false} SettleOnce(s: Shop, reference: string, success: bool, n: nat)
    requires n <= |s.orders| && AllPending(s, reference)
    ensures PutsBackProperly(s, SettleFirst(s, reference, success, n))
    ensures OnceOnly(s) ==> OnceOnly(SettleFirst(s, reference, success, n))
  {
    if n > 0 {
      SettleOnce(s, reference, success, n - 1);
    }
  }

  lemma {:induction false} CleanOnce(s: Shop, threshold: int, n: nat)
    requires n <= |s.orders|
    ensures PutsBackProperly(s, CleanFirst(s, threshold, n))
    ensures OnceOnly(s) ==> OnceOnly(CleanFirst(s, threshold, n))
  {
    if n > 0 {
      CleanOnce(s, threshold, n - 1);
    }
  }

  /** A vendor sets an order that was put back to PENDING_PAYMENT again. The service takes any status; its one caller
      passes DELIVERED. */
  predicate Reopens(s: Shop, e: Event) {
    && e.Mark? && e.n < |s.orders| && s.orders[e.n].vendor == e.vendor
    && e.status == PENDING_PAYMENT && s.orders[e.n].putBack > 0
  }

  /** Each step puts items back properly, and leaves no order pending that was put back if and only if it does not
      reopen one. */
  lemma StepOnce(s: Shop, e: Event)
    requires OnceOnly(s)
    ensures PutsBackProperly(s, Step(s, e))
    ensures OnceOnly(Step(s, e)) <==> !Reopens(s, e)
  {
    match e
    case Buy(client, cart, reference, now, provider) =>
    case Webhook(reference, success) =>
      if AllPending(s, reference) {
        SettleOnce(s, reference, success, |s.orders|);
      }
    case Clean(threshold) => CleanOnce(s, threshold, |s.orders|);
    case Mark(n, vendor, status) =>
      var s' := Step(s, e);
      if Reopens(s, e) {
        assert s'.orders[n].status == PENDING_PAYMENT && s'.orders[n].putBack > 0;
      }
  }

  /** From full shelves and no orders, over any run in which no vendor sets an order back to PENDING_PAYMENT: stock is
      never negative, stock plus the units of orders not put back is what there was, and no order is put back twice. */
  lemma {:induction false} ShopInvariant(s: Shop, es: seq<Event>, p: Id)
    requires s.orders == [] && NoDebt(s.products) && p in s.products
    requires forall i :: 0 <= i < |es| && es[i].Mark? ==> es[i].status != PENDING_PAYMENT
    ensures
      var s' := Run(s, es);
      && NoDebt(s'.products) && OnceOnly(s') && p in s'.products
      && s'.products[p].stock + Out(s'.orders, p) == s.products[p].stock
  {
    RunConserves(s, es, p);
    if es != [] {
      var prefix := es[..|es| - 1];
      ShopInvariant(s, prefix, p);
      StepNoDebt(Run(s, prefix), es[|es| - 1]);
      StepOnce(Run(s, prefix), es[|es| - 1]);
    }
  }
}
