/** The shop's handlers as they run: checkout takes stock and groups the cart line by line, settling and cleaning put it
    back item by item. */
module ShopService {
  import opened Sums
  import opened ShopModel
  import opened StockConservation

  datatype Group = Group(items: seq<Item>, total: int)

  class Store {
    var products: map<Id, Product>
    var orders: seq<Order>

    ghost function Tables(): Shop
      reads this
    {
      Shop(products, orders)
    }

    constructor (products: map<Id, Product>)
      ensures Tables() == Shop(products, [])
    {
      this.products := products;
      orders := [];
    }

    /** `checkout`: a transaction that is rolled back on any refusal. */
    method Checkout(client: Id, cart: seq<CartLine>, reference: string, now: int, provider: bool) returns (reply: Reply)
      modifies this
      ensures (Tables(), reply) == ShopModel.Checkout(old(Tables()), client, cart, reference, now, provider)
      ensures reply.Refused? ==> Tables() == old(Tables())
    {
      if |FoundProducts(products, cart)| != |cart| {
        return Refused(PRODUCT_NOT_FOUND);
      }
      if !Known(products, cart) {
        return Refused(PRODUCT_NOT_FOUND);
      }
      var saved := products;
      var stocked, vendorOrder, groups, globalTotal := TakeLines(cart);
      if !stocked {
        products := saved;
        return Refused(OUT_OF_STOCK);
      }
      if globalTotal > 0 && !provider {
        products := saved;
        return Refused(PROVIDER_FAILED);
      }
      var created := CreateOrders(saved, cart, vendorOrder, groups, client, reference, now);
      orders := orders + created;
      return Placed(globalTotal);
    }

    /** The lines of the cart one by one. */
    method TakeLines(cart: seq<CartLine>)
      returns (stocked: bool, vendorOrder: seq<Id>, groups: map<Id, Group>, globalTotal: int)
      requires Known(products, cart)
      modifies this`products
      ensures stocked == Stocked(old(products), cart)
      ensures stocked ==> Filled(old(products), cart, products, vendorOrder, groups, globalTotal)
    {
      ghost var saved := products;
      stocked, vendorOrder, groups, globalTotal := true, [], map[], 0;
      for i := 0 to |cart|
        invariant forall k :: 0 <= k < i ==> EnoughFor(saved, cart, k)
        invariant Filled(saved, cart[..i], products, vendorOrder, groups, globalTotal)
      {
        stocked, vendorOrder, groups, globalTotal := TakeLine(saved, cart, i, vendorOrder, groups, globalTotal);
        if !stocked {
          return;
        }
      }
      assert cart[..|cart|] == cart;
    }

    /** Take the stock of line i, put the item in its vendor's group, add up. */
    method TakeLine(ghost saved: map<Id, Product>, cart: seq<CartLine>, i: nat, vendorOrder: seq<Id>,
                    groups: map<Id, Group>, total: int)
      returns (stocked: bool, order: seq<Id>, grouped: map<Id, Group>, newTotal: int)
      requires Known(saved, cart) && i < |cart| && Filled(saved, cart[..i], products, vendorOrder, groups, total)
      modifies this`products
      ensures stocked == EnoughFor(saved, cart, i)
      ensures stocked ==> Filled(saved, cart[..i + 1], products, order, grouped, newTotal)
    {
      var line := cart[i];
      NextLine(saved, cart, i);
      var product := products[line.product];
      if product.stock < line.quantity {
        return false, vendorOrder, groups, total;
      }
      products := products[line.product := product.(stock := product.stock - line.quantity)];
      var item := Item(line.product, line.quantity, product.price);
      order, grouped := AddToGroup(saved, cart[..i + 1], vendorOrder, groups, product.vendor, item);
      stocked, newTotal := true, total + product.price * line.quantity;
    }

    /** Cancel the order, then put its items back one by one; counts the units. */
    method CancelAndRestoreStock(n: nat) returns (restored: nat)
      requires n < |orders|
      modifies this
      ensures Tables() == CancelOrder(old(Tables()), n)
      ensures restored == Pieces(old(orders)[n].items)
    {
      orders := orders[n := orders[n].(status := CANCELLED, putBack := orders[n].putBack + 1)];
      restored := 0;
      var items := orders[n].items;
      ghost var before := products;
      for k := 0 to |items|
        invariant
          var was := old(orders)[n];
          orders == old(orders)[n := was.(status := CANCELLED, putBack := was.putBack + 1)]
        invariant products == PutBack(before, items[..k]) && restored == Pieces(items[..k])
      {
        assert items[..k + 1][..k] == items[..k];
        var p := items[k].product;
        if p in products {
          products := products[p := products[p].(stock := products[p].stock + items[k].quantity)];
        }
        restored := restored + items[k].quantity;
      }
      assert items[..|items|] == items;
    }

    /** The order part of handleWebhook. */
    method OrderWebhook(reference: string, success: bool)
      modifies this
      ensures Tables() == SettleOrders(old(Tables()), reference, success)
    {
      ghost var before := Tables();
      if n :| 0 <= n < |orders| && orders[n].reference == reference && orders[n].status != PENDING_PAYMENT {
        return;
      }
      for n := 0 to |orders|
        invariant |orders| == |before.orders|
        invariant Tables() == SettleFirst(before, reference, success, n)
      {
        if orders[n].reference == reference {
          if success {
            orders := orders[n := orders[n].(status := PAID)];
          } else {
            var restored := CancelAndRestoreStock(n);
          }
        }
      }
    }

    /** `cleanupAbandonedOrders` */
    method CleanupAbandonedOrders(threshold: int) returns (processed: nat, cancelled: nat, stockRestored: nat)
      modifies this
      ensures Tables() == Cleanup(old(Tables()), threshold)
      ensures processed == cancelled == AbandonedCount(old(orders), threshold)
      ensures stockRestored == AbandonedPieces(old(orders), threshold)
    {
      ghost var before := Tables();
      processed, cancelled, stockRestored := 0, 0, 0;
      for n := 0 to |orders|
        invariant |orders| == |before.orders|
        invariant Tables() == CleanFirst(before, threshold, n)
        invariant processed == cancelled == AbandonedCount(before.orders[..n], threshold)
        invariant stockRestored == AbandonedPieces(before.orders[..n], threshold)
      {
        assert before.orders[..n + 1][..n] == before.orders[..n];
        if Abandoned(orders[n], threshold) {
          var restored := CancelAndRestoreStock(n);
          processed, cancelled, stockRestored := processed + 1, cancelled + 1, stockRestored + restored;
        }
      }
      assert before.orders[..|before.orders|] == before.orders;
    }

    method UpdateOrderStatus(n: nat, vendor: Id, status: OrderStatus) returns (reply: Reply)
      modifies this`orders
      ensures (Tables(), reply) == UpdateStatus(old(Tables()), n, vendor, status)
    {
      if n >= |orders| || orders[n].vendor != vendor {
        return Refused(ORDER_NOT_FOUND);
      }
      orders := orders[n := orders[n].(status := status)];
      return Placed(orders[n].total);
    }
  }

  function Pieces(items: seq<Item>): nat {
    if items == [] then 0 else Pieces(items[..|items| - 1]) + items[|items| - 1].quantity
  }

  function AbandonedCount(orders: seq<Order>, threshold: int): nat {
    if orders == [] then 0
    else
      AbandonedCount(orders[..|orders| - 1], threshold) + if Abandoned(orders[|orders| - 1], threshold) then 1 else 0
  }

  function AbandonedPieces(orders: seq<Order>, threshold: int): nat {
    if orders == [] then 0
    else
      AbandonedPieces(orders[..|orders| - 1], threshold)
      + if Abandoned(orders[|orders| - 1], threshold) then Pieces(orders[|orders| - 1].items) else 0
  }

  /** The orders pending since the threshold. */
  function PendingPlaces(orders: seq<Order>, threshold: int): set<nat> {
    set n: nat | n < |orders| && orders[n].status == PENDING_PAYMENT && orders[n].createdAt <= threshold
  }

  function QuantityOf(): Item -> int {
    (i: Item) => i.quantity
  }

  function UnitsPending(threshold: int): Order -> int {
    (o: Order) =>
      if o.status == PENDING_PAYMENT && o.createdAt <= threshold then Sum(o.items, QuantityOf()) else 0
  }

  lemma {:induction false} PiecesAreQuantities(items: seq<Item>)
    ensures Pieces(items) == Sum(items, QuantityOf())
  {
    if items != [] {
      PiecesAreQuantities(items[..|items| - 1]);
    }
  }

  /** The clean-up's counters count the orders pending since the threshold, and the units of their items. */
  lemma {:induction false} CountsOrders(orders: seq<Order>, threshold: int)
    ensures AbandonedCount(orders, threshold) == |PendingPlaces(orders, threshold)|
    ensures AbandonedPieces(orders, threshold) == Sum(orders, UnitsPending(threshold))
  {
    if orders != [] {
      var n := |orders| - 1;
      CountsOrders(orders[..n], threshold);
      PiecesAreQuantities(orders[n].items);
      NextPlace(orders, threshold);
    }
  }

  lemma NextPlace(orders: seq<Order>, threshold: int)
    requires orders != []
    ensures
      var n := |orders| - 1;
      var before := PendingPlaces(orders[..n], threshold);
      && n !in before
      && PendingPlaces(orders, threshold) == if Abandoned(orders[n], threshold) then before + {n} else before
  {
    var n := |orders| - 1;
    assert forall i :: 0 <= i < n ==> orders[..n][i] == orders[i];
  }

  /** `vendorOrdersMap`: make the vendor's group if there is none, push the item, add to the total. */
  method AddToGroup(ghost products: map<Id, Product>, ghost cart: seq<CartLine>, vendorOrder: seq<Id>,
                    groups: map<Id, Group>, vendor: Id, item: Item)
    returns (order: seq<Id>, grouped: map<Id, Group>)
    requires cart != [] && Known(products, cart) && Grouped(products, cart[..|cart| - 1], vendorOrder, groups)
    requires item == ItemOf(products, cart[|cart| - 1]) && vendor == products[item.product].vendor
    ensures Grouped(products, cart, order, grouped)
  {
    order, grouped := vendorOrder, groups;
    if vendor !in grouped {
      order := order + [vendor];
      grouped := grouped[vendor := Group([], 0)];
      NoLinesOf(products, cart[..|cart| - 1], vendor);
    }
    var group := grouped[vendor];
    grouped := grouped[vendor := Group(group.items + [item], group.total + item.price * item.quantity)];
    SumAppend(group.items, item, PriceOf());
  }

  /** One order per group, in the order the groups were made. */
  method CreateOrders(ghost products: map<Id, Product>, ghost cart: seq<CartLine>, vendorOrder: seq<Id>,
                      groups: map<Id, Group>, client: Id, reference: string, now: int) returns (created: seq<Order>)
    requires Known(products, cart) && Grouped(products, cart, vendorOrder, groups)
    ensures created == NewOrders(products, cart, client, reference, now)
  {
    created := [];
    for k := 0 to |vendorOrder|
      invariant created == NewOrders(products, cart, client, reference, now)[..k]
    {
      var group := groups[vendorOrder[k]];
      created := created
        + [Order(client, vendorOrder[k], reference, group.total, PENDING_PAYMENT, group.items, now, 0)];
    }
  }

  /** The grouping map after some lines: its keys in insertion order, and per vendor the lines and their total. */
  ghost predicate Grouped(products: map<Id, Product>, cart: seq<CartLine>, vendorOrder: seq<Id>, groups: map<Id, Group>)
    requires Known(products, cart)
  {
    && vendorOrder == Vendors(products, cart)
    && (forall v :: v in groups <==> v in vendorOrder)
    && (forall v :: v in groups ==>
          groups[v].items == ItemsOf(products, cart, v) && groups[v].total == TotalPrice(groups[v].items))
  }

  /** After some lines: the stock taken, the groups made, and the total so far. */
  ghost predicate Filled(saved: map<Id, Product>, cart: seq<CartLine>, products: map<Id, Product>, vendorOrder: seq<Id>,
                         groups: map<Id, Group>, total: int)
    requires Known(saved, cart)
  {
    && products == Take(saved, cart) && Grouped(saved, cart, vendorOrder, groups)
    && total == TotalPrice(Items(saved, cart))
  }

  /** What taking one more line does, in terms of the products as they were before the cart. */
  lemma NextLine(products: map<Id, Product>, cart: seq<CartLine>, i: nat)
    requires Known(products, cart) && i < |cart|
    ensures
      var now, p := Take(products, cart[..i]), cart[i].product;
      && p in now && now[p] == products[p].(stock := now[p].stock)
      && Take(products, cart[..i + 1]) == now[p := now[p].(stock := now[p].stock - cart[i].quantity)]
      && cart[..i + 1][..i] == cart[..i]
      && TotalPrice(Items(products, cart[..i + 1]))
        == TotalPrice(Items(products, cart[..i])) + products[p].price * cart[i].quantity
  {
    var upTo := cart[..i + 1];
    assert upTo[..i] == cart[..i];
    TakeTakes(products, cart[..i], cart[i].product);
    ItemsAppend(products, upTo);
    SumAppend(Items(products, cart[..i]), ItemOf(products, cart[i]), PriceOf());
  }
}
