/** What one checkout does with its cart. */
module CheckoutOrders {
  import opened Sums
  import opened ShopModel
  import opened StockConservation

  predicate NoRepeats(cart: seq<CartLine>) {
    forall i, j :: 0 <= i < j < |cart| ==> cart[i].product != cart[j].product
  }

  lemma HitsGrow(products: map<Id, Product>, cart: seq<CartLine>)
    requires cart != []
    ensures
      var head, line := cart[..|cart| - 1], cart[|cart| - 1];
      Hits(products, cart) == Hits(products, head) + if line.product in products then {line.product} else {}
  {
    var head := cart[..|cart| - 1];
    assert forall i :: 0 <= i < |head| ==> cart[i] == head[i];
  }

  /** The number of rows a query finds tells a repeated or unknown product. */
  lemma {:induction false} DistinctByCount(products: map<Id, Product>, cart: seq<CartLine>)
    ensures |Hits(products, cart)| <= |cart|
    ensures |Hits(products, cart)| == |cart| <==> Known(products, cart) && NoRepeats(cart)
  {
    if cart == [] {
    } else {
      var head, line := cart[..|cart| - 1], cart[|cart| - 1];
      DistinctByCount(products, head);
      HitsGrow(products, cart);
      assert Known(products, cart) <==> Known(products, head) && line.product in products;
      RepeatsByLast(products, cart);
    }
  }

  lemma RepeatsByLast(products: map<Id, Product>, cart: seq<CartLine>)
    requires cart != []
    ensures
      var head, line := cart[..|cart| - 1], cart[|cart| - 1];
      line.product in products ==> (NoRepeats(cart) <==> NoRepeats(head) && line.product !in Hits(products, head))
  {
    var head, line := cart[..|cart| - 1], cart[|cart| - 1];
    if line.product in products && line.product in Hits(products, head) {
      var i :| 0 <= i < |head| && head[i].product == line.product;
      assert cart[i].product == cart[|cart| - 1].product;
    }
  }

  /** A cart that repeats a product, or names one that does not exist, is refused and changes nothing; any other
      non-empty cart gets past the product check. */
  lemma RepeatedProductRefused(s: Shop, client: Id, cart: seq<CartLine>, reference: string, now: int, provider: bool)
    requires cart != []
    ensures
      var (s', reply) := Checkout(s, client, cart, reference, now, provider);
      && (reply == Refused(PRODUCT_NOT_FOUND) <==> !Known(s.products, cart) || !NoRepeats(cart))
      && (reply.Refused? ==> s' == s)
  {
    DistinctByCount(s.products, cart);
  }

  /** The orders of a checkout: one per vendor of the cart, each with exactly that vendor's lines in cart order and the
      sum of price times quantity as total. */
  ghost predicate OrdersOf(products: map<Id, Product>, cart: seq<CartLine>, orders: seq<Order>)
    requires Known(products, cart)
  {
    && |orders| == |Vendors(products, cart)|
    && forall k :: 0 <= k < |orders| ==> OrderOf(products, cart, orders[k])
  }

  ghost predicate OrderOf(products: map<Id, Product>, cart: seq<CartLine>, o: Order)
    requires Known(products, cart)
  {
    && o.items == ItemsOf(products, cart, o.vendor) && o.items != []
    && o.total == TotalPrice(o.items) && o.status == PENDING_PAYMENT && o.putBack == 0
  }

  function OrderTotals(orders: seq<Order>): int {
    if orders == [] then 0 else OrderTotals(orders[..|orders| - 1]) + orders[|orders| - 1].total
  }

  /** Which line of the cart the k-th item of a vendor's order comes from. */
  ghost predicate LineAt(products: map<Id, Product>, cart: seq<CartLine>, vendor: Id, at: seq<nat>)
    requires Known(products, cart)
  {
    && (forall k :: 0 <= k < |at| ==> at[k] < |cart| && products[cart[at[k]].product].vendor == vendor)
    && (forall k, l :: 0 <= k < l < |at| ==> at[k] < at[l])
    && (forall i :: 0 <= i < |cart| && products[cart[i].product].vendor == vendor ==> i in at)
  }

  /** ItemsOf lists, in cart order, every line of the vendor and no other. */
  lemma LinesMore(products: map<Id, Product>, cart: seq<CartLine>, vendor: Id, at: seq<nat>, after: seq<nat>)
    requires cart != [] && Known(products, cart) && LineAt(products, cart[..|cart| - 1], vendor, at)
    requires after == if products[cart[|cart| - 1].product].vendor == vendor then at + [|cart| - 1] else at
    ensures LineAt(products, cart, vendor, after)
  {
    forall k | 0 <= k < |after|
      ensures after[k] < |cart| && products[cart[after[k]].product].vendor == vendor
      ensures k < |at| ==> after[k] == at[k] < |cart| - 1
    {
      if k < |at| {
        assert cart[..|cart| - 1][at[k]] == cart[after[k]];
      }
    }
    forall i | 0 <= i < |cart| && products[cart[i].product].vendor == vendor
      ensures i in after
    {
      LineFound(products, cart, vendor, at, after, i);
    }
  }

  lemma LineFound(products: map<Id, Product>, cart: seq<CartLine>, vendor: Id, at: seq<nat>, after: seq<nat>, i: nat)
    requires i < |cart| && Known(products, cart) && LineAt(products, cart[..|cart| - 1], vendor, at)
    requires products[cart[i].product].vendor == vendor
    requires after == if products[cart[|cart| - 1].product].vendor == vendor then at + [|cart| - 1] else at
    ensures i in after
  {
    if i < |cart| - 1 {
      assert cart[..|cart| - 1][i] == cart[i];
      assert i in at;
    } else {
      assert after[|after| - 1] == i;
    }
  }

  /** The vendor's items are those of the lines at `at`. */
  ghost predicate ItemsAt(products: map<Id, Product>, cart: seq<CartLine>, vendor: Id, at: seq<nat>)
    requires Known(products, cart) && LineAt(products, cart, vendor, at)
  {
    var items := ItemsOf(products, cart, vendor);
    |items| == |at| && forall k :: 0 <= k < |at| ==> items[k] == ItemOf(products, cart[at[k]])
  }

  lemma ItemsMore(products: map<Id, Product>, cart: seq<CartLine>, vendor: Id, at: seq<nat>, after: seq<nat>)
    requires cart != [] && Known(products, cart) && LineAt(products, cart[..|cart| - 1], vendor, at)
    requires ItemsAt(products, cart[..|cart| - 1], vendor, at) && LineAt(products, cart, vendor, after)
    requires after == if products[cart[|cart| - 1].product].vendor == vendor then at + [|cart| - 1] else at
    ensures ItemsAt(products, cart, vendor, after)
  {
    var head := cart[..|cart| - 1];
    var line := cart[|cart| - 1];
    var items, before := ItemsOf(products, cart, vendor), ItemsOf(products, head, vendor);
    assert items == if products[line.product].vendor == vendor then before + [ItemOf(products, line)] else before;
    forall k | 0 <= k < |after|
      ensures items[k] == ItemOf(products, cart[after[k]])
    {
      if k < |at| {
        OldItem(products, cart, vendor, at, k);
      }
    }
  }

  lemma OldItem(products: map<Id, Product>, cart: seq<CartLine>, vendor: Id, at: seq<nat>, k: nat)
    requires cart != [] && Known(products, cart) && LineAt(products, cart[..|cart| - 1], vendor, at)
    requires ItemsAt(products, cart[..|cart| - 1], vendor, at) && k < |at|
    ensures ItemsOf(products, cart[..|cart| - 1], vendor)[k] == ItemOf(products, cart[at[k]])
  {
    assert cart[..|cart| - 1][at[k]] == cart[at[k]];
  }

  lemma {:induction false} ItemsInCartOrder(products: map<Id, Product>, cart: seq<CartLine>, vendor: Id)
    returns (at: seq<nat>)
    requires Known(products, cart)
    ensures LineAt(products, cart, vendor, at) && ItemsAt(products, cart, vendor, at)
  {
    if cart == [] {
      at := [];
    } else {
      var n := |cart| - 1;
      var before := ItemsInCartOrder(products, cart[..n], vendor);
      at := if products[cart[n].product].vendor == vendor then before + [n] else before;
      LinesMore(products, cart, vendor, before, at);
      ItemsMore(products, cart, vendor, before, at);
    }
  }

  lemma {:induction false} VendorHasLines(products: map<Id, Product>, cart: seq<CartLine>, v: Id)
    requires Known(products, cart) && v in Vendors(products, cart)
    ensures ItemsOf(products, cart, v) != []
  {
    var head := cart[..|cart| - 1];
    if v in Vendors(products, head) {
      VendorHasLines(products, head, v);
    }
  }

  lemma {:induction false} TotalsByGroup(products: map<Id, Product>, cart: seq<CartLine>, orders: seq<Order>,
                                         vendors: seq<Id>)
    requires Known(products, cart) && |orders| == |vendors|
    requires forall k :: 0 <= k < |orders| ==> orders[k].total == TotalPrice(ItemsOf(products, cart, vendors[k]))
    ensures OrderTotals(orders) == GroupSum(products, cart, vendors, PriceOf())
  {
    if orders != [] {
      TotalsByGroup(products, cart, orders[..|orders| - 1], vendors[..|vendors| - 1]);
    }
  }

  /** A placed checkout appends one order per vendor, holding that vendor's lines and no others; the order totals add up
      to the one amount sent to the provider, which is the sum of price times quantity over the whole cart. */
  lemma CheckoutPartitions(s: Shop, client: Id, cart: seq<CartLine>, reference: string, now: int, provider: bool)
    requires Checkout(s, client, cart, reference, now, provider).1.Placed?
    ensures
      var (s', reply) := Checkout(s, client, cart, reference, now, provider);
      && Known(s.products, cart) && |s'.orders| >= |s.orders| && s'.orders[..|s.orders|] == s.orders
      && var placed := s'.orders[|s.orders|..];
      && OrdersOf(s.products, cart, placed)
      && (forall k, l :: 0 <= k < l < |placed| ==> placed[k].vendor != placed[l].vendor)
      && OrderTotals(placed) == reply.total == Sum(Items(s.products, cart), PriceOf())
  {
    var placed, vendors := NewOrders(s.products, cart, client, reference, now), Vendors(s.products, cart);
    VendorsNoRepeat(s.products, cart);
    forall k | 0 <= k < |placed|
      ensures OrderOf(s.products, cart, placed[k]) && placed[k].vendor == vendors[k]
    {
      VendorHasLines(s.products, cart, vendors[k]);
    }
    TotalsByGroup(s.products, cart, placed, vendors);
    GroupsPartition(s.products, cart, PriceOf());
    assert (s.orders + placed)[|s.orders|..] == placed;
  }
}
