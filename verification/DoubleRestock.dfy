/** How an order's items can come to be put back twice, and exactly when: a vendor reopens the order, or a row read
    earlier is cancelled without being read again. */
module DoubleRestock {
  import opened Sums
  import opened ShopModel
  import opened StockConservation

  ghost predicate AtMostOnce(s: Shop) {
    forall n :: 0 <= n < |s.orders| ==> s.orders[n].putBack <= 1
  }

  /** No step along the way reopens an order. */
  ghost predicate NoReopening(s: Shop, es: seq<Event>) {
    forall i :: 0 <= i < |es| ==> !Reopens(Run(s, es[..i]), es[i])
  }

  /** However things go on, short of reopening, no order is put back twice. */
  ghost predicate Secure(s: Shop) {
    forall es :: NoReopening(s, es) ==> AtMostOnce(Run(s, es))
  }

  lemma LastNotReopening(s: Shop, es: seq<Event>)
    requires NoReopening(s, es) && es != []
    ensures NoReopening(s, es[..|es| - 1]) && !Reopens(Run(s, es[..|es| - 1]), es[|es| - 1])
  {
    var prefix := es[..|es| - 1];
    forall i | 0 <= i < |prefix|
      ensures !Reopens(Run(s, prefix[..i]), prefix[i])
    {
      assert prefix[..i] == es[..i] && prefix[i] == es[i];
    }
  }

  lemma {:induction false} OnceOnlyLasts(s: Shop, es: seq<Event>)
    requires OnceOnly(s) && NoReopening(s, es)
    ensures OnceOnly(Run(s, es))
  {
    if es != [] {
      LastNotReopening(s, es);
      OnceOnlyLasts(s, es[..|es| - 1]);
      StepOnce(Run(s, es[..|es| - 1]), es[|es| - 1]);
    }
  }

  /** A clean-up puts every abandoned order's items back, whether they were put back before or not. */
  lemma {:induction false} CleanPutsBack(s: Shop, threshold: int, n: nat, upTo: nat)
    requires n < upTo <= |s.orders| && Abandoned(s.orders[n], threshold)
    ensures CleanFirst(s, threshold, upTo).orders[n].putBack == s.orders[n].putBack + 1
  {
    if n < upTo - 1 {
      CleanPutsBack(s, threshold, n, upTo - 1);
    }
  }

  lemma RunOfOne(s: Shop, e: Event)
    ensures Run(s, [e]) == Step(s, e) && Run(s, []) == s
  {
    assert [e][..0] == [];
  }

  /** No order can be put back twice any more if and only if each was put back at most once, and none that is still
      PENDING_PAYMENT was. */
  lemma SecureExactly(s: Shop)
    ensures Secure(s) <==> OnceOnly(s)
  {
    if OnceOnly(s) {
      forall es | NoReopening(s, es)
        ensures AtMostOnce(Run(s, es))
      {
        OnceOnlyLasts(s, es);
      }
    }
    if Secure(s) {
      assert NoReopening(s, []) && Run(s, []) == s;
      forall n | 0 <= n < |s.orders| && s.orders[n].status == PENDING_PAYMENT
        ensures s.orders[n].putBack == 0
      {
        var clean := Clean(s.orders[n].createdAt);
        RunOfOne(s, clean);
        CleanPutsBack(s, s.orders[n].createdAt, n, |s.orders|);
        assert NoReopening(s, [clean]);
        assert AtMostOnce(Run(s, [clean]));
      }
    }
  }

  /** While no order can be put back twice, a step keeps it so if and only if it does not reopen an order. */
  lemma StepSecureExactly(s: Shop, e: Event)
    requires Secure(s)
    ensures Secure(Step(s, e)) <==> !Reopens(s, e)
  {
    SecureExactly(s);
    StepOnce(s, e);
    SecureExactly(Step(s, e));
  }

  /** Every reopened order is put back a second time by the next clean-up that finds it old enough. */
  lemma ReopenedIsPutBackTwice(s: Shop, e: Event, threshold: int)
    requires OnceOnly(s) && Reopens(s, e) && s.orders[e.n].createdAt <= threshold
    ensures Step(Step(s, e), Clean(threshold)).orders[e.n].putBack == 2
  {
    CleanPutsBack(Step(s, e), threshold, e.n, |s.orders|);
  }

  // ---- a row read earlier ------------------------------------------------------------------------------------------

  lemma {:induction false} OrdersRemain(s: Shop, es: seq<Event>)
    requires OnceOnly(s) && NoReopening(s, es)
    ensures |Run(s, es).orders| >= |s.orders|
  {
    if es != [] {
      LastNotReopening(s, es);
      OrdersRemain(s, es[..|es| - 1]);
      OnceOnlyLasts(s, es[..|es| - 1]);
      StepOnce(Run(s, es[..|es| - 1]), es[|es| - 1]);
    }
  }

  /** The clean-up reads its rows once, and the webhook does too; both then cancel each without reading it again. On an
      order that was pending when it was read, cancelling puts its items back once in all if and only if they were not
      put back since, and twice otherwise; an order paid since is cancelled too. */
  lemma StaleCancel(s: Shop, es: seq<Event>, n: nat)
    requires OnceOnly(s) && NoReopening(s, es) && n < |s.orders| && s.orders[n].status == PENDING_PAYMENT
    ensures
      var now := Run(s, es);
      && n < |now.orders|
      && CancelOrder(now, n).orders[n].status == CANCELLED
      && CancelOrder(now, n).orders[n].putBack == (if now.orders[n].putBack > 0 then 2 else 1)
  {
    OrdersRemain(s, es);
    OnceOnlyLasts(s, es);
  }

  /** A success webhook writes PAID on the orders it read pending, in the same way: the paid order has its units out
      with it if and only if they were not put back since. */
  lemma StalePay(s: Shop, es: seq<Event>, n: nat, p: Id)
    requires OnceOnly(s) && NoReopening(s, es) && n < |s.orders| && s.orders[n].status == PENDING_PAYMENT
    ensures
      var now := Run(s, es);
      && n < |now.orders|
      && PayOrder(now, n).orders[n].status == PAID && PayOrder(now, n).products == now.products
      && OutOf(PayOrder(now, n).orders[n], p)
        == (if now.orders[n].putBack > 0 then 0 else Quantity(now.orders[n].items, p))
  {
    OrdersRemain(s, es);
    OnceOnlyLasts(s, es);
    OutWith(PayOrder(Run(s, es), n).orders[n], p);
  }

  lemma OutWith(o: Order, p: Id)
    requires o.putBack <= 1
    ensures OutOf(o, p) == if o.putBack > 0 then 0 else Quantity(o.items, p)
  {
    if o.putBack == 0 {
      assert (1 - o.putBack) * Quantity(o.items, p) == Quantity(o.items, p);
    }
  }

  // ---- runs --------------------------------------------------------------------------------------------------------

  const SHELF: Shop := Shop(map["p" := Product("vendor", 10, 5)], [])
  const ONE_UNIT := [CartLine("p", 1)]

  const PLACED := Order("client", "vendor", "EA-1", 10, PENDING_PAYMENT, [Item("p", 1, 10)], 0, 0)

  /** One unit of a product of which there are five. */
  lemma BuyOne()
    ensures Step(SHELF, Buy("client", ONE_UNIT, "EA-1", 0, true))
         == Shop(map["p" := Product("vendor", 10, 4)], [PLACED])
  {
    var products := SHELF.products;
    assert ONE_UNIT[..0] == [] && ONE_UNIT[..1] == ONE_UNIT;
    assert Hits(products, ONE_UNIT) == {"p"} by {
      assert ONE_UNIT[0].product in Hits(products, ONE_UNIT);
    }
    assert EnoughFor(products, ONE_UNIT, 0);
    assert Vendors(products, ONE_UNIT) == ["vendor"];
    assert ItemsOf(products, ONE_UNIT, "vendor") == [Item("p", 1, 10)];
    assert Items(products, ONE_UNIT) == [Item("p", 1, 10)];
    assert Sum([Item("p", 1, 10)], PriceOf()) == 10 by { SumAppend([], Item("p", 1, 10), PriceOf()); }
    assert NewOrders(products, ONE_UNIT, "client", "EA-1", 0) == [PLACED];
    assert Take(products, ONE_UNIT) == map["p" := Product("vendor", 10, 4)];
  }

  lemma CancelPlaced(s: Shop)
    requires |s.orders| == 1 && s.orders[0].items == PLACED.items && "p" in s.products
    ensures CancelOrder(s, 0).products == s.products["p" := s.products["p"].(stock := s.products["p"].stock + 1)]
  {
    var items := s.orders[0].items;
    assert items[..0] == [] && items[0] == Item("p", 1, 10);
    assert PutBack(s.products, items[..0]) == s.products;
  }

  /** The order, after its payment failed. */
  const FAILED_ORDER := PLACED.(status := CANCELLED, putBack := 1)

  lemma FailOne(s: Shop)
    requires s == Shop(map["p" := Product("vendor", 10, 4)], [PLACED])
    ensures Step(s, Webhook("EA-1", false)) == Shop(map["p" := Product("vendor", 10, 5)], [FAILED_ORDER])
  {
    CancelPlaced(s);
    assert SettleFirst(s, "EA-1", false, 1) == CancelOrder(s, 0);
  }

  /** Bought, failed, reopened by the vendor, cleaned up. */
  const REOPENED := [Buy("client", ONE_UNIT, "EA-1", 0, true), Webhook("EA-1", false),
                     Mark(0, "vendor", PENDING_PAYMENT), Clean(0)]

  lemma BuyAndFail(es: seq<Event>)
    requires |es| >= 2 && es[..2] == REOPENED[..2]
    ensures Run(SHELF, es[..2]) == Shop(map["p" := Product("vendor", 10, 5)], [FAILED_ORDER])
  {
    assert REOPENED[..2][..1] == [REOPENED[0]] && REOPENED[..2][1] == REOPENED[1];
    RunOfOne(SHELF, REOPENED[0]);
    BuyOne();
    FailOne(Run(SHELF, REOPENED[..2][..1]));
  }

  /** Six units on the shelf where there were five. */
  lemma ReopeningRestocksTwice()
    ensures Run(SHELF, REOPENED) == Shop(map["p" := Product("vendor", 10, 6)], [FAILED_ORDER.(putBack := 2)])
  {
    var es := REOPENED;
    BuyAndFail(es);
    var failed := Run(SHELF, es[..2]);
    assert es[..3][..2] == es[..2] && es[..3][2] == es[2];
    var reopened := Run(SHELF, es[..3]);
    assert reopened == failed.(orders := [FAILED_ORDER.(status := PENDING_PAYMENT)]);
    assert es[..4] == es && es[..4][..3] == es[..3];
    CancelPlaced(reopened);
    assert CleanFirst(reopened, 0, 1) == CancelOrder(reopened, 0);
  }

  /** A clean-up reads the pending order, the provider reports its payment failed, and then the clean-up cancels it: six
      units where there were five. */
  lemma StaleCleanupRestocksTwice()
    ensures
      var read := Run(SHELF, REOPENED[..1]);
      var now := Run(SHELF, REOPENED[..2]);
      && read.orders == [PLACED] && Abandoned(PLACED, 0) && |now.orders| == 1
      && CancelOrder(now, 0) == Shop(map["p" := Product("vendor", 10, 6)], [FAILED_ORDER.(putBack := 2)])
  {
    assert REOPENED[..1] == [REOPENED[0]];
    RunOfOne(SHELF, REOPENED[0]);
    BuyOne();
    BuyAndFail(REOPENED);
    CancelPlaced(Run(SHELF, REOPENED[..2]));
  }

  /** A webhook reads the pending order, a failure is reported first, and then the order is marked PAID: it is paid for,
      and all five units are on the shelf. */
  lemma StalePaymentLeavesStock()
    ensures
      var read := Run(SHELF, REOPENED[..1]);
      var now := Run(SHELF, REOPENED[..2]);
      && read.orders == [PLACED] && AllPending(read, "EA-1") && |now.orders| == 1
      && PayOrder(now, 0) == Shop(map["p" := Product("vendor", 10, 5)], [FAILED_ORDER.(status := PAID)])
  {
    assert REOPENED[..1] == [REOPENED[0]];
    RunOfOne(SHELF, REOPENED[0]);
    BuyOne();
    BuyAndFail(REOPENED);
  }
}
