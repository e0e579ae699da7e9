/** What becomes of booking commissions. They are recorded under the id of a payment or a booking; commissions are
    unlocked by the id of a ticket or an event only. */
module EscrowStays {
  import opened Wrappers
  import opened Sums
  import opened Ledger
  import opened SponsorshipModel
  import opened SponsorWallets
  import Finance

  /** `sold` tells the ids that sales are recorded under, from those that commissions are unlocked by. */
  predicate Apart(sold: Id -> bool, e: Event) {
    && (e.Sell? ==> sold(e.sale.source) && e.sale.booking == None && e.sale.order == None)
    && (e.Release? ==> !sold(e.source))
  }

  predicate Locked(sold: Id -> bool, c: Commission) {
    sold(c.source) && c.booking == None && c.order == None && c.status != AVAILABLE && c.payout == Nowhere
  }

  ghost predicate AllLocked(sold: Id -> bool, s: Escrow) {
    forall i :: 0 <= i < |s.commissions| ==> Locked(sold, s.commissions[i])
  }

  lemma {:induction false} NoneFound(sold: Id -> bool, commissions: seq<Commission>, source: Id)
    requires !sold(source) && forall i :: 0 <= i < |commissions| ==> Locked(sold, commissions[i])
    ensures Pending(commissions, source) == []
  {
    if commissions != [] {
      NoneFound(sold, commissions[..|commissions| - 1], source);
    }
  }

  lemma SellLocks(sold: Id -> bool, s: Escrow, sale: Sale, n1: Option<Id>, n2: Option<Id>)
    requires AllLocked(sold, s) && sold(sale.source) && sale.booking == None && sale.order == None
    ensures AllLocked(sold, Distribute(s, sale, n1, n2))
  {
  }

  lemma StepLocked(sold: Id -> bool, s: Escrow, e: Event)
    requires AllLocked(sold, s) && Apart(sold, e)
    ensures AllLocked(sold, Step(s, e))
  {
    match e
    case Sell(sale, n1, n2) => SellLocks(sold, s, sale, n1, n2);
    case Release(source, owners, today) => NoneFound(sold, s.commissions, source);
    case _ =>
  }

  lemma {:induction false} RunLocked(sold: Id -> bool, es: seq<Event>)
    requires forall i :: 0 <= i < |es| ==> Apart(sold, es[i])
    ensures AllLocked(sold, Run(es))
  {
    if es != [] {
      RunLocked(sold, es[..|es| - 1]);
      StepLocked(sold, Run(es[..|es| - 1]), es[|es| - 1]);
    }
  }

  lemma {:induction false} SumZero<T>(rows: seq<T>, f: T -> int)
    requires forall i :: 0 <= i < |rows| ==> f(rows[i]) == 0
    ensures Sum(rows, f) == 0
  {
    if rows != [] {
      SumZero(rows[..|rows| - 1], f);
    }
  }

  lemma {:induction false} SumNotNegative<T>(rows: seq<T>, f: T -> int)
    requires forall i :: 0 <= i < |rows| ==> f(rows[i]) >= 0
    ensures Sum(rows, f) >= 0
  {
    if rows != [] {
      SumNotNegative(rows[..|rows| - 1], f);
    }
  }

  /** Over every run in which sales are recorded under other ids than commissions are unlocked by: no commission ever
      becomes AVAILABLE, every wallet is empty, and no ledger is credited. */
  lemma NothingUnlocked(sold: Id -> bool, es: seq<Event>, u: Id, o: Id)
    requires forall i :: 0 <= i < |es| ==> Apart(sold, es[i])
    ensures
      var s := Run(es);
      && (forall i :: 0 <= i < |s.commissions| ==> s.commissions[i].status != AVAILABLE)
      && WalletOf(s, u) == 0 && Balance(s.rows, o) == 0
  {
    var s := Run(es);
    RunLocked(sold, es);
    RunKeeps(es);
    assert WalletTrue(s, u) && LedgerTrue(s, o);
    SumZero(s.commissions, IntoWallet(u));
    SumZero(s.commissions, IntoLedger(o));
    SumNotNegative(s.withdrawals, OutOfWallet(u));
  }

  // ---- a run -------------------------------------------------------------------------------------------------------

  const SPONSOR := User(true, None, None, false, 0)
  const LINK := Link("sponsor", "buyer", "client", 100)

  /** A sponsored buyer pays for a booking of 1000, and a ticket is scanned. */
  function PaidAndScanned(today: Today): seq<Event> {
    [Profile("sponsor", SPONSOR), Join("link", LINK), Sell(Sale(1000, "payment", None, None), Some("link"), None),
     Release("ticket", map[], today)]
  }

  /** The commission of 2 stays PENDING. */
  lemma CommissionStaysPending(today: Today)
    ensures
      var s := Run(PaidAndScanned(today));
      && s.commissions
        == [Commission("link", "payment", None, None, 2, 1, 25, CommissionStatus.PENDING, Nowhere)]
      && WalletOf(s, "sponsor") == 0
  {
    var es := PaidAndScanned(today);
    assert es[..4] == es && es[..4][..3] == es[..3];
    BeforeSale(es, today);
    var s3 := Run(es[..3]);
    assert es[..3][..2] == es[..2];
    SaleRecorded(Run(es[..2]));
    NoneFound((id: Id) => id == "payment", s3.commissions, "ticket");
  }

  const SPONSORED := EMPTY.(users := map["sponsor" := SPONSOR], links := map["link" := LINK])

  lemma BeforeSale(es: seq<Event>, today: Today)
    requires es == PaidAndScanned(today)
    ensures Run(es[..2]) == SPONSORED
  {
    assert es[..2][..1] == es[..1] && es[..1][..0] == [];
    assert Run(es[..1]) == EMPTY.(users := map["sponsor" := SPONSOR]);
  }

  lemma SaleRecorded(s: Escrow)
    requires s == SPONSORED
    ensures Distribute(s, Sale(1000, "payment", None, None), Some("link"), None)
         == s.(commissions := [Commission("link", "payment", None, None, 2, 1, 25, CommissionStatus.PENDING, Nowhere)])
  {
    TwoFrancs();
    assert LinkRate(s, Some("link"), 1) == 0.07;
  }

  lemma TwoFrancs()
    ensures Finance.ComputeNetRevenue(1000).net == 25 && Finance.Commission(25, 0.07) == 2
  {
  }
}
