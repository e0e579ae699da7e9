/** Where sponsors' money is, over every run of sales, unlocks, cancellations and withdrawals. */
module SponsorWallets {
  import opened Wrappers
  import opened Sums
  import opened Ledger
  import opened SponsorshipModel
  import Finance

  /** What a commission put into user u's wallet. */
  function IntoWallet(u: Id): Commission -> int {
    (c: Commission) => if c.payout == ToWallet(u) then c.amount else 0
  }

  /** What a commission put into owner o's ledger. */
  function IntoLedger(o: Id): Commission -> int {
    (c: Commission) => if c.payout == ToLedger(o) then c.amount else 0
  }

  /** What a withdrawal takes out of user u's wallet. */
  function OutOfWallet(u: Id): Withdrawal -> int {
    (w: Withdrawal) => if w.user == u && w.status != REJECTED then w.amount else 0
  }

  /** A commission is credited somewhere exactly when it is AVAILABLE, to its sponsor's wallet if to any. */
  predicate CommissionOk(s: Escrow, c: Commission) {
    && c.amount > 0
    && Payee(s, c).Some?
    && (c.status == AVAILABLE <==> c.payout != Nowhere)
    && (c.payout.ToWallet? ==> Payee(s, c) == Some(c.payout.user))
  }

  ghost predicate CommissionsOk(s: Escrow) {
    forall i :: 0 <= i < |s.commissions| ==> CommissionOk(s, s.commissions[i])
  }

  ghost predicate WalletTrue(s: Escrow, u: Id) {
    && WalletOf(s, u) >= 0
    && WalletOf(s, u) == Sum(s.commissions, IntoWallet(u)) - Sum(s.withdrawals, OutOfWallet(u))
  }

  ghost predicate LedgerTrue(s: Escrow, o: Id) {
    Balance(s.rows, o) == Sum(s.commissions, IntoLedger(o))
  }

  /** Withdrawals are of known users, for positive amounts. */
  ghost predicate WithdrawalsOk(s: Escrow) {
    forall n :: 0 <= n < |s.withdrawals| ==> s.withdrawals[n].user in s.users && s.withdrawals[n].amount > 0
  }

  ghost predicate Sound(s: Escrow) {
    && CommissionsOk(s) && WithdrawalsOk(s)
    && (forall u :: WalletTrue(s, u))
    && (forall o :: LedgerTrue(s, o))
  }

  // ---- what every step keeps ---------------------------------------------------------------------------------------

  lemma RecordKeeps(s: Escrow, sale: Sale, link: Id, level: nat, net: int, rate: real)
    requires Sound(s) && Follows(s, Some(link))
    ensures Sound(Record(s, sale, link, level, net, rate))
  {
    var s' := Record(s, sale, link, level, net, rate);
    if s' != s {
      var c := s'.commissions[|s.commissions|];
      forall u
        ensures WalletTrue(s', u)
      {
        assert WalletTrue(s, u);
        SumAppend(s.commissions, c, IntoWallet(u));
      }
      forall o
        ensures LedgerTrue(s', o)
      {
        assert LedgerTrue(s, o);
        SumAppend(s.commissions, c, IntoLedger(o));
      }
    }
  }

  lemma DistributeKeeps(s: Escrow, sale: Sale, n1: Option<Id>, n2: Option<Id>)
    requires Sound(s)
    ensures Sound(Distribute(s, sale, n1, n2))
  {
    var net := Finance.ComputeNetRevenue(sale.principal).net;
    if Follows(s, n1) && net > 0 {
      RecordKeeps(s, sale, n1.value, 1, net, LinkRate(s, n1, 1));
      if Follows(s, n2) {
        RecordKeeps(Record(s, sale, n1.value, 1, net, LinkRate(s, n1, 1)), sale, n2.value, 2, net, LinkRate(s, n2, 2));
      }
    }
  }

  lemma UnlockOneKeeps(s: Escrow, i: nat, source: Id, owners: map<Id, Id>, today: Today)
    requires Sound(s) && i < |s.commissions| && s.commissions[i].status == CommissionStatus.PENDING
    ensures Sound(UnlockOne(s, i, source, owners, today))
  {
    var s' := UnlockOne(s, i, source, owners, today);
    var c := s'.commissions[i];
    assert CommissionOk(s, s.commissions[i]);
    forall u
      ensures WalletTrue(s', u)
    {
      assert WalletTrue(s, u);
      SumUpdate(s.commissions, i, c, IntoWallet(u));
    }
    forall o
      ensures LedgerTrue(s', o)
    {
      assert LedgerTrue(s, o);
      SumUpdate(s.commissions, i, c, IntoLedger(o));
    }
    forall j | 0 <= j < |s'.commissions|
      ensures CommissionOk(s', s'.commissions[j])
    {
      assert CommissionOk(s, s.commissions[j]);
    }
  }

  /** Unlocking some rows leaves the others as they are. */
  lemma {:induction false} UnlockTouches(s: Escrow, found: seq<nat>, source: Id, owners: map<Id, Id>, today: Today,
                                         j: nat)
    requires Places(s.commissions, found) && j < |s.commissions| && j !in found
    ensures UnlockAll(s, found, source, owners, today).commissions[j] == s.commissions[j]
  {
    if found != [] {
      UnlockTouches(s, found[..|found| - 1], source, owners, today, j);
    }
  }

  lemma {:induction false} UnlockAllKeeps(s: Escrow, found: seq<nat>, source: Id, owners: map<Id, Id>, today: Today)
    requires Sound(s) && Places(s.commissions, found)
    requires forall k :: 0 <= k < |found| ==> s.commissions[found[k]].status == CommissionStatus.PENDING
    requires forall j, k :: 0 <= j < k < |found| ==> found[j] < found[k]
    ensures Sound(UnlockAll(s, found, source, owners, today))
  {
    if found != [] {
      var before, i := found[..|found| - 1], found[|found| - 1];
      UnlockAllKeeps(s, before, source, owners, today);
      UnlockTouches(s, before, source, owners, today, i);
      UnlockOneKeeps(UnlockAll(s, before, source, owners, today), i, source, owners, today);
    }
  }

  lemma {:induction false} SumSame(cs: seq<Commission>, cs': seq<Commission>, f: Commission -> int,
                                   g: Commission -> int)
    requires |cs| == |cs'| && forall i :: 0 <= i < |cs| ==> f(cs[i]) == g(cs'[i])
    ensures Sum(cs, f) == Sum(cs', g)
  {
    if cs != [] {
      SumSame(cs[..|cs| - 1], cs'[..|cs| - 1], f, g);
    }
  }

  lemma CancelKeeps(s: Escrow, source: Id)
    requires Sound(s)
    ensures Sound(Cancel(s, source))
  {
    var s' := Cancel(s, source);
    forall i | 0 <= i < |s.commissions|
      ensures CommissionOk(s', s'.commissions[i]) && s'.commissions[i].payout == s.commissions[i].payout
    {
      assert CommissionOk(s, s.commissions[i]);
    }
    forall u
      ensures WalletTrue(s', u)
    {
      assert WalletTrue(s, u);
      SumSame(s.commissions, s'.commissions, IntoWallet(u), IntoWallet(u));
    }
    forall o
      ensures LedgerTrue(s', o)
    {
      assert LedgerTrue(s, o);
      SumSame(s.commissions, s'.commissions, IntoLedger(o), IntoLedger(o));
    }
  }

  /** A change of users that keeps them all keeps every payee. */
  lemma PayeesStay(s: Escrow, s': Escrow)
    requires CommissionsOk(s) && s'.commissions == s.commissions && s'.users.Keys >= s.users.Keys
    requires forall l :: l in s.links ==> l in s'.links && s'.links[l] == s.links[l]
    ensures CommissionsOk(s')
  {
    forall i | 0 <= i < |s'.commissions|
      ensures CommissionOk(s', s'.commissions[i])
    {
      assert CommissionOk(s, s.commissions[i]);
    }
  }

  /** A withdrawal takes out of the wallet what it is for. */
  lemma DebitKeeps(s: Escrow, u: Id, amount: int, s': Escrow)
    requires Sound(s) && u in s.users && 0 < amount <= s.users[u].wallet
    requires s'.users == s.users[u := s.users[u].(wallet := s.users[u].wallet - amount)]
    requires s'.withdrawals == s.withdrawals + [Withdrawal(u, amount, WithdrawalStatus.PENDING)]
    requires s'.commissions == s.commissions && s'.links == s.links && s'.rows == s.rows
    ensures Sound(s')
  {
    PayeesStay(s, s');
    forall v
      ensures WalletTrue(s', v)
    {
      assert WalletTrue(s, v);
      SumAppend(s.withdrawals, Withdrawal(u, amount, WithdrawalStatus.PENDING), OutOfWallet(v));
    }
    SameLedgers(s, s');
  }

  lemma SameLedgers(s: Escrow, s': Escrow)
    requires Sound(s) && s'.commissions == s.commissions && s'.rows == s.rows
    ensures forall o :: LedgerTrue(s', o)
  {
    forall o
      ensures LedgerTrue(s', o)
    {
      assert LedgerTrue(s, o);
    }
  }

  lemma WithdrawKeeps(s: Escrow, u: Id, amount: int, otp: bool)
    requires Sound(s)
    ensures Sound(Request(s, u, amount, otp).0)
  {
    var (s', reply) := Request(s, u, amount, otp);
    if reply.Done? {
      DebitKeeps(s, u, amount, s');
    }
  }

  lemma JudgeKeeps(s: Escrow, n: nat, approve: bool)
    requires Sound(s)
    ensures Sound(Judge(s, n, approve).0)
  {
    var (s', reply) := Judge(s, n, approve);
    PayeesStay(s, s');
    if reply.Done? {
      forall v
        ensures WalletTrue(s', v)
      {
        assert WalletTrue(s, v);
        SumUpdate(s.withdrawals, n, s'.withdrawals[n], OutOfWallet(v));
      }
      SameLedgers(s, s');
    }
  }

  lemma RegisterKeeps(s: Escrow, e: Event)
    requires Sound(s) && (e.Profile? || e.Join?)
    ensures Sound(Step(s, e))
  {
    var s' := Step(s, e);
    PayeesStay(s, s');
    forall u
      ensures WalletTrue(s', u)
    {
      assert WalletTrue(s, u);
    }
    SameLedgers(s, s');
  }

  lemma StepKeeps(s: Escrow, e: Event)
    requires Sound(s)
    ensures Sound(Step(s, e))
  {
    match e
    case Profile(_, _) => RegisterKeeps(s, e);
    case Join(_, _) => RegisterKeeps(s, e);
    case Sell(sale, n1, n2) => DistributeKeeps(s, sale, n1, n2);
    case Release(source, owners, today) =>
      PendingPlaces(s.commissions, source);
      var found := Pending(s.commissions, source);
      forall k | 0 <= k < |found|
        ensures s.commissions[found[k]].status == CommissionStatus.PENDING
      {
        assert found[k] in found;
      }
      UnlockAllKeeps(s, found, source, owners, today);
    case Revoke(source) => CancelKeeps(s, source);
    case Withdraw(u, amount, otp) => WithdrawKeeps(s, u, amount, otp);
    case Decide(n, approve) => JudgeKeeps(s, n, approve);
  }

  lemma {:induction false} RunKeeps(es: seq<Event>)
    ensures Sound(Run(es))
  {
    if es != [] {
      RunKeeps(es[..|es| - 1]);
      StepKeeps(Run(es[..|es| - 1]), es[|es| - 1]);
    }
  }

  // ---- sponsors ----------------------------------------------------------------------------------------------------

  /** What the commissions made AVAILABLE come to that user u sponsors. */
  function Earned(links: map<Id, Link>, u: Id): Commission -> int {
    (c: Commission) =>
      if c.status == AVAILABLE && c.link in links && links[c.link].sponsor == u then c.amount else 0
  }

  ghost predicate NoProfile(es: seq<Event>, u: Id) {
    forall i :: 0 <= i < |es| && es[i].Release? ==> u !in es[i].owners
  }

  /** What u sponsors has not gone to a ledger. */
  ghost predicate PaidInWallet(s: Escrow, u: Id) {
    forall i :: 0 <= i < |s.commissions| && s.commissions[i].payout.ToLedger? ==> Payee(s, s.commissions[i]) != Some(u)
  }

  lemma {:induction false} UnlockPaysWallet(s: Escrow, found: seq<nat>, source: Id, owners: map<Id, Id>, today: Today,
                                            u: Id)
    requires PaidInWallet(s, u) && u !in owners && Places(s.commissions, found)
    ensures
      var s' := UnlockAll(s, found, source, owners, today);
      PaidInWallet(s', u) && s'.links == s.links && s'.users.Keys == s.users.Keys
  {
    if found != [] {
      UnlockPaysWallet(s, found[..|found| - 1], source, owners, today, u);
    }
  }

  lemma PaidStays(s: Escrow, e: Event, u: Id)
    requires Sound(s) && PaidInWallet(s, u) && (e.Release? ==> u !in e.owners)
    ensures PaidInWallet(Step(s, e), u)
  {
    if e.Release? {
      PendingPlaces(s.commissions, e.source);
      UnlockPaysWallet(s, Pending(s.commissions, e.source), e.source, e.owners, e.today, u);
    } else {
      forall i | 0 <= i < |s.commissions|
        ensures
          var s' := Step(s, e);
          && i < |s'.commissions| && s'.commissions[i].payout == s.commissions[i].payout
          && Payee(s', s'.commissions[i]) == Payee(s, s.commissions[i])
      {
        assert CommissionOk(s, s.commissions[i]);
      }
    }
  }

  lemma {:induction false} AlwaysPaidInWallet(es: seq<Event>, u: Id)
    requires NoProfile(es, u)
    ensures PaidInWallet(Run(es), u)
  {
    if es != [] {
      AlwaysPaidInWallet(es[..|es| - 1], u);
      RunKeeps(es[..|es| - 1]);
      PaidStays(Run(es[..|es| - 1]), es[|es| - 1], u);
    }
  }

  /** Over every run: the wallet of a sponsor without an owner profile holds what their available commissions come to,
      less their pending and processed withdrawals, and is never negative. */
  lemma WalletConserved(es: seq<Event>, u: Id)
    requires NoProfile(es, u)
    ensures
      var s := Run(es);
      && WalletOf(s, u) >= 0
      && WalletOf(s, u) == Sum(s.commissions, Earned(s.links, u)) - Sum(s.withdrawals, OutOfWallet(u))
  {
    var s := Run(es);
    RunKeeps(es);
    AlwaysPaidInWallet(es, u);
    assert WalletTrue(s, u);
    forall i | 0 <= i < |s.commissions|
      ensures IntoWallet(u)(s.commissions[i]) == Earned(s.links, u)(s.commissions[i])
    {
      assert CommissionOk(s, s.commissions[i]);
    }
    SumSame(s.commissions, s.commissions, IntoWallet(u), Earned(s.links, u));
  }

  /** Over every run, owner profile or not: wallet and ledger hold exactly what was credited to each, and each
      commission made available was credited to one of them, its sponsor's wallet if to any. */
  lemma CreditsConserved(es: seq<Event>, u: Id, o: Id)
    ensures
      var s := Run(es);
      && WalletOf(s, u) + Sum(s.withdrawals, OutOfWallet(u)) == Sum(s.commissions, IntoWallet(u))
      && Balance(s.rows, o) == Sum(s.commissions, IntoLedger(o))
      && (forall i :: 0 <= i < |s.commissions| ==> CommissionOk(s, s.commissions[i]))
  {
    RunKeeps(es);
    assert WalletTrue(Run(es), u) && LedgerTrue(Run(es), o);
  }

  // ---- each commission once ----------------------------------------------------------------------------------------

  lemma {:induction false} UnlockHits(s: Escrow, found: seq<nat>, source: Id, owners: map<Id, Id>, today: Today, i: nat)
    requires Places(s.commissions, found) && i in found
    requires forall j, k :: 0 <= j < k < |found| ==> found[j] < found[k]
    ensures
      var c, c' := s.commissions[i], UnlockAll(s, found, source, owners, today).commissions[i];
      && c' == c.(status := AVAILABLE, payout := c'.payout)
      && (Payee(s, c).Some? ==>
            c'.payout == if Payee(s, c).value in owners then ToLedger(owners[Payee(s, c).value])
                         else ToWallet(Payee(s, c).value))
  {
    var before := found[..|found| - 1];
    if i == found[|found| - 1] {
      UnlockHitsLast(s, found, source, owners, today);
    } else {
      UnlockHits(s, before, source, owners, today, i);
    }
  }

  lemma UnlockHitsLast(s: Escrow, found: seq<nat>, source: Id, owners: map<Id, Id>, today: Today)
    requires Places(s.commissions, found) && found != []
    requires forall j, k :: 0 <= j < k < |found| ==> found[j] < found[k]
    ensures
      var i := found[|found| - 1];
      var c, c' := s.commissions[i], UnlockAll(s, found, source, owners, today).commissions[i];
      && c' == c.(status := AVAILABLE, payout := c'.payout)
      && (Payee(s, c).Some? ==>
            c'.payout == if Payee(s, c).value in owners then ToLedger(owners[Payee(s, c).value])
                         else ToWallet(Payee(s, c).value))
  {
    var before, i := found[..|found| - 1], found[|found| - 1];
    UnlockKeepsTables(s, before, source, owners, today);
    UnlockTouches(s, before, source, owners, today, i);
  }

  lemma {:induction false} UnlockKeepsTables(s: Escrow, found: seq<nat>, source: Id, owners: map<Id, Id>, today: Today)
    requires Places(s.commissions, found)
    ensures
      var s' := UnlockAll(s, found, source, owners, today);
      s'.links == s.links && s'.users.Keys == s.users.Keys
  {
    if found != [] {
      UnlockKeepsTables(s, found[..|found| - 1], source, owners, today);
    }
  }

  /** Unlocking a source credits each of its pending commissions to one place, by whether the sponsor has an owner
      profile, and leaves every other commission alone. */
  lemma UnlockCreditsEach(s: Escrow, source: Id, owners: map<Id, Id>, today: Today, i: nat)
    requires CommissionsOk(s) && i < |s.commissions|
    ensures
      var c, payee := s.commissions[i], Payee(s, s.commissions[i]);
      Unlock(s, source, owners, today).commissions[i]
        == if !PendingFor(c, source) then c
           else
             c.(status := AVAILABLE,
                payout := if payee.value in owners then ToLedger(owners[payee.value]) else ToWallet(payee.value))
  {
    var c := s.commissions[i];
    assert CommissionOk(s, c);
    PendingPlaces(s.commissions, source);
    var found := Pending(s.commissions, source);
    if PendingFor(c, source) {
      UnlockHits(s, found, source, owners, today, i);
    } else {
      UnlockTouches(s, found, source, owners, today, i);
    }
  }

  lemma {:induction false} NothingPending(commissions: seq<Commission>, source: Id)
    ensures Pending(commissions, source) == [] <==>
      forall i :: 0 <= i < |commissions| ==> !PendingFor(commissions[i], source)
  {
    PendingPlaces(commissions, source);
    if i :| 0 <= i < |commissions| && PendingFor(commissions[i], source) {
      assert i in Pending(commissions, source);
    }
    if Pending(commissions, source) != [] {
      assert Pending(commissions, source)[0] in Pending(commissions, source);
    }
  }

  /** After a source is unlocked or cancelled, unlocking or cancelling it again changes nothing. */
  lemma RepeatsChangeNothing(s: Escrow, source: Id, owners: map<Id, Id>, today: Today, again: map<Id, Id>, later: Today)
    requires CommissionsOk(s)
    ensures
      forall s' :: s' == Unlock(s, source, owners, today) || s' == Cancel(s, source) ==>
        Unlock(s', source, again, later) == s' && Cancel(s', source) == s'
  {
    forall s' | s' == Unlock(s, source, owners, today) || s' == Cancel(s, source)
      ensures Unlock(s', source, again, later) == s' && Cancel(s', source) == s'
    {
      forall i | 0 <= i < |s'.commissions|
        ensures !PendingFor(s'.commissions[i], source)
      {
        if s' == Unlock(s, source, owners, today) {
          UnlockCreditsEach(s, source, owners, today, i);
        }
      }
      NothingPending(s'.commissions, source);
      assert Cancel(s', source).commissions == s'.commissions;
    }
  }

  /** A commission leaves PENDING once: afterwards no step of any kind changes it. */
  lemma SettledCommissionsStay(s: Escrow, e: Event, i: nat)
    requires Sound(s) && i < |s.commissions| && s.commissions[i].status != CommissionStatus.PENDING
    ensures i < |Step(s, e).commissions| && Step(s, e).commissions[i] == s.commissions[i]
  {
    if e.Release? {
      UnlockCreditsEach(s, e.source, e.owners, e.today, i);
    }
  }

  // ---- what a sale pays out ----------------------------------------------------------------------------------------

  function Amount(): Commission -> int {
    (c: Commission) => c.amount
  }

  function Positive(x: int): int {
    if x > 0 then x else 0
  }

  lemma RecordAdds(s: Escrow, sale: Sale, link: Id, level: nat, net: int, rate: real)
    ensures Sum(Record(s, sale, link, level, net, rate).commissions, Amount())
         == Sum(s.commissions, Amount()) + Positive(Finance.Commission(net, rate))
  {
    var s' := Record(s, sale, link, level, net, rate);
    if s' != s {
      SumAppend(s.commissions, s'.commissions[|s.commissions|], Amount());
    }
  }

  function Owed(s: Escrow): int {
    Sum(s.commissions, Amount())
  }

  /** A level without a sponsor to follow counts as a rate of zero. */
  function RateOf(s: Escrow, link: Option<Id>, level: nat): real {
    if Follows(s, link) then LinkRate(s, link, level) else 0.0
  }

  predicate Standard(s: Escrow, link: Option<Id>, level: nat) {
    Follows(s, link) ==>
      var u := s.users[s.links[link.value].sponsor];
      if level == 1 then u.n1Rate.None? else u.n2Rate.None?
  }

  /** What the level pays, for a first level that is followed. */
  lemma LevelsAdd(s: Escrow, sale: Sale, n1: Option<Id>, n2: Option<Id>)
    requires Finance.ComputeNetRevenue(sale.principal).net > 0 && Follows(s, n1)
    ensures
      var net := Finance.ComputeNetRevenue(sale.principal).net;
      Owed(Distribute(s, sale, n1, n2)) - Owed(s)
        == Positive(Finance.Commission(net, RateOf(s, n1, 1))) + Positive(Finance.Commission(net, RateOf(s, n2, 2)))
  {
    var net := Finance.ComputeNetRevenue(sale.principal).net;
    RecordAdds(s, sale, n1.value, 1, net, LinkRate(s, n1, 1));
    if Follows(s, n2) {
      RecordAdds(Record(s, sale, n1.value, 1, net, LinkRate(s, n1, 1)), sale, n2.value, 2, net, LinkRate(s, n2, 2));
    } else {
      assert Finance.Commission(net, 0.0) == 0;
    }
  }

  lemma StandardLevels(s: Escrow, net: nat, n1: Option<Id>, n2: Option<Id>)
    requires Follows(s, n1) && Standard(s, n1, 1) && Standard(s, n2, 2)
    ensures Positive(Finance.Commission(net, RateOf(s, n1, 1)))
          + Positive(Finance.Commission(net, RateOf(s, n2, 2))) <= net
  {
    var l1 := s.links[n1.value];
    if Follows(s, n2) {
      var l2 := s.links[n2.value];
      Finance.StandardCommissionsCovered(net, s.users[l1.sponsor].ambassador, l1.role,
                                         s.users[l2.sponsor].ambassador, l2.role);
    } else {
      Finance.StandardCommissionsCovered(net, s.users[l1.sponsor].ambassador, l1.role, false, "");
      assert Finance.Commission(net, 0.0) == 0;
    }
  }

  /** The shares exceed the net revenue by a franc or more. */
  predicate Overpaying(net: int, r1: real, r2: real) {
    Finance.Share(net, r1) + Finance.Share(net, r2) >= net as real + 1.0
  }

  /** Any sale, of a buyer with two levels of sponsors, one or none: it owes nothing without net revenue, at standard
      rates never more than the net revenue, and at most one franc more at any rates that sum to at most 100%. */
  lemma SalePaysOut(s: Escrow, sale: Sale, n1: Option<Id>, n2: Option<Id>)
    ensures
      var net := Finance.ComputeNetRevenue(sale.principal).net;
      var r1, r2 := RateOf(s, n1, 1), RateOf(s, n2, 2);
      var paid := Owed(Distribute(s, sale, n1, n2)) - Owed(s);
      && paid >= 0
      && (net <= 0 || !Follows(s, n1) ==> paid == 0)
      && (net > 0 && Standard(s, n1, 1) && Standard(s, n2, 2) ==> paid <= net)
      && (net > 0 && 0.0 <= r1 && 0.0 <= r2 && r1 + r2 <= 1.0 ==> paid <= net + 1)
      && (net > 0 && 0.0 <= r1 <= 1.0 && 0.0 <= r2 <= 1.0 ==> paid <= 2 * net)
      && (net > 0 && 0.0 <= r1 && 0.0 <= r2 && Follows(s, n1) && Overpaying(net, r1, r2) ==> paid > net)
  {
    var net := Finance.ComputeNetRevenue(sale.principal).net;
    var r1, r2 := RateOf(s, n1, 1), RateOf(s, n2, 2);
    if net > 0 && Follows(s, n1) {
      LevelsAdd(s, sale, n1, n2);
      if Standard(s, n1, 1) && Standard(s, n2, 2) {
        StandardLevels(s, net, n1, n2);
      }
      if 0.0 <= r1 && 0.0 <= r2 && r1 + r2 <= 1.0 {
        Finance.CustomCommissionsBound(net, r1, r2);
      }
      if 0.0 <= r1 && 0.0 <= r2 {
        Finance.CommissionNotNegative(net, r1);
        Finance.CommissionNotNegative(net, r2);
        Finance.CommissionsAtAnyRates(net, r1, r2);
      }
    }
  }
}
