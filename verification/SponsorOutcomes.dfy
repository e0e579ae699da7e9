/** What a sale, a cancellation and the withdrawals leave in the sponsors' tables, row by row. */
module SponsorOutcomes {
  import opened Wrappers
  import opened Ledger
  import opened SponsorshipModel
  import Finance
  import MoneyOutcomes

  /** A link whose sponsor is there. */
  predicate Sponsored(s: Escrow, link: Option<Id>) {
    link.Some? && link.value in s.links && s.links[link.value].sponsor in s.users
  }

  /** The sponsor's own rate for the first or the second level, or else 5% and 2%; 7% and 2% for an ambassador and a
      client, 10% and 3% for an ambassador and a professional. */
  function Rate(s: Escrow, link: Id, level: nat): real
    requires Sponsored(s, Some(link))
  {
    var l := s.links[link];
    var u := s.users[l.sponsor];
    var own := if level == 1 then u.n1Rate else u.n2Rate;
    if own.Some? then own.value / 100.0
    else if !u.ambassador then if level == 1 then 0.05 else 0.02
    else if l.role == "client" then if level == 1 then 0.07 else 0.02
    else if level == 1 then 0.10 else 0.03
  }

  /** The row of one level: the rounded share of the net revenue, pending under the sale's ids, if it is positive. */
  function Row(sale: Sale, link: Id, level: nat, net: int, rate: real): seq<Commission> {
    var amount := Finance.Round(net as real * rate);
    if amount <= 0 then []
    else
      [Commission(link, sale.source, sale.booking, sale.order, amount, level, net, CommissionStatus.PENDING, Nowhere)]
  }

  function LevelRow(s: Escrow, sale: Sale, link: Option<Id>, level: nat, net: int): seq<Commission> {
    if !Sponsored(s, link) then [] else Row(sale, link.value, level, net, Rate(s, link.value, level))
  }

  /** 5% less 1.5% and 1%, each rounded with halves up. */
  function Net(principal: int): int {
    (2 * principal + 20) / 40 - (6 * principal + 200) / 400 - (2 * principal + 100) / 200
  }

  /** A sale with a positive net revenue records the first level's commission under the buyer's link and the second
      one's under the link of the sponsor's own sponsor; without a first level there is no second. */
  lemma DistributeOutcome(s: Escrow, sale: Sale, n1: Option<Id>, n2: Option<Id>)
    ensures
      var s' := Distribute(s, sale, n1, n2);
      var net := Net(sale.principal);
      if net <= 0 || !Sponsored(s, n1) then s' == s
      else
        s' == s.(commissions := s.commissions + LevelRow(s, sale, n1, 1, net) + LevelRow(s, sale, n2, 2, net))
  {
    var net := Net(sale.principal);
    Finance.NetIsRatios(sale.principal);
    if net > 0 && Sponsored(s, n1) {
      RecordsLevel(s, sale, n1, 1, net);
      SecondLevel(s, Record(s, sale, n1.value, 1, net, LinkRate(s, n1, 1)), sale, n2, net);
    }
  }

  lemma RateIsLinks(s: Escrow, link: Option<Id>, level: nat)
    requires Sponsored(s, link) && level in {1, 2}
    ensures LinkRate(s, link, level) == Rate(s, link.value, level)
  {
  }

  lemma RecordsLevel(s: Escrow, sale: Sale, link: Option<Id>, level: nat, net: int)
    requires Sponsored(s, link) && level in {1, 2}
    ensures Record(s, sale, link.value, level, net, LinkRate(s, link, level))
         == s.(commissions := s.commissions + LevelRow(s, sale, link, level, net))
  {
    RateIsLinks(s, link, level);
    RecordsRow(s, sale, link.value, level, net, Rate(s, link.value, level));
  }

  lemma RecordsRow(s: Escrow, sale: Sale, link: Id, level: nat, net: int, rate: real)
    ensures
      Record(s, sale, link, level, net, rate)
        == s.(commissions := s.commissions + Row(sale, link, level, net, rate))
  {
    assert s.commissions + [] == s.commissions;
  }

  /** The second level is that of the tables before the first one's row, which it does not read. */
  lemma SecondLevel(s: Escrow, s1: Escrow, sale: Sale, n2: Option<Id>, net: int)
    requires s1 == s.(commissions := s1.commissions)
    ensures LevelRow(s1, sale, n2, 2, net) == LevelRow(s, sale, n2, 2, net)
    ensures (if Sponsored(s1, n2) then Record(s1, sale, n2.value, 2, net, LinkRate(s1, n2, 2)) else s1)
         == s1.(commissions := s1.commissions + LevelRow(s, sale, n2, 2, net))
  {
    if Sponsored(s1, n2) {
      assert Rate(s1, n2.value, 2) == Rate(s, n2.value, 2);
      assert LevelRow(s1, sale, n2, 2, net) == LevelRow(s, sale, n2, 2, net);
      RecordsLevel(s1, sale, n2, 2, net);
    } else {
      assert s1.commissions + [] == s1.commissions;
    }
  }

  /** A lookup finds a link of the referee that has yet to expire, and none exactly when there is none. */
  lemma LookupOutcome(links: map<Id, Link>, referee: Id, now: int, found: Option<Id>)
    requires LinkAnswer(links, referee, now, found)
    ensures found.Some? ==>
      found.value in links && links[found.value].referee == referee && now < links[found.value].expiresAt
    ensures found.None? ==> forall l :: l in links && links[l].referee == referee ==> links[l].expiresAt <= now
  {
    if found.None? {
      forall l | l in links && links[l].referee == referee
        ensures links[l].expiresAt <= now
      {
        assert !Sponsors(links[l], referee, now);
      }
    }
  }

  /** Unlocking a commission makes it AVAILABLE and credits its amount once: to the ledger of a sponsor with an owner
      profile, as a booking credit, and to the wallet of any other. */
  lemma UnlockOutcome(s: Escrow, i: nat, source: Id, owners: map<Id, Id>, today: Today)
    requires i < |s.commissions| && Sponsored(s, Some(s.commissions[i].link))
    ensures
      var s' := UnlockOne(s, i, source, owners, today);
      var c, u := s.commissions[i], s.links[s.commissions[i].link].sponsor;
      && |s'.commissions| == |s.commissions| && s'.links == s.links && s'.withdrawals == s.withdrawals
      && s'.commissions
        == s.commissions[
             i := c.(status := AVAILABLE, payout := if u in owners then ToLedger(owners[u]) else ToWallet(u))]
      && (if u in owners then
            && s'.users == s.users
            && MoneyOutcomes.OneMore(s.rows, s'.rows, owners[u], BOOKING_CREDIT, CREDIT, c.amount,
                                     FromCommission(source, i))
          else s'.rows == s.rows && s'.users == s.users[u := s.users[u].(wallet := s.users[u].wallet + c.amount)])
  {
    var c, u := s.commissions[i], s.links[s.commissions[i].link].sponsor;
    if u in owners {
      MoneyOutcomes.EnterAdds(s.rows, today, owners[u], BOOKING_CREDIT, CREDIT, c.amount, FromCommission(source, i));
    }
  }

  /** Pending commissions that carry the id in any column are CANCELLED; all others stay. */
  lemma CancelOutcome(s: Escrow, source: Id)
    ensures
      var s' := Cancel(s, source);
      && s' == s.(commissions := s'.commissions) && |s'.commissions| == |s.commissions|
      && forall i :: 0 <= i < |s.commissions| ==>
        var c := s.commissions[i];
        s'.commissions[i]
          == if c.status == CommissionStatus.PENDING && Some(source) in {c.booking, c.order, Some(c.source)} then
               c.(status := CANCELLED)
             else c
  {
  }

  /** A withdrawal is refused to an unknown or suspended sponsor, for no amount, without the code, and beyond the
      wallet; else the wallet is debited and a pending request recorded. */
  lemma RequestOutcome(s: Escrow, u: Id, amount: int, otp: bool)
    ensures
      var (s', reply) := Request(s, u, amount, otp);
      if u !in s.users then (s', reply) == (s, Refused(USER_NOT_FOUND))
      else if s.users[u].suspended then (s', reply) == (s, Refused(SUSPENDED))
      else if amount <= 0 then (s', reply) == (s, Refused(NOT_POSITIVE))
      else if !otp then (s', reply) == (s, Refused(BAD_OTP))
      else if amount > s.users[u].wallet then (s', reply) == (s, Refused(INSUFFICIENT_FUNDS))
      else
        && reply == Done(amount) && WalletOf(s', u) == WalletOf(s, u) - amount
        && s' == s.(users := s.users[u := s.users[u].(wallet := s.users[u].wallet - amount)],
                    withdrawals := s.withdrawals + [Withdrawal(u, amount, WithdrawalStatus.PENDING)])
  {
  }

  /** Of a pending request, approval only marks it PROCESSED; a rejection marks it REJECTED and gives the amount back.
      Any other request is refused, and every other one stays. */
  lemma JudgeOutcome(s: Escrow, n: nat, approve: bool, u: Id)
    ensures
      var (s', reply) := Judge(s, n, approve);
      if n >= |s.withdrawals| then (s', reply) == (s, Refused(WITHDRAWAL_NOT_FOUND))
      else if s.withdrawals[n].status != WithdrawalStatus.PENDING then (s', reply) == (s, Refused(ALREADY_PROCESSED))
      else
        var w := s.withdrawals[n];
        && s' == s.(users := s'.users, withdrawals := s'.withdrawals)
        && s'.withdrawals == s.withdrawals[n := w.(status := if approve then PROCESSED else REJECTED)]
        && s'.users.Keys == s.users.Keys
        && (u in s.users ==>
              s'.users[u]
                == if approve || u != w.user then s.users[u]
                   else s.users[u].(wallet := s.users[u].wallet + w.amount))
  {
  }
}
