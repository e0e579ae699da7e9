/** Sponsorship commissions, held in escrow until the sponsored sale is over, and the wallets they are paid into. */
module SponsorshipModel {
  import opened Wrappers
  import opened Ledger
  import Finance

  datatype CommissionStatus = PENDING | AVAILABLE | CANCELLED
  datatype WithdrawalStatus = PENDING | PROCESSED | REJECTED

  /** Custom rates are percentages. */
  datatype User = User(ambassador: bool, n1Rate: Option<real>, n2Rate: Option<real>, suspended: bool, wallet: int)

  datatype Link = Link(sponsor: Id, referee: Id, role: string, expiresAt: int)

  datatype Payout = Nowhere | ToWallet(user: Id) | ToLedger(owner: Id)

  /** `payout` is history, not a column: where the amount was credited. */
  datatype Commission = Commission(link: Id, source: Id, booking: Option<Id>, order: Option<Id>, amount: int,
                                   level: nat, base: int, status: CommissionStatus, payout: Payout)

  datatype Withdrawal = Withdrawal(user: Id, amount: int, status: WithdrawalStatus)

  /** The tables; commissions and withdrawals are known by their place. */
  datatype Escrow = Escrow(users: map<Id, User>, links: map<Id, Link>, commissions: seq<Commission>,
                           withdrawals: seq<Withdrawal>, rows: seq<Row>)

  const EMPTY := Escrow(map[], map[], [], [], [])

  datatype Error =
    | USER_NOT_FOUND | SUSPENDED | NOT_POSITIVE | BAD_OTP | INSUFFICIENT_FUNDS | WITHDRAWAL_NOT_FOUND
    | ALREADY_PROCESSED

  datatype Reply = Done(amount: int) | Refused(error: Error)

  // ---- distributeCommissions ---------------------------------------------------------------------------------------

  /** findOne answers any link of the referee that has not expired, and none exactly when there is none. */
  ghost predicate LinkAnswer(links: map<Id, Link>, referee: Id, now: int, found: Option<Id>) {
    match found
    case Some(l) => l in links && Sponsors(links[l], referee, now)
    case None => forall l :: l in links ==> !Sponsors(links[l], referee, now)
  }

  predicate Sponsors(l: Link, referee: Id, now: int) {
    l.referee == referee && l.expiresAt > now
  }

  function N1Rate(u: User, role: string): real {
    if u.n1Rate.Some? then u.n1Rate.value / 100.0 else Finance.GetSponsorshipGrid(u.ambassador, role).n1Percent
  }

  function N2Rate(u: User, role: string): real {
    if u.n2Rate.Some? then u.n2Rate.value / 100.0 else Finance.GetSponsorshipGrid(u.ambassador, role).n2Percent
  }

  datatype Sale = Sale(principal: int, source: Id, booking: Option<Id>, order: Option<Id>)

  /** The commission of one level, recorded if it is positive. */
  function Record(s: Escrow, sale: Sale, link: Id, level: nat, net: int, rate: real): Escrow {
    var amount := Finance.Commission(net, rate);
    if amount <= 0 then s
    else
      s.(commissions := s.commissions + [Commission(link, sale.source, sale.booking, sale.order, amount, level, net,
                                                     CommissionStatus.PENDING, Nowhere)])
  }

  /** A link is followed only if it and its sponsor are there (foreign keys say they are). */
  predicate Follows(s: Escrow, link: Option<Id>) {
    link.Some? && link.value in s.links && s.links[link.value].sponsor in s.users
  }

  function LinkRate(s: Escrow, link: Option<Id>, level: nat): real
    requires Follows(s, link)
  {
    var l := s.links[link.value];
    if level == 1 then N1Rate(s.users[l.sponsor], l.role) else N2Rate(s.users[l.sponsor], l.role)
  }

  /** `distributeCommissions`; `n1` and `n2` are the links its two lookups answer. */
  function Distribute(s: Escrow, sale: Sale, n1: Option<Id>, n2: Option<Id>): Escrow {
    var net := Finance.ComputeNetRevenue(sale.principal).net;
    if !Follows(s, n1) || net <= 0 then s
    else
      var s1 := Record(s, sale, n1.value, 1, net, LinkRate(s, n1, 1));
      if !Follows(s, n2) then s1
      else Record(s1, sale, n2.value, 2, net, LinkRate(s, n2, 2))
  }

  // ---- unlockCommissions and cancelCommissions ---------------------------------------------------------------------

  predicate PendingFor(c: Commission, source: Id) {
    c.status == CommissionStatus.PENDING && (c.booking == Some(source) || c.order == Some(source) || c.source == source)
  }

  /** The pending commissions of a source, in table order. */
  function Pending(commissions: seq<Commission>, source: Id): seq<nat> {
    if commissions == [] then []
    else
      var last := |commissions| - 1;
      var before := Pending(commissions[..last], source);
      if PendingFor(commissions[last], source) then before + [last] else before
  }

  /** The user a commission is paid to, if still there. */
  function Payee(s: Escrow, c: Commission): Option<Id> {
    if c.link in s.links && s.links[c.link].sponsor in s.users then Some(s.links[c.link].sponsor) else None
  }

  /** Unlock the i-th commission; `owners` gives the owner profile of a user who has one. */
  function UnlockOne(s: Escrow, i: nat, source: Id, owners: map<Id, Id>, today: Today): Escrow
    requires i < |s.commissions|
  {
    var c := s.commissions[i].(status := AVAILABLE);
    var payee := Payee(s, c);
    if payee.None? then s.(commissions := s.commissions[i := c])
    else if payee.value in owners then
      var owner := owners[payee.value];
      s.(commissions := s.commissions[i := c.(payout := ToLedger(owner))],
         rows := Enter(s.rows, today, owner, BOOKING_CREDIT, CREDIT, c.amount, FromCommission(source, i)))
    else
      var u := s.users[payee.value];
      s.(commissions := s.commissions[i := c.(payout := ToWallet(payee.value))],
         users := s.users[payee.value := u.(wallet := u.wallet + c.amount)])
  }

  ghost predicate Places(commissions: seq<Commission>, found: seq<nat>) {
    forall k :: 0 <= k < |found| ==> found[k] < |commissions|
  }

  /** `unlockCommissions` over the rows its query found. */
  ghost function UnlockAll(s: Escrow, found: seq<nat>, source: Id, owners: map<Id, Id>, today: Today): (r: Escrow)
    requires Places(s.commissions, found)
    ensures |r.commissions| == |s.commissions|
  {
    if found == [] then s
    else
      UnlockOne(UnlockAll(s, found[..|found| - 1], source, owners, today), found[|found| - 1], source, owners, today)
  }

  lemma {:induction false} PendingPlaces(commissions: seq<Commission>, source: Id)
    ensures Places(commissions, Pending(commissions, source))
    ensures forall i :: i in Pending(commissions, source) <==>
      0 <= i < |commissions| && PendingFor(commissions[i], source)
    ensures forall j, k :: 0 <= j < k < |Pending(commissions, source)| ==>
      Pending(commissions, source)[j] < Pending(commissions, source)[k]
  {
    if commissions != [] {
      PendingPlaces(commissions[..|commissions| - 1], source);
    }
  }

  ghost function Unlock(s: Escrow, source: Id, owners: map<Id, Id>, today: Today): Escrow {
    PendingPlaces(s.commissions, source);
    UnlockAll(s, Pending(s.commissions, source), source, owners, today)
  }

  /** `cancelCommissions` */
  function Cancel(s: Escrow, source: Id): Escrow {
    s.(commissions := seq(|s.commissions|, i requires 0 <= i < |s.commissions| =>
         if PendingFor(s.commissions[i], source) then s.commissions[i].(status := CANCELLED) else s.commissions[i]))
  }

  // ---- withdrawals -------------------------------------------------------------------------------------------------

  /** `requestWithdrawal` */
  function Request(s: Escrow, u: Id, amount: int, otp: bool): (Escrow, Reply) {
    if u !in s.users then (s, Refused(USER_NOT_FOUND))
    else if s.users[u].suspended then (s, Refused(SUSPENDED))
    else if amount <= 0 then (s, Refused(NOT_POSITIVE))
    else if !otp then (s, Refused(BAD_OTP))
    else if s.users[u].wallet < amount then (s, Refused(INSUFFICIENT_FUNDS))
    else
      var wallet := s.users[u].wallet - amount;
      (s.(users := s.users[u := s.users[u].(wallet := wallet)],
          withdrawals := s.withdrawals + [Withdrawal(u, amount, WithdrawalStatus.PENDING)]), Done(amount))
  }

  /** `validateWithdrawal` */
  function Judge(s: Escrow, n: nat, approve: bool): (Escrow, Reply) {
    if n >= |s.withdrawals| then (s, Refused(WITHDRAWAL_NOT_FOUND))
    else if s.withdrawals[n].status != WithdrawalStatus.PENDING then (s, Refused(ALREADY_PROCESSED))
    else
      var w := s.withdrawals[n];
      if approve then (s.(withdrawals := s.withdrawals[n := w.(status := PROCESSED)]), Done(w.amount))
      else
        var users := if w.user in s.users
                     then s.users[w.user := s.users[w.user].(wallet := s.users[w.user].wallet + w.amount)] else s.users;
        (s.(users := users, withdrawals := s.withdrawals[n := w.(status := REJECTED)]),
         Done(w.amount))
  }

  function WalletOf(s: Escrow, u: Id): int {
    if u in s.users then s.users[u].wallet else 0
  }

  // ---- runs --------------------------------------------------------------------------------------------------------

  /** `Profile` registers a user or changes their settings, and leaves the wallet. */
  datatype Event =
    | Profile(u: Id, user: User)
    | Join(id: Id, link: Link)
    | Sell(sale: Sale, n1: Option<Id>, n2: Option<Id>)
    | Release(source: Id, owners: map<Id, Id>, today: Today)
    | Revoke(source: Id)
    | Withdraw(u: Id, amount: int, otp: bool)
    | Decide(n: nat, approve: bool)

  ghost function Step(s: Escrow, e: Event): Escrow {
    match e
    case Profile(u, user) => s.(users := s.users[u := user.(wallet := WalletOf(s, u))])
    case Join(id, link) => if id in s.links || link.sponsor !in s.users then s else s.(links := s.links[id := link])
    case Sell(sale, n1, n2) => Distribute(s, sale, n1, n2)
    case Release(source, owners, today) => Unlock(s, source, owners, today)
    case Revoke(source) => Cancel(s, source)
    case Withdraw(u, amount, otp) => Request(s, u, amount, otp).0
    case Decide(n, approve) => Judge(s, n, approve).0
  }

  ghost function Run(es: seq<Event>): Escrow {
    if es == [] then EMPTY else Step(Run(es[..|es| - 1]), es[|es| - 1])
  }
}
