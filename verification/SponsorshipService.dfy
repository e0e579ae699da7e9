/** The sponsorship handlers as they run: one object holding the tables, updated row by row. */
module SponsorshipService {
  import opened Wrappers
  import opened Ledger
  import opened SponsorshipModel
  import opened SponsorWallets
  import Finance

  /** The (k + 1)-th turn of the unlock loop. */
  lemma UnlockTurn(s: Escrow, found: seq<nat>, k: nat, source: Id, owners: map<Id, Id>, today: Today)
    requires Sound(s) && Places(s.commissions, found) && k < |found| && found[k] !in found[..k]
    ensures
      var now := UnlockAll(s, found[..k], source, owners, today);
      && Payee(now, now.commissions[found[k]]).Some?
      && UnlockAll(s, found[..k + 1], source, owners, today) == UnlockOne(now, found[k], source, owners, today)
  {
    assert found[..k + 1][..k] == found[..k];
    UnlockTouches(s, found[..k], source, owners, today, found[k]);
    UnlockKeepsTables(s, found[..k], source, owners, today);
    assert CommissionOk(s, s.commissions[found[k]]);
  }

  class Sponsorships {
    var users: map<Id, User>
    var links: map<Id, Link>
    var commissions: seq<Commission>
    var withdrawals: seq<Withdrawal>
    var rows: seq<Row>

    ghost function Tables(): Escrow
      reads this
    {
      Escrow(users, links, commissions, withdrawals, rows)
    }

    /** Wallets and ledger hold what was credited to them, and no wallet is overdrawn. */
    ghost predicate Valid()
      reads this
    {
      Sound(Tables())
    }

    constructor ()
      ensures Valid() && Tables() == EMPTY
    {
      users, links, commissions, withdrawals, rows := map[], map[], [], [], [];
      new;
      RunKeeps([]);
    }

    /** Some unexpired link of the referee, or none. */
    method FindLink(referee: Id, now: int) returns (found: Option<Id>)
      ensures LinkAnswer(links, referee, now, found)
    {
      if l :| l in links && Sponsors(links[l], referee, now) {
        found := Some(l);
      } else {
        found := None;
      }
    }

    method RecordPendingCommission(sale: Sale, link: Id, level: nat, net: int, rate: real)
      modifies this`commissions
      ensures Tables() == Record(old(Tables()), sale, link, level, net, rate)
    {
      var amount := Finance.Commission(net, rate);
      if amount > 0 {
        commissions := commissions + [Commission(link, sale.source, sale.booking, sale.order, amount, level, net,
                                                 CommissionStatus.PENDING, Nowhere)];
      }
    }

    method DistributeCommissions(buyer: Id, sale: Sale, now: int) returns (ghost n1: Option<Id>, ghost n2: Option<Id>)
      requires Valid()
      modifies this`commissions
      ensures Valid()
      ensures LinkAnswer(links, buyer, now, n1)
      ensures Follows(old(Tables()), n1) && Finance.ComputeNetRevenue(sale.principal).net > 0 ==>
        LinkAnswer(links, links[n1.value].sponsor, now, n2)
      ensures Tables() == Distribute(old(Tables()), sale, n1, n2)
    {
      ghost var before := Tables();
      var first := FindLink(buyer, now);
      n1, n2 := first, None;
      if first.None? {
        return;
      }
      var net := Finance.ComputeNetRevenue(sale.principal).net;
      if net <= 0 {
        return;
      }
      var sponsor := links[first.value].sponsor;
      if sponsor !in users {
        return;
      }
      RecordPendingCommission(sale, first.value, 1, net, N1Rate(users[sponsor], links[first.value].role));
      var second := FindLink(sponsor, now);
      n2 := second;
      if second.Some? && links[second.value].sponsor in users {
        var link := links[second.value];
        RecordPendingCommission(sale, second.value, 2, net, N2Rate(users[link.sponsor], link.role));
      }
      DistributeKeeps(before, sale, n1, n2);
    }

    method FindPending(source: Id) returns (found: seq<nat>)
      ensures found == Pending(commissions, source)
    {
      found := [];
      for i := 0 to |commissions|
        invariant found == Pending(commissions[..i], source)
      {
        assert commissions[..i + 1][..i] == commissions[..i];
        if PendingFor(commissions[i], source) {
          found := found + [i];
        }
      }
      assert commissions[..|commissions|] == commissions;
    }

    method UnlockCommissions(source: Id, owners: map<Id, Id>, today: Today) returns (unlocked: nat)
      requires Valid()
      modifies this
      ensures Valid()
      ensures Tables() == Unlock(old(Tables()), source, owners, today)
      ensures unlocked == |Pending(old(commissions), source)|
    {
      ghost var before := Tables();
      PendingPlaces(commissions, source);
      var found := FindPending(source);
      unlocked := 0;
      for k := 0 to |found|
        invariant Tables() == UnlockAll(before, found[..k], source, owners, today)
        invariant unlocked == k
      {
        UnlockTurn(before, found, k, source, owners, today);
        var credited := UnlockCommission(found[k], source, owners, today);
        unlocked := unlocked + if credited then 1 else 0;
      }
      assert found[..|found|] == found;
      StepKeeps(before, Release(source, owners, today));
    }

    /** One turn of the unlock loop; says whether the sponsor was there to be credited. */
    method UnlockCommission(i: nat, source: Id, owners: map<Id, Id>, today: Today) returns (credited: bool)
      requires i < |commissions|
      modifies this`users, this`commissions, this`rows
      ensures Tables() == UnlockOne(old(Tables()), i, source, owners, today)
      ensures credited == Payee(old(Tables()), old(commissions)[i]).Some?
    {
      var commission := commissions[i].(status := AVAILABLE);
      commissions := commissions[i := commission];
      if commission.link !in links || links[commission.link].sponsor !in users {
        return false;
      }
      var sponsor := links[commission.link].sponsor;
      if sponsor in owners {
        var owner := owners[sponsor];
        var balanceBefore := Balance(rows, owner);
        rows := Post(rows, today, Posting(owner, BOOKING_CREDIT, CREDIT, commission.amount, balanceBefore,
                                          FromCommission(source, i)));
        commissions := commissions[i := commission.(payout := ToLedger(owner))];
      } else {
        var user := users[sponsor];
        users := users[sponsor := user.(wallet := user.wallet + commission.amount)];
        commissions := commissions[i := commission.(payout := ToWallet(sponsor))];
      }
      return true;
    }

    method CancelCommissions(source: Id) returns (cancelled: nat)
      requires Valid()
      modifies this`commissions
      ensures Valid()
      ensures Tables() == Cancel(old(Tables()), source)
      ensures cancelled == |Pending(old(commissions), source)|
    {
      ghost var before := Tables();
      PendingPlaces(commissions, source);
      var found := FindPending(source);
      for k := 0 to |found|
        invariant |commissions| == |before.commissions|
        invariant forall i :: 0 <= i < |commissions| ==>
          var was := before.commissions[i];
          commissions[i] == if i in found[..k] then was.(status := CANCELLED) else was
      {
        assert found[..k + 1] == found[..k] + [found[k]];
        commissions := commissions[found[k] := commissions[found[k]].(status := CANCELLED)];
      }
      assert found[..|found|] == found;
      assert commissions == Cancel(before, source).commissions;
      CancelKeeps(before, source);
      return |found|;
    }

    /** UPDATE ... SET wallet_balance = wallet_balance - :amount WHERE id = :id AND wallet_balance >= :amount */
    method DebitIfCovered(u: Id, amount: int) returns (affected: nat)
      modifies this`users
      ensures affected == if u in old(users) && old(users)[u].wallet >= amount then 1 else 0
      ensures users == if affected == 0 then old(users)
                       else old(users)[u := old(users)[u].(wallet := old(users)[u].wallet - amount)]
    {
      affected := 0;
      if u in users && users[u].wallet >= amount {
        users := users[u := users[u].(wallet := users[u].wallet - amount)];
        affected := 1;
      }
    }

    method RequestWithdrawal(u: Id, amount: int, otp: bool) returns (reply: Reply)
      requires Valid()
      modifies this`users, this`withdrawals
      ensures Valid()
      ensures (Tables(), reply) == Request(old(Tables()), u, amount, otp)
    {
      WithdrawKeeps(Tables(), u, amount, otp);
      if u !in users {
        return Refused(USER_NOT_FOUND);
      }
      if users[u].suspended {
        return Refused(SUSPENDED);
      }
      if amount <= 0 {
        return Refused(NOT_POSITIVE);
      }
      if !otp {
        return Refused(BAD_OTP);
      }
      var affected := DebitIfCovered(u, amount);
      if affected == 0 {
        return Refused(INSUFFICIENT_FUNDS);
      }
      withdrawals := withdrawals + [Withdrawal(u, amount, WithdrawalStatus.PENDING)];
      return Done(amount);
    }

    method ValidateWithdrawal(n: nat, approve: bool) returns (reply: Reply)
      requires Valid()
      modifies this`users, this`withdrawals
      ensures Valid()
      ensures (Tables(), reply) == Judge(old(Tables()), n, approve)
    {
      JudgeKeeps(Tables(), n, approve);
      if n >= |withdrawals| {
        return Refused(WITHDRAWAL_NOT_FOUND);
      }
      var withdrawal := withdrawals[n];
      if withdrawal.status != WithdrawalStatus.PENDING {
        return Refused(ALREADY_PROCESSED);
      }
      if approve {
        withdrawals := withdrawals[n := withdrawal.(status := PROCESSED)];
      } else {
        withdrawals := withdrawals[n := withdrawal.(status := REJECTED)];
        if withdrawal.user in users {
          var user := users[withdrawal.user];
          users := users[withdrawal.user := user.(wallet := user.wallet + withdrawal.amount)];
        }
      }
      return Done(withdrawal.amount);
    }
  }
}
