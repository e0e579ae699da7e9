/** What a delivery means: which words are a success, and what a signed delivery leaves of the payment, ticket, order
    group or installment it reaches. */
module WebhookOutcomes {
  import opened Wrappers
  import opened WebhookModel
  import Ledger
  import B = BookingModel
  import P = Subscriptions
  import S = ShopModel
  import E = SponsorshipModel
  import T = TicketScan
  import BookingOutcomes
  import MoneyOutcomes
  import ShopOutcomes
  import SponsorOutcomes
  import Finance

  // ---- the word ----------------------------------------------------------------------------------------------------

  /** The text is the lower-case word, any of its letters written small or large. */
  predicate Spells(text: string, word: string) {
    && |text| == |word|
    && forall i :: 0 <= i < |word| ==> text[i] == word[i] || text[i] as int + 32 == word[i] as int
  }

  predicate SaysPaid(text: string) {
    Spells(text, "success") || Spells(text, "successful") || Spells(text, "paid") || Spells(text, "completed")
  }

  predicate Letters(word: string) {
    forall i :: 0 <= i < |word| ==> 'a' <= word[i] <= 'z'
  }

  lemma LowerSpells(text: string, word: string)
    requires Letters(word)
    ensures Lower(text) == word <==> Spells(text, word)
  {
    if Spells(text, word) {
      forall i | 0 <= i < |word|
        ensures Lower(text)[i] == word[i]
      {
        assert text[i] == word[i] || text[i] as int + 32 == word[i] as int;
      }
    }
    if Lower(text) == word {
      forall i | 0 <= i < |word|
        ensures text[i] == word[i] || text[i] as int + 32 == word[i] as int
      {
        assert LowerChar(text[i]) == word[i];
      }
    }
  }

  /** A payment's or a ticket's status is a success if and only if it spells one of the four words. */
  lemma SuccessSpells(text: string)
    ensures IsSuccess(text) <==> SaysPaid(text)
  {
    LowerSpells(text, "success");
    LowerSpells(text, "successful");
    LowerSpells(text, "paid");
    LowerSpells(text, "completed");
  }

  lemma Examples()
    ensures SaysPaid("success") && SaysPaid("SUCCESS") && SaysPaid("Paid") && SaysPaid("successful")
    ensures SaysPaid("completed") && !SaysPaid("failed") && !SaysPaid("") && !SaysPaid("pending")
  {
    assert Spells("success", "success") && Spells("SUCCESS", "success") && Spells("Paid", "paid");
    assert Spells("successful", "successful") && Spells("completed", "completed");
    assert "pending"[0] == 'p' && "success"[0] == 's';
  }

  // ---- payments ----------------------------------------------------------------------------------------------------

  /** A signed delivery whose key is no order reference and no installment, and whose lookup answers booking b's
      payment. */
  predicate Reaches(w: World, d: Delivery, b: Id) {
    && d.signed && !OrderKey(d.payload.orderId) && d.payload.orderId !in w.plans.installments && d.found == Some(b)
    && b in w.arena.payments && b in w.arena.bookings
  }

  predicate OrderKey(key: string) {
    |key| >= 3 && key[0] == 'E' && key[1] == 'A' && key[2] == '-'
  }

  lemma KeyIsReference(key: string)
    ensures IsOrderReference(key) <==> OrderKey(key)
  {
    if OrderKey(key) {
      assert key[..3] == "EA-";
    }
  }

  /** Only the bookings' tables and the commissions have changed, and of these only booking b, its payment and the
      ledger. */
  predicate OnlyBooking(w: World, w': World, b: Id) {
    && b in w'.arena.bookings && b in w'.arena.payments && b in w.arena.bookings && b in w.arena.payments
    && w' == w.(arena := w'.arena, escrow := w'.escrow)
    && w'.arena
      == w.arena.(bookings := w.arena.bookings[b := w'.arena.bookings[b]],
                  payments := w.arena.payments[b := w'.arena.payments[b]],
                  rows := w'.arena.rows, confirmations := w'.arena.confirmations)
  }

  /** A key that is the id, the external reference or the booking's id of one payment and of no other finds that
      payment; one that is none of these of any payment finds none. */
  lemma KeyFinds(w: World, key: string, found: Option<Id>, b: Id)
    requires PaymentAnswer(w, key, found)
    ensures
      var payments := w.arena.payments;
      && (CarriedBy(payments, key) == {b} ==> found == Some(b))
      && (CarriedBy(payments, key) == {} ==> found == None)
  {
    var carried := CarriedBy(w.arena.payments, key);
    forall c
      ensures c in carried <==> c in w.arena.payments && Matches(c, w.arena.payments[c], key)
    {
    }
    assert b in {b};
  }

  /** The bookings of the payments that carry the key. */
  function CarriedBy(payments: map<Id, B.Payment>, key: string): set<Id> {
    set c | c in payments && Carries(payments, c, key)
  }

  predicate Carries(payments: map<Id, B.Payment>, b: Id, key: string)
    requires b in payments
  {
    payments[b].id == key || (payments[b].externalRef.Some? && payments[b].externalRef.value == key) || b == key
  }

  /** The booking ends with this status and the payment with that one; nothing else about them has changed but the
      provider's reference and the place among the confirmed. */
  predicate EndsAs(w: World, w': World, b: Id, booking: B.BookingStatus, payment: B.PaymentStatus, reference: string) {
    && OnlyBooking(w, w', b)
    && var (bk, bk') := (w.arena.bookings[b], w'.arena.bookings[b]);
    var (pay, pay') := (w.arena.payments[b], w'.arena.payments[b]);
    && bk' == bk.(status := booking, confirmed := bk'.confirmed)
    && pay' == pay.(status := payment, externalRef := if reference == "" then pay.externalRef else Some(reference))
  }

  /** The owner's part of an amount that includes the platform's 5%: the fee is a 21st, rounded with halves up. */
  function OwnersPart(amount: int): int {
    amount - (2 * amount + 21) / 42
  }

  /** The owner of the field, if it has one, is credited the owner's part of the payment, once. */
  ghost predicate CreditedOnce(owners: map<Id, Id>, w: World, w': World, b: Id)
    requires b in w.arena.bookings && b in w.arena.payments
  {
    var (field, pay) := (w.arena.bookings[b].field, w.arena.payments[b]);
    if field !in owners then w'.arena.rows == w.arena.rows
    else
      MoneyOutcomes.OneMore(w.arena.rows, w'.arena.rows, owners[field], Ledger.BOOKING_CREDIT, Ledger.CREDIT,
                            OwnersPart(pay.amount), Ledger.FromPayment(pay.id))
  }

  /** A delivery that says paid confirms the booking of an open payment and credits its owner, if no confirmed booking
      is in its way, and cancels it if one is; a delivery that says anything else cancels it. A settled payment
      stays. */
  lemma PaymentOutcome(owners: map<Id, Id>, w: World, d: Delivery, b: Id)
    requires Reaches(w, d, b)
    ensures
      var w', reference := Handle(owners, w, d), d.payload.transactionId;
      if w.arena.payments[b].status != B.PENDING then w' == w
      else if !SaysPaid(d.payload.status) then
        EndsAs(w, w', b, B.CANCELLED, B.FAILED, "") && w'.arena.rows == w.arena.rows && w'.escrow == w.escrow
      else if !BookingOutcomes.NoRival(w.arena.bookings, b) then
        EndsAs(w, w', b, B.CANCELLED, B.FAILED, reference) && w'.arena.rows == w.arena.rows && w'.escrow == w.escrow
      else
        && EndsAs(w, w', b, B.CONFIRMED, B.SUCCESS, reference) && CreditedOnce(owners, w, w', b)
        && w'.arena.bookings[b].confirmed == w'.arena.confirmations == w.arena.confirmations + 1
  {
    SuccessSpells(d.payload.status);
    KeyIsReference(d.payload.orderId);
    BookingOutcomes.RivalIsClash(w.arena, b);
    var (bk, pay) := (w.arena.bookings[b], w.arena.payments[b]);
    Finance.SplitIsRatio(pay.amount);
    if bk.field in owners {
      MoneyOutcomes.EnterAdds(w.arena.rows, d.today, owners[bk.field], Ledger.BOOKING_CREDIT, Ledger.CREDIT,
                              OwnersPart(pay.amount), Ledger.FromPayment(pay.id));
    }
    Settled(owners, w.arena, b, SaysPaid(d.payload.status), d.payload.transactionId, d.today);
  }

  lemma Settled(owners: map<Id, Id>, s: B.State, b: Id, paid: bool, txn: string, today: Ledger.Today)
    requires b in s.bookings && b in s.payments
    ensures
      var s' := B.SettlePayment(owners, s, b, paid, txn, today);
      && b in s'.bookings && b in s'.payments
      && s' == s.(bookings := s.bookings[b := s'.bookings[b]], payments := s.payments[b := s'.payments[b]],
                  rows := s'.rows, confirmations := s'.confirmations)
  {
  }

  /** The commissions of a delivery that confirms a booking are those of a sale of its price under its payment's id. */
  lemma CommissionOutcome(owners: map<Id, Id>, w: World, d: Delivery, b: Id)
    requires Reaches(w, d, b) && w.arena.payments[b].status == B.PENDING && SaysPaid(d.payload.status)
    requires BookingOutcomes.NoRival(w.arena.bookings, b)
    ensures
      var w', sale := Handle(owners, w, d), E.Sale(w.arena.bookings[b].total, w.arena.payments[b].id, None, None);
      var net := SponsorOutcomes.Net(sale.principal);
      w'.escrow
        == if net <= 0 || !SponsorOutcomes.Sponsored(w.escrow, d.n1) then w.escrow
           else
             w.escrow.(commissions :=
                         w.escrow.commissions + SponsorOutcomes.LevelRow(w.escrow, sale, d.n1, 1, net)
                         + SponsorOutcomes.LevelRow(w.escrow, sale, d.n2, 2, net))
  {
    SuccessSpells(d.payload.status);
    KeyIsReference(d.payload.orderId);
    BookingOutcomes.RivalIsClash(w.arena, b);
    var sale := E.Sale(w.arena.bookings[b].total, w.arena.payments[b].id, None, None);
    SponsorOutcomes.DistributeOutcome(w.escrow, sale, d.n1, d.n2);
  }

  /** The links found for a confirmed booking's commissions: its client's user's own, and that of the sponsor's sponsor
      if the first level is paid, neither of them expired; none for a client without a user. */
  lemma BuyerOutcome(escrow: E.Escrow, bk: B.Booking, users: map<Id, Id>, now: int, n1: Option<Id>, n2: Option<Id>)
    requires BuyerAnswer(escrow, bk, users, now, n1, n2)
    ensures bk.client !in users ==> n1 == None
    ensures bk.client in users && n1.Some? ==>
      && n1.value in escrow.links && escrow.links[n1.value].referee == users[bk.client]
      && now < escrow.links[n1.value].expiresAt
    ensures bk.client in users && n1 == None ==>
      forall l :: l in escrow.links && escrow.links[l].referee == users[bk.client] ==> escrow.links[l].expiresAt <= now
    ensures SponsorOutcomes.Sponsored(escrow, n1) && SponsorOutcomes.Net(bk.total) > 0 && n2.Some? ==>
      && n2.value in escrow.links && escrow.links[n2.value].referee == escrow.links[n1.value].sponsor
      && now < escrow.links[n2.value].expiresAt
  {
    Finance.NetIsRatios(bk.total);
    if bk.client in users {
      SponsorOutcomes.LookupOutcome(escrow.links, users[bk.client], now, n1);
      if SponsorOutcomes.Sponsored(escrow, n1) && SponsorOutcomes.Net(bk.total) > 0 {
        SponsorOutcomes.LookupOutcome(escrow.links, escrow.links[n1.value].sponsor, now, n2);
      }
    }
  }

  // ---- tickets, orders and installments ----------------------------------------------------------------------------

  /** Where no payment matches the key, a ticket that awaits payment becomes VALID if the delivery says paid and FAILED
      if it does not; any other ticket stays. */
  lemma TicketOutcome(owners: map<Id, Id>, w: World, d: Delivery)
    requires d.signed && !OrderKey(d.payload.orderId) && d.payload.orderId !in w.plans.installments && d.found == None
    ensures
      var w', key := Handle(owners, w, d), d.payload.orderId;
      if key in w.tickets && w.tickets[key] == T.PENDING_PAYMENT then
        w' == w.(tickets := w.tickets[key := if SaysPaid(d.payload.status) then T.VALID else T.FAILED])
      else w' == w
  {
    SuccessSpells(d.payload.status);
    KeyIsReference(d.payload.orderId);
    var key := d.payload.orderId;
    if key in w.tickets && w.tickets[key] != T.PENDING_PAYMENT {
      assert w.tickets[key := w.tickets[key]] == w.tickets;
    }
  }

  /** An order group is paid if and only if the status is the text `success`, and cancelled with its stock put back
      otherwise, unless an order of it is settled already. */
  lemma OrdersOutcome(owners: map<Id, Id>, w: World, d: Delivery, p: Id)
    requires d.signed && OrderKey(d.payload.orderId)
    ensures
      var w', group := Handle(owners, w, d), ShopOutcomes.WithReference(d.payload.orderId);
      && w' == w.(shop := w'.shop)
      && if exists n :: 0 <= n < |w.shop.orders| && group(w.shop.orders[n])
                        && w.shop.orders[n].status != S.PENDING_PAYMENT
         then w'.shop == w.shop
         else if d.payload.status == "success" then ShopOutcomes.PaidUp(w.shop, w'.shop, group)
         else ShopOutcomes.CancelledBack(w.shop, w'.shop, group, p)
  {
    KeyIsReference(d.payload.orderId);
    ShopOutcomes.GroupOutcome(w.shop, d.payload.orderId, d.payload.status == "success", p);
  }

  /** An open installment is paid if and only if the status is the text `success`, and failed otherwise. */
  lemma InstallmentsOutcome(owners: map<Id, Id>, w: World, d: Delivery)
    requires d.signed && !OrderKey(d.payload.orderId) && d.payload.orderId in w.plans.installments
    ensures
      var w', key := Handle(owners, w, d), d.payload.orderId;
      var row := w.plans.installments[key];
      && w' == w.(plans := w'.plans)
      && if row.status != P.InstallmentStatus.PENDING then w'.plans == w.plans
         else
           w'.plans.installments
             == w.plans.installments[key := row.(status := if d.payload.status == "success" then P.PAID
                                                           else P.InstallmentStatus.FAILED)]
           && w'.plans.subscriptions.Keys == w.plans.subscriptions.Keys
           && forall s :: s in w.plans.subscriptions ==>
             w'.plans.subscriptions[s]
               == if d.payload.status == "success" && s == row.subscription
                     && w.plans.subscriptions[s] == P.SubscriptionStatus.PENDING
                  then P.ACTIVE else w.plans.subscriptions[s]
  {
    KeyIsReference(d.payload.orderId);
    P.InstallmentOutcome(w.plans, d.payload.orderId, d.payload.status == "success");
  }

  /** A delivery that is not signed changes nothing. */
  lemma UnsignedOutcome(owners: map<Id, Id>, w: World, d: Delivery)
    requires !d.signed
    ensures Handle(owners, w, d) == w
  {
  }
}
