/** handleWebhook as it runs, over the tables of the shop, the bookings, the subscriptions and the tickets. */
module WebhookService {
  import opened Wrappers
  import BookingModel
  import Ledger
  import opened WebhookModel
  import opened BookingService
  import opened ShopService
  import opened SponsorshipService
  import SponsorshipModel
  import opened Subscriptions
  import opened TicketScan

  lemma TermsStand(owners: map<Id, Id>, s: BookingModel.State, b: Id, success: bool, txn: string, today: Ledger.Today)
    requires b in s.payments
    ensures
      var s' := BookingModel.SettlePayment(owners, s, b, success, txn, today);
      && b in s'.payments && s'.payments[b].id == s.payments[b].id
      && (b in s.bookings ==>
            && b in s'.bookings && s'.bookings[b].total == s.bookings[b].total
            && s'.bookings[b].client == s.bookings[b].client)
  {
  }

  class Payments {
    const store: Store
    const arena: Arena
    const sponsorships: Sponsorships
    const subscriptions: SubscriptionReconciliation
    const desk: TicketDesk

    constructor (store: Store, arena: Arena, sponsorships: Sponsorships, subscriptions: SubscriptionReconciliation,
                 desk: TicketDesk)
      ensures this.store == store && this.arena == arena && this.sponsorships == sponsorships
      ensures this.subscriptions == subscriptions && this.desk == desk
    {
      this.store, this.arena, this.sponsorships := store, arena, sponsorships;
      this.subscriptions, this.desk := subscriptions, desk;
    }

    ghost function Tables(): World
      reads store, arena, sponsorships, subscriptions, desk
    {
      World(store.Tables(), arena.Tables(), sponsorships.Tables(), subscriptions.Tables(),
            map id | id in desk.tickets :: desk.tickets[id].status)
    }

    /** Some payment the lookup may answer, or none. */
    method FindPayment(key: string) returns (found: Option<Id>)
      ensures PaymentAnswer(Tables(), key, found)
    {
      if b :| b in arena.payments && Matches(b, arena.payments[b], key) {
        found := Some(b);
      } else {
        found := None;
      }
    }

    /** `found` is the booking whose payment the lookup answered, `n1` and `n2` the links of its buyer; `users` gives
        the user of a client. */
    method HandleWebhook(payload: Payload, signed: bool, users: map<Id, Id>, now: int, today: Ledger.Today)
      returns (ghost found: Option<Id>, ghost n1: Option<Id>, ghost n2: Option<Id>)
      requires arena.Valid() && sponsorships.Valid()
      modifies store, arena, sponsorships, subscriptions, desk
      ensures arena.Valid() && sponsorships.Valid()
      ensures PaymentAnswer(old(Tables()), payload.orderId, found)
      ensures PaysBooking(old(Tables()), Delivery(payload, signed, found, n1, n2, today)) ==>
        BuyerAnswer(old(sponsorships.Tables()), old(arena.bookings)[found.value], users, now, n1, n2)
      ensures Tables() == Handle(arena.owners, old(Tables()), Delivery(payload, signed, found, n1, n2, today))
    {
      var key := payload.orderId;
      var payment := FindPayment(key);
      found, n1, n2 := payment, None, None;
      if !signed {
        return;
      }
      if IsOrderReference(key) {
        store.OrderWebhook(key, payload.status == "success");
      } else if key in subscriptions.installments {
        SettleInstallment(key, payload.status == "success");
      } else {
        n1, n2 := PaymentOrTicket(payload, payment, users, now, today);
      }
    }

    method PaymentOrTicket(payload: Payload, payment: Option<Id>, users: map<Id, Id>, now: int, today: Ledger.Today)
      returns (ghost n1: Option<Id>, ghost n2: Option<Id>)
      requires arena.Valid() && sponsorships.Valid() && PaymentAnswer(Tables(), payload.orderId, payment)
      requires !IsOrderReference(payload.orderId) && payload.orderId !in subscriptions.installments
      modifies arena, sponsorships, desk
      ensures arena.Valid() && sponsorships.Valid()
      ensures payment.Some? && Confirms(old(arena.Tables()), payment.value, IsSuccess(payload.status)) ==>
        BuyerAnswer(old(sponsorships.Tables()), old(arena.bookings)[payment.value], users, now, n1, n2)
      ensures Tables() == Handle(arena.owners, old(Tables()), Delivery(payload, true, payment, n1, n2, today))
    {
      n1, n2 := None, None;
      if payment.Some? {
        n1, n2 := SettlePayment(payment.value, payload, users, now, today);
      } else if payload.orderId in desk.tickets {
        SettleTicket(payload.orderId, IsSuccess(payload.status));
      }
    }

    /** The payment branch, for the payment of booking b. */
    method SettlePayment(b: Id, payload: Payload, users: map<Id, Id>, now: int, today: Ledger.Today)
      returns (ghost n1: Option<Id>, ghost n2: Option<Id>)
      requires arena.Valid() && sponsorships.Valid() && b in arena.payments
      modifies arena, sponsorships
      ensures arena.Valid() && sponsorships.Valid()
      ensures Confirms(old(arena.Tables()), b, IsSuccess(payload.status)) ==>
        BuyerAnswer(old(sponsorships.Tables()), old(arena.bookings)[b], users, now, n1, n2)
      ensures Tables() == PayBooking(arena.owners, old(Tables()), b, Delivery(payload, true, Some(b), n1, n2, today))
    {
      var confirmed := PayArena(b, IsSuccess(payload.status), payload.transactionId, today);
      n1, n2 := None, None;
      if confirmed {
        n1, n2 := PayCommissions(arena.bookings[b], arena.payments[b].id, users, now);
      }
    }

    /** Settles the payment, and says whether the booking is now confirmed by it. */
    method PayArena(b: Id, success: bool, txn: string, today: Ledger.Today) returns (confirmed: bool)
      requires arena.Valid() && b in arena.payments
      modifies arena
      ensures arena.Valid()
      ensures arena.Tables() == BookingModel.SettlePayment(arena.owners, old(arena.Tables()), b, success, txn, today)
      ensures confirmed == Confirms(old(arena.Tables()), b, success)
      ensures confirmed ==>
        && b in arena.bookings && b in arena.payments && arena.payments[b].id == old(arena.payments)[b].id
        && arena.bookings[b].total == old(arena.bookings)[b].total
        && arena.bookings[b].client == old(arena.bookings)[b].client
    {
      SucceedsIfConfirms(arena.owners, arena.Tables(), b, success, txn, today);
      TermsStand(arena.owners, arena.Tables(), b, success, txn, today);
      var pending := arena.payments[b].status == BookingModel.PENDING;
      arena.PaymentWebhook(b, success, txn, today);
      confirmed := pending && arena.payments[b].status == BookingModel.SUCCESS;
    }

    /** The commissions of a confirmed booking, if its client has a user. */
    method PayCommissions(booking: BookingModel.Booking, payment: Id, users: map<Id, Id>, now: int)
      returns (ghost n1: Option<Id>, ghost n2: Option<Id>)
      requires sponsorships.Valid()
      modifies sponsorships
      ensures sponsorships.Valid()
      ensures BuyerAnswer(old(sponsorships.Tables()), booking, users, now, n1, n2)
      ensures
        var sale := SponsorshipModel.Sale(booking.total, payment, None, None);
        sponsorships.Tables() == SponsorshipModel.Distribute(old(sponsorships.Tables()), sale, n1, n2)
    {
      n1, n2 := None, None;
      if booking.client in users {
        var sale := SponsorshipModel.Sale(booking.total, payment, None, None);
        n1, n2 := sponsorships.DistributeCommissions(users[booking.client], sale, now);
      }
    }

    method SettleInstallment(id: Id, success: bool)
      requires id in subscriptions.installments
      modifies subscriptions
      ensures subscriptions.Tables() == Subscriptions.SettleInstallment(old(subscriptions.Tables()), id, success)
    {
      var installment := subscriptions.installments[id];
      if installment.status != InstallmentStatus.PENDING {
        return;
      }
      if !success {
        var failed := installment.(status := InstallmentStatus.FAILED);
        subscriptions.installments := subscriptions.installments[id := failed];
        return;
      }
      subscriptions.installments := subscriptions.installments[id := installment.(status := PAID)];
      var s := installment.subscription;
      if s in subscriptions.subscriptions && subscriptions.subscriptions[s] == SubscriptionStatus.PENDING {
        subscriptions.subscriptions := subscriptions.subscriptions[s := ACTIVE];
      }
    }

    method SettleTicket(id: Id, success: bool)
      requires id in desk.tickets
      modifies desk
      ensures
        var ticket := old(desk.tickets)[id];
        desk.tickets == old(desk.tickets)[id := ticket.(status := Settled(ticket.status, success))]
    {
      var ticket := desk.tickets[id];
      if ticket.status == TicketStatus.PENDING_PAYMENT {
        desk.tickets := desk.tickets[id := ticket.(status := if success then VALID else TicketStatus.FAILED)];
      }
    }
  }
}
