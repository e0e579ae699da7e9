/** The provider's webhook: one entry point that settles order groups, subscription installments, booking payments and
    event tickets. The first verdict on any of them wins. */
module WebhookModel {
  import opened Wrappers
  import Finance
  import Ledger
  import B = BookingModel
  import P = Subscriptions
  import S = ShopModel
  import E = SponsorshipModel
  import T = TicketScan

  type Id = string

  datatype World = World(shop: S.Shop, arena: B.State, escrow: E.Escrow, plans: P.Plans,
                         tickets: map<Id, T.TicketStatus>)

  datatype Payload = Payload(orderId: string, transactionId: string, status: string)

  /** A delivery: its payload, whether its signature verified, and what the lookups answer: the booking of the payment
      row, and the buyer's two levels of sponsorship (none for a booking without a user). */
  datatype Delivery = Delivery(payload: Payload, signed: bool, found: Option<Id>, n1: Option<Id>, n2: Option<Id>,
                               today: Ledger.Today)

  function LowerChar(c: char): char {
    if 'A' <= c <= 'Z' then (c as int + 32) as char else c
  }

  function Lower(s: string): string {
    seq(|s|, i requires 0 <= i < |s| => LowerChar(s[i]))
  }

  /** Orders and installments compare with 'success' exactly; payments and tickets accept four words in any case. */
  predicate IsSuccess(status: string) {
    Lower(status) in {"success", "successful", "paid", "completed"}
  }

  predicate IsOrderReference(key: string) {
    "EA-" <= key
  }

  /** order_id may be a payment's id, its external reference or its booking's id. */
  predicate Matches(b: Id, pay: B.Payment, key: string) {
    pay.id == key || pay.externalRef == Some(key) || b == key
  }

  /** findOne answers any payment that matches, and none exactly when no payment does. */
  ghost predicate PaymentAnswer(w: World, key: string, found: Option<Id>) {
    match found
    case Some(b) => b in w.arena.payments && Matches(b, w.arena.payments[b], key)
    case None => forall b :: b in w.arena.payments ==> !Matches(b, w.arena.payments[b], key)
  }

  function SettleTicket(w: World, id: Id, success: bool): World {
    if id !in w.tickets then w else w.(tickets := w.tickets[id := T.Settled(w.tickets[id], success)])
  }

  /** The webhook confirms this booking. */
  predicate Confirms(s: B.State, b: Id, success: bool) {
    success && b in s.payments && b in s.bookings && s.payments[b].status == B.PENDING && !B.ConfirmedClash(s, b)
  }

  /** The payment branch: settle, and on a confirmation record the sponsors' commissions. */
  function PayBooking(owners: map<Id, Id>, w: World, b: Id, d: Delivery): World {
    var success := IsSuccess(d.payload.status);
    var arena := B.SettlePayment(owners, w.arena, b, success, d.payload.transactionId, d.today);
    if !Confirms(w.arena, b, success) then w.(arena := arena)
    else
      var sale := E.Sale(w.arena.bookings[b].total, w.arena.payments[b].id, None, None);
      w.(arena := arena, escrow := E.Distribute(w.escrow, sale, d.n1, d.n2))
  }

  predicate PaysBooking(w: World, d: Delivery) {
    && d.signed && !IsOrderReference(d.payload.orderId) && d.payload.orderId !in w.plans.installments
    && d.found.Some? && Confirms(w.arena, d.found.value, IsSuccess(d.payload.status))
  }

  /** The links found for the buyer of a booking that is confirmed: their own, and then their sponsor's. */
  ghost predicate BuyerAnswer(escrow: E.Escrow, bk: B.Booking, users: map<Id, Id>, now: int, n1: Option<Id>,
                              n2: Option<Id>)
  {
    if bk.client !in users then n1 == None
    else
      && E.LinkAnswer(escrow.links, users[bk.client], now, n1)
      && (E.Follows(escrow, n1) && Finance.ComputeNetRevenue(bk.total).net > 0 ==>
            E.LinkAnswer(escrow.links, escrow.links[n1.value].sponsor, now, n2))
  }

  /** `handleWebhook` */
  function Handle(owners: map<Id, Id>, w: World, d: Delivery): World {
    var key := d.payload.orderId;
    if !d.signed then w
    else if IsOrderReference(key) then
      w.(shop := S.SettleOrders(w.shop, key, d.payload.status == "success"))
    else if key in w.plans.installments then
      w.(plans := P.SettleInstallment(w.plans, key, d.payload.status == "success"))
    else if d.found.Some? then PayBooking(owners, w, d.found.value, d)
    else SettleTicket(w, key, IsSuccess(d.payload.status))
  }

  // ---- delivered twice ---------------------------------------------------------------------------------------------

  /** At most one payment matches the key, and then no ticket has it as id. */
  ghost predicate UniqueKey(w: World, key: string) {
    forall b :: b in w.arena.payments && Matches(b, w.arena.payments[b], key) ==>
      && key !in w.tickets
      && forall c :: c in w.arena.payments && Matches(c, w.arena.payments[c], key) ==> c == b
  }

  lemma {:induction false} SettledGroup(s: S.Shop, reference: string, success: bool, n: nat)
    requires n <= |s.orders|
    ensures
      var r := S.SettleFirst(s, reference, success, n);
      && (forall i :: 0 <= i < |s.orders| ==> r.orders[i].reference == s.orders[i].reference)
      && (forall i :: 0 <= i < n && s.orders[i].reference == reference ==> r.orders[i].status != S.PENDING_PAYMENT)
      && (forall i :: 0 <= i < |s.orders| && s.orders[i].reference != reference ==> r.orders[i] == s.orders[i])
      && ((forall i :: 0 <= i < n ==> s.orders[i].reference != reference) ==> r == s)
  {
    if n > 0 {
      SettledGroup(s, reference, success, n - 1);
    }
  }

  lemma OrdersTwice(s: S.Shop, reference: string, success: bool)
    ensures
      var s' := S.SettleOrders(s, reference, success);
      S.SettleOrders(s', reference, success) == s'
  {
    var s' := S.SettleOrders(s, reference, success);
    SettledGroup(s, reference, success, |s.orders|);
    SettledGroup(s', reference, success, |s'.orders|);
    if S.AllPending(s, reference) {
      if i :| 0 <= i < |s.orders| && s.orders[i].reference == reference {
        assert s'.orders[i].reference == reference && s'.orders[i].status != S.PENDING_PAYMENT;
      }
    }
  }

  /** Settling leaves the other payments alone. */
  lemma SettlesOne(owners: map<Id, Id>, s: B.State, b: Id, success: bool, txn: string, today: Ledger.Today)
    ensures
      var s' := B.SettlePayment(owners, s, b, success, txn, today);
      && s'.payments.Keys == s.payments.Keys
      && (forall c :: c in s.payments && c != b ==> s'.payments[c] == s.payments[c])
  {
  }

  /** It takes its own payment out of PENDING, and does nothing to one that is not. */
  lemma SettlesOnce(owners: map<Id, Id>, s: B.State, b: Id, success: bool, txn: string, today: Ledger.Today)
    ensures
      var s' := B.SettlePayment(owners, s, b, success, txn, today);
      && (b in s.payments && b in s.bookings ==> b in s'.payments && s'.payments[b].status != B.PENDING)
      && (s' != s ==> b in s.payments && s.payments[b].status == B.PENDING)
  {
  }

  lemma SettlesOneBooking(owners: map<Id, Id>, s: B.State, b: Id, success: bool, txn: string, today: Ledger.Today)
    ensures
      var s' := B.SettlePayment(owners, s, b, success, txn, today);
      && s'.bookings.Keys == s.bookings.Keys
      && (forall c :: c in s.bookings && c != b ==> s'.bookings[c] == s.bookings[c])
  {
  }

  /** After the transaction the payment is SUCCESS, where it was PENDING, just when the booking was confirmed. */
  lemma SucceedsIfConfirms(owners: map<Id, Id>, s: B.State, b: Id, success: bool, txn: string, today: Ledger.Today)
    requires b in s.payments
    ensures
      var s' := B.SettlePayment(owners, s, b, success, txn, today);
      && b in s'.payments
      && (Confirms(s, b, success) <==> s.payments[b].status == B.PENDING && s'.payments[b].status == B.SUCCESS)
  {
  }

  lemma PaymentTwice(owners: map<Id, Id>, w: World, d: Delivery, again: Delivery)
    requires again == d.(found := again.found, n1 := again.n1, n2 := again.n2, today := again.today)
    requires d.signed && !IsOrderReference(d.payload.orderId) && d.payload.orderId !in w.plans.installments
    requires UniqueKey(w, d.payload.orderId) && PaymentAnswer(w, d.payload.orderId, d.found) && d.found.Some?
    requires PaymentAnswer(Handle(owners, w, d), d.payload.orderId, again.found)
    ensures Handle(owners, Handle(owners, w, d), again) == Handle(owners, w, d)
  {
    var w', b := Handle(owners, w, d), d.found.value;
    var success, txn := IsSuccess(d.payload.status), d.payload.transactionId;
    SettlesOne(owners, w.arena, b, success, txn, d.today);
    SettlesOnce(owners, w.arena, b, success, txn, d.today);
    SettlesOneBooking(owners, w.arena, b, success, txn, d.today);
    if again.found.Some? {
      assert again.found.value == b;
      SettlesOnce(owners, w'.arena, b, success, txn, again.today);
    }
  }

  /** Delivering a webhook again, with whatever rows the lookups then answer, changes nothing more. */
  lemma TwiceIsOnce(owners: map<Id, Id>, w: World, d: Delivery, again: Delivery)
    requires again == d.(found := again.found, n1 := again.n1, n2 := again.n2, today := again.today)
    requires UniqueKey(w, d.payload.orderId) && PaymentAnswer(w, d.payload.orderId, d.found)
    requires PaymentAnswer(Handle(owners, w, d), d.payload.orderId, again.found)
    ensures Handle(owners, Handle(owners, w, d), again) == Handle(owners, w, d)
  {
    var key := d.payload.orderId;
    if d.signed && IsOrderReference(key) {
      OrdersTwice(w.shop, key, d.payload.status == "success");
    } else if d.signed && key !in w.plans.installments && d.found.Some? {
      PaymentTwice(owners, w, d, again);
    }
  }

  // ---- first verdict wins ------------------------------------------------------------------------------------------

  /** An order group is settled once one of its orders has left PENDING_PAYMENT. */
  ghost predicate OrdersKept(s: S.Shop, s': S.Shop) {
    && |s'.orders| == |s.orders|
    && (forall n :: 0 <= n < |s.orders| && !S.AllPending(s, s.orders[n].reference) ==> s'.orders[n] == s.orders[n])
    && (forall reference: string :: !S.AllPending(s, reference) ==> !S.AllPending(s', reference))
  }

  ghost predicate InstallmentsKept(p: P.Plans, p': P.Plans) {
    forall i :: i in p.installments && p.installments[i].status != P.InstallmentStatus.PENDING ==>
      i in p'.installments && p'.installments[i] == p.installments[i]
  }

  ghost predicate TicketsKept(tickets: map<Id, T.TicketStatus>, tickets': map<Id, T.TicketStatus>) {
    forall t :: t in tickets && tickets[t] != T.PENDING_PAYMENT ==> t in tickets' && tickets'[t] == tickets[t]
  }

  ghost predicate PaymentsKept(s: B.State, s': B.State) {
    forall b :: b in s.payments && b in s.bookings && s.payments[b].status != B.PENDING ==>
      && b in s'.payments && s'.payments[b] == s.payments[b]
      && b in s'.bookings && s'.bookings[b] == s.bookings[b]
  }

  /** Everything that has had its verdict is as it was. */
  ghost predicate VerdictsKept(w: World, w': World) {
    && OrdersKept(w.shop, w'.shop) && InstallmentsKept(w.plans, w'.plans)
    && TicketsKept(w.tickets, w'.tickets) && PaymentsKept(w.arena, w'.arena)
  }

  lemma OrdersAreKept(s: S.Shop, reference: string, success: bool)
    ensures OrdersKept(s, S.SettleOrders(s, reference, success))
  {
    var s' := S.SettleOrders(s, reference, success);
    SettledGroup(s, reference, success, |s.orders|);
    forall other: string | !S.AllPending(s, other)
      ensures !S.AllPending(s', other)
    {
      var n :| 0 <= n < |s.orders| && s.orders[n].reference == other && s.orders[n].status != S.PENDING_PAYMENT;
      assert s'.orders[n] == s.orders[n];
    }
  }

  lemma PaymentsAreKept(owners: map<Id, Id>, s: B.State, b: Id, success: bool, txn: string, today: Ledger.Today)
    ensures PaymentsKept(s, B.SettlePayment(owners, s, b, success, txn, today))
  {
    SettlesOne(owners, s, b, success, txn, today);
    SettlesOnce(owners, s, b, success, txn, today);
    SettlesOneBooking(owners, s, b, success, txn, today);
  }

  lemma FirstVerdictWins(owners: map<Id, Id>, w: World, d: Delivery)
    ensures VerdictsKept(w, Handle(owners, w, d))
    ensures !S.AllPending(w.shop, d.payload.orderId) ==> Handle(owners, w, d).shop == w.shop
    ensures
      var payments := w.arena.payments;
      d.found.Some? && d.found.value in payments && payments[d.found.value].status != B.PENDING ==>
        Handle(owners, w, d).escrow == w.escrow
  {
    var key, w' := d.payload.orderId, Handle(owners, w, d);
    if d.signed && IsOrderReference(key) {
      OrdersAreKept(w.shop, key, d.payload.status == "success");
    } else {
      assert w'.shop == w.shop;
      if d.signed && key !in w.plans.installments && d.found.Some? {
        PaymentsAreKept(owners, w.arena, d.found.value, IsSuccess(d.payload.status), d.payload.transactionId, d.today);
      } else {
        assert w'.arena == w.arena;
      }
    }
  }

  function HandleAll(owners: map<Id, Id>, w: World, ds: seq<Delivery>): World {
    if ds == [] then w else Handle(owners, HandleAll(owners, w, ds[..|ds| - 1]), ds[|ds| - 1])
  }

  /** No run of further webhooks, with any keys and statuses, changes anything that has had its verdict, or restores
      stock for it again. */
  lemma {:induction false} VerdictsAreFinal(owners: map<Id, Id>, w: World, ds: seq<Delivery>)
    ensures VerdictsKept(w, HandleAll(owners, w, ds))
  {
    if ds != [] {
      var before := HandleAll(owners, w, ds[..|ds| - 1]);
      VerdictsAreFinal(owners, w, ds[..|ds| - 1]);
      FirstVerdictWins(owners, before, ds[|ds| - 1]);
      OrdersKeptTransitive(w.shop, before.shop, HandleAll(owners, w, ds).shop);
    }
  }

  lemma OrdersKeptTransitive(s0: S.Shop, s1: S.Shop, s2: S.Shop)
    requires OrdersKept(s0, s1) && OrdersKept(s1, s2)
    ensures OrdersKept(s0, s2)
  {
    forall n | 0 <= n < |s0.orders| && !S.AllPending(s0, s0.orders[n].reference)
      ensures s2.orders[n] == s0.orders[n]
    {
      assert s1.orders[n] == s0.orders[n];
    }
  }
}
