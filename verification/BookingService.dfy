/** The handlers as they run: one object holding the tables, updated row by row. Each method is tied to its function in
    BookingModel, and keeps the invariants proved there. */
module BookingService {
  import opened Wrappers
  import opened SlotTime
  import opened Ledger
  import opened BookingModel
  import ExactlyOnce
  import OwnerBooks
  import opened OrphanSweep
  import Finance

  class Arena {
    var bookings: map<Id, Booking>
    var payments: map<Id, Payment>
    var requests: seq<CancelRequest>
    var withdrawals: seq<Withdrawal>
    var rows: seq<Row>
    var confirmations: nat
    const owners: map<Id, Id>

    ghost function Tables(): State
      reads this
    {
      State(bookings, payments, requests, withdrawals, rows, confirmations)
    }

    /** Credits exactly once, true ledger, no negative amounts. */
    ghost predicate Valid()
      reads this
    {
      ExactlyOnce.Valid(owners, Tables()) && OwnerBooks.Books(Tables())
    }

    constructor (owners: map<Id, Id>)
      ensures Valid() && Tables() == EMPTY && this.owners == owners
    {
      this.owners := owners;
      bookings, payments, requests, withdrawals, rows, confirmations := map[], map[], [], [], [], 0;
      new;
      ExactlyOnce.RunKeeps(owners, []);
      OwnerBooks.LedgerReconciles(owners, []);
    }

    method CreateTransaction(today: Today, p: Posting)
      modifies this`rows
      ensures rows == Post(old(rows), today, p)
    {
      var balanceAfter := if p.direction == CREDIT then p.balanceBefore + p.amount else p.balanceBefore - p.amount;
      var reference := Reference(today, |rows|);
      rows := rows
        + [Row(p.owner, p.rowType, p.direction, p.amount, p.balanceBefore, balanceAfter, reference, p.source)];
    }

    /** Some row the lookup may answer, or none. */
    method FindOwnPending(q: BookingRequest, client: Id) returns (own: Option<Id>)
      ensures OwnAnswer(bookings, q, client, own)
    {
      if b :| b in bookings && OwnPending(bookings[b], q, client) {
        own := Some(b);
      } else {
        own := None;
      }
    }

    method CreateBooking(q: BookingRequest, available: Option<bool>, row: Option<ScheduleRow>, client: Option<Id>,
                         now: int, id: Id) returns (reply: Reply, ghost own: Option<Id>)
      requires Valid() && q.numSlots >= 1 && Fresh(Tables(), id) && (row.Some? ==> row.value.price >= 0)
      modifies this`bookings
      ensures Valid()
      ensures client.Some? && row.Some? && available == Some(true) ==> OwnAnswer(old(bookings), q, client.value, own)
      ensures (Tables(), reply) == BookingModel.CreateBooking(old(Tables()), q, available, row, client, now, id, own)
    {
      own := None;
      if available.None? {
        return Refused(FIELD_NOT_FOUND), None;
      }
      if !available.value {
        return Refused(FIELD_UNAVAILABLE), None;
      }
      if row.None? {
        return Refused(SCHEDULE_NOT_FOUND), None;
      }
      if client.None? {
        return Refused(CLIENT_NOT_FOUND), None;
      }
      var found := FindOwnPending(q, client.value);
      own := found;
      if found.Some? && now < bookings[found.value].expiresAt {
        return Done(found.value), own;
      }
      var starts := BookedMinutes(q.start, row.value.duration, q.numSlots);
      for i := 0 to |starts|
        invariant forall k :: 0 <= k < i ==> !Taken(bookings, q, starts[k])
      {
        if Taken(bookings, q, starts[i]) {
          return Refused(SLOT_TAKEN), own;
        }
      }
      ghost var before := Tables();
      var total := row.value.price * q.numSlots;
      var fee := Finance.ComputePlatformFee(total).commission;
      var deposit := if row.value.deposit.Some? then Some(row.value.deposit.value * q.numSlots) else None;
      var end := EndMinute(q.start, row.value.duration, q.numSlots);
      var bk := Booking(client.value, q.field, q.schedule, q.date, q.start, end, q.numSlots, total, fee, deposit,
                        PENDING_PAYMENT, now + EXPIRY_MS, now, starts, |bookings|, 0);
      bookings := bookings[id := bk];
      reply := Done(id);
      ghost var e := Book(q, available, row, client, now, id, own);
      ExactlyOnce.StepKeeps(owners, before, e);
      OwnerBooks.StepKeeps(owners, before, e);
    }

    method SetStatus(b: Id, status: BookingStatus)
      requires b in bookings
      modifies this`bookings
      ensures Tables() == WithStatus(old(Tables()), b, status)
    {
      bookings := bookings[b := bookings[b].(status := status)];
    }

    method InitiatePayment(b: Id, ask: Ask, now: int, newId: Id, answer: Option<string>) returns (reply: Reply)
      requires Valid() && Fresh(Tables(), newId) && (ask.paid.Some? ==> ask.paid.value >= 1)
      modifies this`bookings, this`payments
      ensures Valid()
      ensures (Tables(), reply) == BookingModel.InitiatePayment(old(Tables()), b, ask, now, newId, answer)
    {
      ghost var before := Tables();
      reply := TryInitiate(b, ask, now, newId, answer);
      ExactlyOnce.InitiateKeeps(owners, before, b, ask, now, newId, answer);
      OwnerBooks.InitiateKeeps(before, b, ask, now, newId, answer);
    }

    method TryInitiate(b: Id, ask: Ask, now: int, newId: Id, answer: Option<string>) returns (reply: Reply)
      modifies this`bookings, this`payments
      ensures (Tables(), reply) == BookingModel.InitiatePayment(old(Tables()), b, ask, now, newId, answer)
    {
      if ask.client.None? {
        return Refused(CLIENT_NOT_FOUND);
      }
      if b !in bookings || bookings[b].client != ask.client.value {
        return Refused(BOOKING_NOT_FOUND);
      }
      var booking := bookings[b];
      if booking.status != PENDING_PAYMENT {
        return Refused(NOT_AWAITING_PAYMENT);
      }
      if now > booking.expiresAt {
        SetStatus(b, EXPIRED);
        return Refused(BOOKING_EXPIRED);
      }
      if ask.paid.Some? {
        if booking.minDeposit.Some? && ask.paid.value < booking.minDeposit.value {
          return Refused(BELOW_DEPOSIT);
        }
        if ask.paid.value > booking.total {
          return Refused(ABOVE_TOTAL);
        }
      }
      var amount := if ask.paid.Some? then ask.paid.value + Finance.ComputePlatformFee(ask.paid.value).commission
                    else booking.total + booking.fee;
      if c :| c in bookings && ClashesWith(booking, bookings[c]) {
        SetStatus(b, CANCELLED);
        return Refused(ALREADY_CONFIRMED);
      }
      if b in payments && payments[b].status == PENDING {
        if answer.None? {
          SetStatus(b, EXPIRED);
          payments := payments - {b};
          return Refused(PROVIDER_FAILED);
        }
        var phone := if ask.phone.Some? then ask.phone else payments[b].phone;
        payments := payments[b := payments[b].(externalRef := answer, operator := ask.operator, phone := phone)];
        return Done(payments[b].id);
      }
      if b in payments {
        return Refused(SECOND_PAYMENT);
      }
      payments := payments[b := Payment(newId, amount, PENDING, ask.operator, ask.phone, None)];
      if answer.None? {
        SetStatus(b, EXPIRED);
        payments := payments - {b};
        assert payments == old(payments);
        return Refused(PROVIDER_FAILED);
      }
      payments := payments[b := payments[b].(externalRef := answer)];
      assert payments == old(payments)[b := Payment(newId, amount, PENDING, ask.operator, ask.phone, answer)];
      return Done(newId);
    }

    /** `handleWebhook` once the payment is found to be the one of booking b. */
    method PaymentWebhook(b: Id, success: bool, txn: string, today: Today)
      requires Valid()
      modifies this`bookings, this`payments, this`rows, this`confirmations
      ensures Valid()
      ensures Tables() == SettlePayment(owners, old(Tables()), b, success, txn, today)
    {
      ghost var before := Tables();
      Settle(b, success, txn, today);
      ExactlyOnce.WebhookKeeps(owners, before, b, success, txn, today);
      OwnerBooks.WebhookKeeps(owners, before, b, success, txn, today);
    }

    method Settle(b: Id, success: bool, txn: string, today: Today)
      modifies this`bookings, this`payments, this`rows, this`confirmations
      ensures Tables() == SettlePayment(owners, old(Tables()), b, success, txn, today)
    {
      if b !in payments || b !in bookings || payments[b].status != PENDING {
        return;
      }
      if !success {
        payments := payments[b := payments[b].(status := FAILED)];
        SetStatus(b, CANCELLED);
        return;
      }
      var payment := payments[b];
      if txn != "" {
        payments := payments[b := payment.(externalRef := Some(txn))];
      }
      payments := payments[b := payments[b].(status := SUCCESS)];
      assert payments == WithPayment(WithReference(old(Tables()), b, txn), b, SUCCESS).payments;
      var booking := bookings[b];
      if c :| c in bookings && ClashesWith(booking, bookings[c]) {
        assert ConfirmedClash(old(Tables()), b);
        SetStatus(b, CANCELLED);
        payments := payments[b := payments[b].(status := FAILED)];
        return;
      }
      assert !ConfirmedClash(old(Tables()), b);
      confirmations := confirmations + 1;
      bookings := bookings[b := booking.(status := CONFIRMED, confirmed := confirmations)];
      assert Tables() == Confirm(WithPayment(WithReference(old(Tables()), b, txn), b, SUCCESS), b);
      CreditOwner(booking.field, payment.amount - Finance.SplitPayment(payment.amount).commission,
                  FromPayment(payment.id), today);
    }

    /** The credit of a confirmed booking, if its field has an owner. */
    method CreditOwner(field: Id, amount: int, source: Source, today: Today)
      modifies this`rows
      ensures Tables() == Credit(owners, old(Tables()), field, amount, source, today)
    {
      if field in owners {
        var owner := owners[field];
        var balanceBefore := Balance(rows, owner);
        CreateTransaction(today, Posting(owner, BOOKING_CREDIT, CREDIT, amount, balanceBefore, source));
      }
    }

    /** `confirmOrphanBooking` */
    method ConfirmOrphanBooking(b: Id, today: Today)
      requires b in bookings
      modifies this`bookings, this`payments, this`rows, this`confirmations
      ensures Tables() == ConfirmOrphan(owners, old(Tables()), b, today)
    {
      var source := FromBooking(b);
      if b in payments {
        source := FromPayment(payments[b].id);
        payments := payments[b := payments[b].(status := SUCCESS)];
      }
      confirmations := confirmations + 1;
      bookings := bookings[b := bookings[b].(status := CONFIRMED, confirmed := confirmations)];
      CreditOwner(bookings[b].field, bookings[b].total, source, today);
    }

    /** `cancelOrphanBooking` */
    method CancelOrphanBooking(b: Id, expired: bool)
      requires b in bookings
      modifies this`bookings, this`payments
      ensures Tables() == CancelOrphan(old(Tables()), b, if expired then EXPIRED else CANCELLED)
    {
      if b in payments {
        payments := payments[b := payments[b].(status := FAILED)];
      }
      SetStatus(b, if expired then EXPIRED else CANCELLED);
    }

    /** `reconcilePendingPayments` over the rows its query found; `ask` is the provider's verifyTransaction. */
    method ReconcilePendingPayments(found: seq<Id>, ask: Id -> string -> Verdict, threshold: int, today: Today)
      returns (processed: nat, confirmed: nat, cancelled: nat)
      requires Valid() && Found(Tables(), found, threshold)
      modifies this`bookings, this`payments, this`rows, this`confirmations
      ensures Valid()
      ensures Tables() == Sweep(owners, old(Tables()), found, ask, today)
      ensures processed == |found|
      ensures confirmed == CountBy(old(Tables()), found, ask, true)
      ensures cancelled == CountBy(old(Tables()), found, ask, false)
    {
      ghost var before := Tables();
      processed, confirmed, cancelled := |found|, 0, 0;
      for i := 0 to |found|
        invariant Tables() == Sweep(owners, before, found[..i], ask, today)
        invariant confirmed == CountBy(before, found[..i], ask, true)
        invariant cancelled == CountBy(before, found[..i], ask, false)
      {
        Turn(owners, before, found, i, ask, today);
        CountTurn(before, found, i, ask);
        var verdict := VerifyOrphan(found[i], ask(found[i]));
        if verdict == Paid {
          ConfirmOrphanBooking(found[i], today);
          confirmed := confirmed + 1;
        } else if verdict == Unpaid || verdict == Lapsed {
          CancelOrphanBooking(found[i], verdict == Lapsed);
          cancelled := cancelled + 1;
        }
      }
      assert found[..|found|] == found;
      SweepByVerdict(owners, before, found, ask, today);
    }

    /** The provider's verdict by payment id, or failing that by external reference: Paid if some reference is reported
        paid, Unpaid or Lapsed only if none is. */
    method VerifyOrphan(b: Id, ask: string -> Verdict) returns (verdict: Verdict)
      ensures verdict == OrphanVerdict(Tables(), b, ask)
      ensures (forall r :: r in References(Tables(), b) ==> ask(r) != Threw) ==>
        (verdict == Paid <==> exists r :: r in References(Tables(), b) && ask(r) == Paid)
      ensures verdict == Unpaid || verdict == Lapsed ==>
        forall r :: r in References(Tables(), b) ==> ask(r) != Paid && ask(r) != Threw
    {
      VerdictDecides(Tables(), b, ask);
      var ref := if b in payments then payments[b].id else b;
      verdict := ask(ref);
      if verdict != Paid && verdict != Threw && b in payments && payments[b].externalRef.Some?
         && payments[b].externalRef.value != "" && payments[b].externalRef.value != ref
      {
        var retry := ask(payments[b].externalRef.value);
        if retry == Paid || retry == Threw {
          verdict := retry;
        }
      }
    }

    /** `requestWithdrawal`: debit and commit, then cash out, then compensate a failed cash-out. */
    method RequestWithdrawal(owner: Id, amount: int, bank: bool, operator: bool, cashOut: bool, today: Today)
      returns (reply: Reply)
      requires Valid() && amount >= 50
      modifies this`rows, this`withdrawals
      ensures Valid()
      ensures
        var (debited, answer) := OpenWithdrawal(old(Tables()), owner, amount, bank, operator, today);
        && reply == answer
        && Tables() == if answer.Done? then CloseWithdrawal(debited, |old(withdrawals)|, cashOut, today) else debited
    {
      ghost var before := Tables();
      var n := |withdrawals|;
      ghost var debited := OpenWithdrawal(before, owner, amount, bank, operator, today).0;
      reply := DebitWithdrawal(owner, amount, bank, operator, today);
      if reply.Done? && withdrawals[n].sending {
        CashOutAnswered(n, cashOut, today);
      }
      ExactlyOnce.OpenKeeps(owners, before, owner, amount, bank, operator, today);
      ExactlyOnce.CloseKeeps(owners, debited, n, cashOut, today);
      OwnerBooks.OpenKeeps(before, owner, amount, bank, operator, today);
      OwnerBooks.CloseKeeps(debited, n, cashOut, today);
    }

    method DebitWithdrawal(owner: Id, amount: int, bank: bool, operator: bool, today: Today) returns (reply: Reply)
      modifies this`rows, this`withdrawals
      ensures (Tables(), reply) == OpenWithdrawal(old(Tables()), owner, amount, bank, operator, today)
      ensures reply.Done? ==> |withdrawals| == |old(withdrawals)| + 1
    {
      var computed := Balance(rows, owner);
      var available := computed - SumOf(withdrawals, owner, PENDING_VALIDATION);
      var fee := Finance.WithdrawalFee(amount);
      if available < amount + fee {
        return Refused(INSUFFICIENT_BALANCE);
      }
      if bank {
        withdrawals := withdrawals + [Withdrawal(owner, amount, fee, true, PENDING_VALIDATION, false)];
        return Done(owner);
      }
      CreateTransaction(today, Posting(owner, WITHDRAWAL_DEBIT, DEBIT, amount + fee, computed, FromOwner(owner)));
      withdrawals := withdrawals + [Withdrawal(owner, amount, fee, false, PROCESSED, operator)];
      return Done(owner);
    }

    /** What follows the provider's answer to a withdrawal's cash-out. */
    method CashOutAnswered(n: nat, ok: bool, today: Today)
      requires n < |withdrawals| && withdrawals[n].sending
      modifies this`rows, this`withdrawals
      ensures Tables() == CloseWithdrawal(old(Tables()), n, ok, today)
    {
      var w := withdrawals[n].(sending := false);
      withdrawals := withdrawals[n := w];
      if !ok {
        var balanceAfterDebit := Balance(rows, w.owner);
        CreateTransaction(today, Posting(w.owner, REFUND_CREDIT, CREDIT, w.amount + w.fee, balanceAfterDebit,
                                         FromWithdrawal(n)));
        withdrawals := withdrawals[n := w.(status := REJECTED)];
      }
    }

    method ValidateWithdrawal(n: nat, approve: bool, today: Today) returns (reply: Reply)
      requires Valid()
      modifies this`rows, this`withdrawals
      ensures Valid()
      ensures (Tables(), reply) == BookingModel.ValidateWithdrawal(old(Tables()), n, approve, today)
    {
      ghost var before := Tables();
      reply := Judge(n, approve, today);
      ExactlyOnce.ValidateKeeps(owners, before, n, approve, today);
      OwnerBooks.ValidateKeeps(before, n, approve, today);
    }

    method Judge(n: nat, approve: bool, today: Today) returns (reply: Reply)
      modifies this`rows, this`withdrawals
      ensures (Tables(), reply) == BookingModel.ValidateWithdrawal(old(Tables()), n, approve, today)
    {
      if n >= |withdrawals| || withdrawals[n].status != PENDING_VALIDATION {
        return Refused(WITHDRAWAL_NOT_PENDING);
      }
      var w := withdrawals[n];
      if approve {
        var balanceBefore := Balance(rows, w.owner);
        CreateTransaction(today, Posting(w.owner, WITHDRAWAL_DEBIT, DEBIT, w.amount + w.fee, balanceBefore,
                                         FromWithdrawal(n)));
        withdrawals := withdrawals[n := w.(status := PROCESSED)];
      } else {
        withdrawals := withdrawals[n := w.(status := REJECTED)];
      }
      return Done(w.owner);
    }

    method RequestCancellation(b: Id, viewer: Viewer) returns (reply: Reply)
      requires Valid()
      modifies this`requests
      ensures Valid()
      ensures (Tables(), reply) == BookingModel.RequestCancellation(owners, old(Tables()), b, viewer)
    {
      ghost var before := Tables();
      ExactlyOnce.AskKeeps(owners, before, b, viewer);
      OwnerBooks.AskKeeps(owners, before, b, viewer);
      if b !in bookings || bookings[b].field !in owners || (viewer.AsClient? && bookings[b].client != viewer.client)
         || (viewer.AsOwner? && owners[bookings[b].field] != viewer.owner) || viewer.AsOther?
      {
        return Refused(BOOKING_NOT_FOUND);
      }
      if bookings[b].status != CONFIRMED {
        return Refused(NOT_CONFIRMED);
      }
      for k := 0 to |requests|
        invariant forall j :: 0 <= j < k ==> !(requests[j].booking == b && requests[j].status == REQUESTED)
      {
        if requests[k].booking == b && requests[k].status == REQUESTED {
          return Refused(REQUEST_EXISTS);
        }
      }
      requests := requests + [CancelRequest(b, owners[bookings[b].field], REQUESTED, NotDue)];
      return Done(b);
    }

    /** `validateCancellationRequest`: debit, cancel and approve, then send the refund, then compensate. */
    method ValidateCancellation(k: nat, caller: Id, approve: bool, consumed: bool, cashOut: bool, today: Today)
      returns (reply: Reply)
      requires Valid()
      modifies this`bookings, this`requests, this`rows
      ensures Valid()
      ensures
        var (judged, answer) := BookingModel.ValidateCancellation(old(Tables()), k, caller, approve, consumed, today);
        && reply == answer
        && Tables() == if answer.Done? && approve then CloseRefund(judged, k, cashOut, today) else judged
    {
      ghost var before := Tables();
      ghost var judged := BookingModel.ValidateCancellation(before, k, caller, approve, consumed, today).0;
      reply := JudgeCancellation(k, caller, approve, consumed, today);
      if reply.Done? && approve && requests[k].refund.Sending? {
        RefundAnswered(k, cashOut, today);
      }
      ExactlyOnce.JudgeKeeps(owners, before, k, caller, approve, consumed, today);
      ExactlyOnce.PayBackKeeps(owners, judged, k, cashOut, today);
      OwnerBooks.JudgeKeeps(before, k, caller, approve, consumed, today);
      OwnerBooks.PayBackKeeps(judged, k, cashOut, today);
    }

    method JudgeCancellation(k: nat, caller: Id, approve: bool, consumed: bool, today: Today) returns (reply: Reply)
      modifies this`bookings, this`requests, this`rows
      ensures (Tables(), reply) == BookingModel.ValidateCancellation(old(Tables()), k, caller, approve, consumed, today)
      ensures reply.Done? ==> k < |requests|
    {
      if k >= |requests| || requests[k].owner != caller || requests[k].booking !in bookings {
        return Refused(REQUEST_NOT_FOUND);
      }
      var request := requests[k];
      if request.status != REQUESTED {
        return Refused(REQUEST_PROCESSED);
      }
      var b := request.booking;
      if !approve {
        requests := requests[k := request.(status := DECLINED)];
        return Done(b);
      }
      if consumed {
        return Refused(ALREADY_CONSUMED);
      }
      var amount := Finance.RefundAmount(bookings[b].total);
      var balance := Balance(rows, caller);
      if balance < amount {
        return Refused(INSUFFICIENT_BALANCE);
      }
      CreateTransaction(today, Posting(caller, REFUND_DEBIT, DEBIT, amount, balance, FromRefund(k)));
      SetStatus(b, CANCELLED);
      var sendable := b in payments && payments[b].operator != "" && payments[b].phone.Some?
                      && payments[b].phone.value != "";
      var refund := if sendable then Sending(amount) else Kept(amount);
      requests := requests[k := request.(status := APPROVED, refund := refund)];
      return Done(b);
    }

    /** What follows the provider's answer to a refund's cash-out. */
    method RefundAnswered(k: nat, ok: bool, today: Today)
      requires k < |requests| && requests[k].refund.Sending?
      modifies this`requests, this`rows
      ensures Tables() == CloseRefund(old(Tables()), k, ok, today)
    {
      var request := requests[k];
      var amount := request.refund.amount;
      if ok {
        requests := requests[k := request.(refund := Sent(amount))];
      } else {
        var balanceAfterDebit := Balance(rows, request.owner);
        CreateTransaction(
          today, Posting(request.owner, REFUND_CREDIT, CREDIT, amount, balanceAfterDebit, FromRefund(k)));
        requests := requests[k := request.(refund := Returned(amount))];
      }
    }
  }
}
