/** The owners' books: what the ledger sums to, that every row's balances are true, and when the balance an owner can
    draw on stays non-negative. */
module OwnerBooks {
  import opened Wrappers
  import opened SlotTime
  import opened Ledger
  import opened BookingModel
  import opened Sums
  import Finance

  /** What approved cancellations cost the owner: the refunds not credited back. */
  function Outstanding(r: CancelRequest): int {
    match r.refund
    case NotDue => 0
    case Sending(a) => a
    case Sent(a) => a
    case Kept(a) => a
    case Returned(_) => 0
  }

  function RefundOf(owner: Id): CancelRequest -> int {
    (r: CancelRequest) => if r.owner == owner then Outstanding(r) else 0
  }

  function Refunds(rs: seq<CancelRequest>, owner: Id): int {
    Sum(rs, RefundOf(owner))
  }

  /** Booking credits, less amount and fee of every processed withdrawal, less the refunds not credited back. */
  ghost function BookValue(s: State, owner: Id): int {
    CreditSum(s.rows, owner) - SumOf(s.withdrawals, owner, PROCESSED) - Refunds(s.requests, owner)
  }

  ghost predicate Reconciled(s: State) {
    forall owner: Id :: Balance(s.rows, owner) == BookValue(s, owner)
  }

  /** No amount in any table is negative, and only a processed withdrawal waits for the provider. */
  ghost predicate Amounts(s: State) {
    && (forall b :: b in s.bookings ==> s.bookings[b].total >= 0 && s.bookings[b].fee >= 0)
    && (forall b :: b in s.payments ==> s.payments[b].amount >= 0)
    && (forall n :: 0 <= n < |s.withdrawals| ==>
          Total(s.withdrawals[n]) >= 0 && (s.withdrawals[n].sending ==> s.withdrawals[n].status == PROCESSED))
    && (forall k :: 0 <= k < |s.requests| ==>
          Outstanding(s.requests[k]) >= 0 && (s.requests[k].status == REQUESTED ==> s.requests[k].refund == NotDue))
  }

  ghost predicate Books(s: State) {
    Audited(s.rows) && Reconciled(s) && Amounts(s)
  }

  // ---- sums over tables ------------------------------------------------------------------------------------------

  lemma {:induction false} PendingNotNegative(ws: seq<Withdrawal>, owner: Id, status: WithdrawalStatus)
    requires forall n :: 0 <= n < |ws| ==> Total(ws[n]) >= 0
    ensures SumOf(ws, owner, status) >= 0
  {
    if ws != [] {
      PendingNotNegative(ws[..|ws| - 1], owner, status);
    }
  }

  // ---- each step -------------------------------------------------------------------------------------------------

  lemma EnterMoves(rows: seq<Row>, today: Today, to: Id, rowType: RowType, direction: Direction, amount: int,
                   source: Source, owner: Id)
    requires Audited(rows)
    ensures
      var rows' := Enter(rows, today, to, rowType, direction, amount, source);
      var moved := if to != owner then 0 else if direction == CREDIT then amount else -amount;
      && Audited(rows')
      && Balance(rows', owner) == Balance(rows, owner) + moved
      && CreditSum(rows', owner) == CreditSum(rows, owner) + (if rowType == BOOKING_CREDIT then moved else 0)
  {
    PostKeepsAudit(rows, today, Posting(to, rowType, direction, amount, Balance(rows, to), source));
  }

  lemma OpenKeeps(s: State, owner: Id, amount: int, bank: bool, operator: bool, today: Today)
    requires Books(s) && amount >= 50
    ensures Books(OpenWithdrawal(s, owner, amount, bank, operator, today).0)
  {
    var s' := OpenWithdrawal(s, owner, amount, bank, operator, today).0;
    if s' != s {
      var w := s'.withdrawals[|s.withdrawals|];
      FeeNotNegative(amount);
      EnterMoves(s.rows, today, owner, WITHDRAWAL_DEBIT, DEBIT, Total(w), FromOwner(owner), owner);
      forall o: Id
        ensures Balance(s'.rows, o) == BookValue(s', o)
      {
        SumAppend(s.withdrawals, w, ShareOf(o, PROCESSED));
        EnterMoves(s.rows, today, owner, WITHDRAWAL_DEBIT, DEBIT, Total(w), FromOwner(owner), o);
      }
    }
  }

  lemma FeeNotNegative(amount: int)
    requires amount >= 0
    ensures Finance.WithdrawalFee(amount) >= 0
    ensures Finance.RefundAmount(amount) >= 0
    ensures Finance.ComputePlatformFee(amount).commission >= 0
    ensures Finance.SplitPayment(amount).ownerCredit >= 0
  {
    Finance.SplitIsRatio(amount);
  }

  lemma CloseReconciles(s: State, n: nat, ok: bool, today: Today, o: Id)
    requires Books(s) && n < |s.withdrawals| && s.withdrawals[n].sending
    ensures Balance(CloseWithdrawal(s, n, ok, today).rows, o) == BookValue(CloseWithdrawal(s, n, ok, today), o)
  {
    var s' := CloseWithdrawal(s, n, ok, today);
    assert Balance(s.rows, o) == BookValue(s, o);
    ProcessedAfter(s.withdrawals, n, ok, o);
    CreditedBack(s, n, ok, today, o);
    assert s'.requests == s.requests;
  }

  /** A cash-out that failed is credited back, which is no booking credit. */
  lemma CreditedBack(s: State, n: nat, ok: bool, today: Today, o: Id)
    requires Audited(s.rows) && n < |s.withdrawals| && s.withdrawals[n].sending
    ensures
      var s', w := CloseWithdrawal(s, n, ok, today), s.withdrawals[n];
      && Balance(s'.rows, o) == Balance(s.rows, o) + (if ok || w.owner != o then 0 else Total(w))
      && CreditSum(s'.rows, o) == CreditSum(s.rows, o)
  {
    var w := s.withdrawals[n];
    EnterMoves(s.rows, today, w.owner, REFUND_CREDIT, CREDIT, Total(w), FromWithdrawal(n), o);
  }

  /** What an answered cash-out leaves of an owner's processed withdrawals. */
  lemma ProcessedAfter(ws: seq<Withdrawal>, n: nat, ok: bool, o: Id)
    requires n < |ws| && ws[n].status == PROCESSED
    ensures
      var w := if ok then ws[n].(sending := false) else ws[n].(sending := false, status := REJECTED);
      SumOf(ws[n := w], o, PROCESSED)
        == SumOf(ws, o, PROCESSED) - if ok || ws[n].owner != o then 0 else Total(ws[n])
  {
    var w := if ok then ws[n].(sending := false) else ws[n].(sending := false, status := REJECTED);
    SumUpdate(ws, n, w, ShareOf(o, PROCESSED));
  }

  lemma CloseKeeps(s: State, n: nat, ok: bool, today: Today)
    requires Books(s)
    ensures Books(CloseWithdrawal(s, n, ok, today))
  {
    var s' := CloseWithdrawal(s, n, ok, today);
    if n < |s.withdrawals| && s.withdrawals[n].sending {
      var w := s.withdrawals[n];
      EnterMoves(s.rows, today, w.owner, REFUND_CREDIT, CREDIT, Total(w), FromWithdrawal(n), w.owner);
      forall o: Id
        ensures Balance(s'.rows, o) == BookValue(s', o)
      {
        CloseReconciles(s, n, ok, today, o);
      }
    }
  }

  lemma ValidateKeeps(s: State, n: nat, approve: bool, today: Today)
    requires Books(s)
    ensures Books(ValidateWithdrawal(s, n, approve, today).0)
  {
    var s' := ValidateWithdrawal(s, n, approve, today).0;
    if s' != s {
      var w := s.withdrawals[n];
      EnterMoves(s.rows, today, w.owner, WITHDRAWAL_DEBIT, DEBIT, Total(w), FromWithdrawal(n), w.owner);
      forall o: Id
        ensures Balance(s'.rows, o) == BookValue(s', o)
      {
        SumUpdate(s.withdrawals, n, s'.withdrawals[n], ShareOf(o, PROCESSED));
        EnterMoves(s.rows, today, w.owner, WITHDRAWAL_DEBIT, DEBIT, Total(w), FromWithdrawal(n), o);
      }
    }
  }

  lemma AskKeeps(owners: map<Id, Id>, s: State, b: Id, viewer: Viewer)
    requires Books(s)
    ensures Books(RequestCancellation(owners, s, b, viewer).0)
  {
    var s' := RequestCancellation(owners, s, b, viewer).0;
    if s' != s {
      assert s'.requests[..|s.requests|] == s.requests;
      assert forall o: Id :: Refunds(s'.requests, o) == Refunds(s.requests, o);
    }
  }

  lemma JudgeKeeps(s: State, k: nat, caller: Id, approve: bool, consumed: bool, today: Today)
    requires Books(s)
    ensures Books(ValidateCancellation(s, k, caller, approve, consumed, today).0)
  {
    var s' := ValidateCancellation(s, k, caller, approve, consumed, today).0;
    if s' != s {
      var b := s.requests[k].booking;
      var amount := Finance.RefundAmount(s.bookings[b].total);
      FeeNotNegative(s.bookings[b].total);
      EnterMoves(s.rows, today, caller, REFUND_DEBIT, DEBIT, amount, FromRefund(k), caller);
      forall o: Id
        ensures Balance(s'.rows, o) == BookValue(s', o)
      {
        SumUpdate(s.requests, k, s'.requests[k], RefundOf(o));
        EnterMoves(s.rows, today, caller, REFUND_DEBIT, DEBIT, amount, FromRefund(k), o);
      }
    }
  }

  /** What a refund that is not sent gives back, and what its request then stands for. */
  lemma Returning(r: CancelRequest, o: Id)
    requires r.refund.Sending?
    ensures RefundOf(o)(r.(refund := Returned(r.refund.amount)))
         == RefundOf(o)(r) - if r.owner == o then r.refund.amount else 0
    ensures RefundOf(o)(r.(refund := Sent(r.refund.amount))) == RefundOf(o)(r)
  {
  }

  lemma PayBackReconciles(s: State, k: nat, ok: bool, today: Today, o: Id)
    requires Books(s) && k < |s.requests| && s.requests[k].refund.Sending?
    ensures Balance(CloseRefund(s, k, ok, today).rows, o) == BookValue(CloseRefund(s, k, ok, today), o)
  {
    var r, amount := s.requests[k], s.requests[k].refund.amount;
    assert Balance(s.rows, o) == BookValue(s, o);
    Returning(r, o);
    if ok {
      SumUpdate(s.requests, k, r.(refund := Sent(amount)), RefundOf(o));
    } else {
      SumUpdate(s.requests, k, r.(refund := Returned(amount)), RefundOf(o));
      EnterMoves(s.rows, today, r.owner, REFUND_CREDIT, CREDIT, amount, FromRefund(k), o);
    }
  }

  lemma PayBackKeeps(s: State, k: nat, ok: bool, today: Today)
    requires Books(s)
    ensures Books(CloseRefund(s, k, ok, today))
  {
    var s' := CloseRefund(s, k, ok, today);
    if k < |s.requests| && s.requests[k].refund.Sending? {
      var r := s.requests[k];
      EnterMoves(s.rows, today, r.owner, REFUND_CREDIT, CREDIT, r.refund.amount, FromRefund(k), r.owner);
      forall o: Id
        ensures Balance(s'.rows, o) == BookValue(s', o)
      {
        PayBackReconciles(s, k, ok, today, o);
      }
    }
  }

  /** Booking, paying and settling touch neither withdrawals nor requests, and write at most one booking credit. */
  lemma SettleKeeps(owners: map<Id, Id>, s: State, s1: State, field: Id, amount: int, source: Source, today: Today)
    requires Books(s) && Amounts(s1)
    requires s1.rows == s.rows && s1.withdrawals == s.withdrawals && s1.requests == s.requests
    ensures Books(Credit(owners, s1, field, amount, source, today))
  {
    if field in owners {
      EnterMoves(s.rows, today, owners[field], BOOKING_CREDIT, CREDIT, amount, source, field);
      forall o: Id
        ensures Balance(Credit(owners, s1, field, amount, source, today).rows, o)
             == BookValue(Credit(owners, s1, field, amount, source, today), o)
      {
        EnterMoves(s.rows, today, owners[field], BOOKING_CREDIT, CREDIT, amount, source, o);
      }
    }
  }

  lemma AmountsStay(s: State, s': State)
    requires Amounts(s) && s'.withdrawals == s.withdrawals && s'.requests == s.requests
    requires s'.bookings.Keys == s.bookings.Keys && s'.payments.Keys == s.payments.Keys
    requires forall b :: b in s.bookings ==>
      s'.bookings[b].total == s.bookings[b].total && s'.bookings[b].fee == s.bookings[b].fee
    requires forall b :: b in s.payments ==> s'.payments[b].amount == s.payments[b].amount
    ensures Amounts(s')
  {
  }

  lemma WebhookKeeps(owners: map<Id, Id>, s: State, b: Id, success: bool, txn: string, today: Today)
    requires Books(s)
    ensures Books(SettlePayment(owners, s, b, success, txn, today))
  {
    if b in s.payments && b in s.bookings && s.payments[b].status == PENDING && success && !ConfirmedClash(s, b) {
      var pay, s1 := s.payments[b], Confirm(WithPayment(WithReference(s, b, txn), b, SUCCESS), b);
      AmountsStay(s, s1);
      SettleKeeps(owners, s, s1, s.bookings[b].field, Finance.SplitPayment(pay.amount).ownerCredit,
                  FromPayment(pay.id), today);
    } else {
      AmountsStay(s, SettlePayment(owners, s, b, success, txn, today));
    }
  }

  lemma ConfirmOrphanKeeps(owners: map<Id, Id>, s: State, b: Id, today: Today)
    requires Books(s) && b in s.bookings
    ensures Books(ConfirmOrphan(owners, s, b, today))
  {
    var s1 := Confirm(if b in s.payments then WithPayment(s, b, SUCCESS) else s, b);
    var source := if b in s.payments then FromPayment(s.payments[b].id) else FromBooking(b);
    AmountsStay(s, s1);
    SettleKeeps(owners, s, s1, s.bookings[b].field, s.bookings[b].total, source, today);
  }

  lemma CancelOrphanKeeps(s: State, b: Id, status: BookingStatus)
    requires Books(s) && b in s.bookings
    ensures Books(CancelOrphan(s, b, status))
  {
    AmountsStay(s, CancelOrphan(s, b, status));
  }

  lemma OrphanKeeps(owners: map<Id, Id>, s: State, b: Id, verdict: Verdict, today: Today)
    requires Books(s) && b in s.bookings
    ensures Books(SettleOrphan(owners, s, b, verdict, today))
  {
    match verdict
    case Paid => ConfirmOrphanKeeps(owners, s, b, today);
    case Unpaid => CancelOrphanKeeps(s, b, CANCELLED);
    case Lapsed => CancelOrphanKeeps(s, b, EXPIRED);
    case _ =>
  }

  lemma BookKeeps(s: State, q: BookingRequest, available: Option<bool>, row: Option<ScheduleRow>, client: Option<Id>,
                  now: int, id: Id, own: Option<Id>)
    requires Books(s) && (row.Some? ==> row.value.price >= 0)
    ensures Books(CreateBooking(s, q, available, row, client, now, id, own).0)
  {
    var s' := CreateBooking(s, q, available, row, client, now, id, own).0;
    if s'.bookings != s.bookings {
      TotalNotNegative(row.value.price, q.numSlots);
      FeeNotNegative(row.value.price * q.numSlots);
    }
  }

  lemma TotalNotNegative(price: int, count: nat)
    requires price >= 0
    ensures price * count >= 0
  {
  }

  lemma InitiateKeeps(s: State, b: Id, ask: Ask, now: int, newId: Id, answer: Option<string>)
    requires Books(s) && (ask.paid.Some? ==> ask.paid.value >= 1)
    ensures Books(InitiatePayment(s, b, ask, now, newId, answer).0)
  {
    if ask.paid.Some? {
      FeeNotNegative(ask.paid.value);
    }
    var s' := InitiatePayment(s, b, ask, now, newId, answer).0;
    assert b in s.bookings ==> AskedAmount(s.bookings[b], ask.paid) >= 0;
    assert s'.rows == s.rows && s'.withdrawals == s.withdrawals && s'.requests == s.requests;
    assert Amounts(s') by { InitiateAmounts(s, b, ask, now, newId, answer); }
    assert forall o: Id :: BookValue(s', o) == BookValue(s, o);
  }

  lemma InitiateAmounts(s: State, b: Id, ask: Ask, now: int, newId: Id, answer: Option<string>)
    requires Amounts(s) && (b in s.bookings ==> AskedAmount(s.bookings[b], ask.paid) >= 0)
    ensures Amounts(InitiatePayment(s, b, ask, now, newId, answer).0)
  {
  }

  lemma StepKeeps(owners: map<Id, Id>, s: State, e: Event)
    requires Books(s) && Possible(s, e)
    ensures Books(Step(owners, s, e))
  {
    match e
    case Book(q, available, row, client, now, id, own) => BookKeeps(s, q, available, row, client, now, id, own);
    case Initiate(b, ask, now, id, answer) => InitiateKeeps(s, b, ask, now, id, answer);
    case Webhook(b, success, txn, today) => WebhookKeeps(owners, s, b, success, txn, today);
    case Reconcile(b, verdict, threshold, today) =>
      if Orphan(s, b, threshold) {
        OrphanKeeps(owners, s, b, verdict, today);
      }
    case Withdraw(owner, amount, bank, operator, today) => OpenKeeps(s, owner, amount, bank, operator, today);
    case CashOut(n, ok, today) => CloseKeeps(s, n, ok, today);
    case Validate(n, approve, today) => ValidateKeeps(s, n, approve, today);
    case AskCancel(b, viewer) => AskKeeps(owners, s, b, viewer);
    case JudgeCancel(k, caller, approve, consumed, today) => JudgeKeeps(s, k, caller, approve, consumed, today);
    case PayBack(k, ok, today) => PayBackKeeps(s, k, ok, today);
  }

  /** After any run, with provider answers still missing or not: every ledger row carries true balances and its own
      reference, and each owner's balance is their booking credits less amount and fee of the withdrawals that are
      PROCESSED, less the refunds not credited back. */
  lemma {:induction false} LedgerReconciles(owners: map<Id, Id>, es: seq<Event>)
    requires PossibleRun(owners, es)
    ensures Books(Run(owners, es))
  {
    if es != [] {
      var prefix := es[..|es| - 1];
      LastEvent(owners, es);
      LedgerReconciles(owners, prefix);
      StepKeeps(owners, Run(owners, prefix), es[|es| - 1]);
    }
  }

  // ---- the balance an owner can draw on ----------------------------------------------------------------------------

  ghost predicate Covered(s: State) {
    forall owner: Id :: Available(s, owner) >= 0
  }

  predicate Approves(s: State, e: Event) {
    e.JudgeCancel? && e.approve && ValidateCancellation(s, e.k, e.caller, e.approve, e.consumed, e.today).1.Done?
  }

  /** The refund an approval takes is covered by the available balance; the source itself looks at the ledger alone. */
  ghost predicate RefundCovered(s: State, e: Event) {
    Approves(s, e) ==> Available(s, e.caller) >= Finance.RefundAmount(s.bookings[s.requests[e.k].booking].total)
  }

  /** Approving while none of the caller's bank transfers is pending is enough. */
  lemma QuietBankSuffices(s: State, e: Event)
    requires e.JudgeCancel? ==> SumOf(s.withdrawals, e.caller, PENDING_VALIDATION) == 0
    ensures RefundCovered(s, e)
  {
  }

  lemma AvailableMoves(s: State, s': State, today: Today, to: Id, rowType: RowType, direction: Direction, amount: int,
                       source: Source, owner: Id)
    requires Audited(s.rows)
    requires s'.rows == Enter(s.rows, today, to, rowType, direction, amount, source)
    ensures Available(s', owner) - Available(s, owner)
      == SumOf(s.withdrawals, owner, PENDING_VALIDATION) - SumOf(s'.withdrawals, owner, PENDING_VALIDATION)
         + if to != owner then 0 else if direction == CREDIT then amount else -amount
  {
    EnterMoves(s.rows, today, to, rowType, direction, amount, source, owner);
  }

  lemma OpenCovered(s: State, owner: Id, amount: int, bank: bool, operator: bool, today: Today)
    requires Books(s) && Covered(s)
    ensures Covered(OpenWithdrawal(s, owner, amount, bank, operator, today).0)
  {
    var s' := OpenWithdrawal(s, owner, amount, bank, operator, today).0;
    if s' != s {
      var w := s'.withdrawals[|s.withdrawals|];
      forall o: Id
        ensures Available(s', o) >= 0
      {
        SumAppend(s.withdrawals, w, ShareOf(o, PENDING_VALIDATION));
        if !bank {
          AvailableMoves(s, s', today, owner, WITHDRAWAL_DEBIT, DEBIT, Total(w), FromOwner(owner), o);
        }
        assert Available(s, o) >= 0;
      }
    }
  }

  lemma CloseCovered(s: State, n: nat, ok: bool, today: Today)
    requires Books(s) && Covered(s)
    ensures Covered(CloseWithdrawal(s, n, ok, today))
  {
    var s' := CloseWithdrawal(s, n, ok, today);
    if n < |s.withdrawals| && s.withdrawals[n].sending {
      var w := s.withdrawals[n];
      forall o: Id
        ensures Available(s', o) >= 0
      {
        SumUpdate(s.withdrawals, n, s'.withdrawals[n], ShareOf(o, PENDING_VALIDATION));
        if !ok {
          AvailableMoves(s, s', today, w.owner, REFUND_CREDIT, CREDIT, Total(w), FromWithdrawal(n), o);
        }
        assert Available(s, o) >= 0;
      }
    }
  }

  lemma ValidateCovered(s: State, n: nat, approve: bool, today: Today)
    requires Books(s) && Covered(s)
    ensures Covered(ValidateWithdrawal(s, n, approve, today).0)
  {
    var s' := ValidateWithdrawal(s, n, approve, today).0;
    if s' != s {
      var w := s.withdrawals[n];
      forall o: Id
        ensures Available(s', o) >= 0
      {
        SumUpdate(s.withdrawals, n, s'.withdrawals[n], ShareOf(o, PENDING_VALIDATION));
        if approve {
          AvailableMoves(s, s', today, w.owner, WITHDRAWAL_DEBIT, DEBIT, Total(w), FromWithdrawal(n), o);
        }
        assert Available(s, o) >= 0;
      }
    }
  }

  /** Approving a cancellation keeps every owner covered if and only if the caller's available balance, not just the
      ledger, covers the refund. */
  lemma RefundCoveredExactly(s: State, k: nat, caller: Id, today: Today)
    requires Books(s) && Covered(s)
    requires ValidateCancellation(s, k, caller, true, false, today).1.Done?
    ensures Covered(ValidateCancellation(s, k, caller, true, false, today).0)
      <==> Available(s, caller) >= Finance.RefundAmount(s.bookings[s.requests[k].booking].total)
  {
    var s' := ValidateCancellation(s, k, caller, true, false, today).0;
    var amount := Finance.RefundAmount(s.bookings[s.requests[k].booking].total);
    forall o: Id
      ensures Available(s', o) == Available(s, o) - if o == caller then amount else 0
    {
      AvailableMoves(s, s', today, caller, REFUND_DEBIT, DEBIT, amount, FromRefund(k), o);
    }
    assert Available(s', caller) == Available(s, caller) - amount;
    if Available(s, caller) >= amount {
      forall o: Id
        ensures Available(s', o) >= 0
      {
        assert Available(s, o) >= 0;
      }
    }
  }

  lemma JudgeCovered(s: State, k: nat, caller: Id, approve: bool, consumed: bool, today: Today)
    requires Books(s) && Covered(s) && RefundCovered(s, JudgeCancel(k, caller, approve, consumed, today))
    ensures Covered(ValidateCancellation(s, k, caller, approve, consumed, today).0)
  {
    var (s', reply) := ValidateCancellation(s, k, caller, approve, consumed, today);
    if reply.Done? && approve {
      RefundCoveredExactly(s, k, caller, today);
    } else {
      assert s'.rows == s.rows && s'.withdrawals == s.withdrawals;
      assert forall o: Id :: Available(s', o) == Available(s, o);
    }
  }

  lemma PayBackCovered(s: State, k: nat, ok: bool, today: Today)
    requires Books(s) && Covered(s)
    ensures Covered(CloseRefund(s, k, ok, today))
  {
    var s' := CloseRefund(s, k, ok, today);
    forall o: Id
      ensures Available(s', o) >= 0
    {
      if s'.rows != s.rows {
        var r := s.requests[k];
        AvailableMoves(s, s', today, r.owner, REFUND_CREDIT, CREDIT, r.refund.amount, FromRefund(k), o);
      }
      assert Available(s, o) >= 0;
    }
  }

  lemma CreditCovered(owners: map<Id, Id>, s: State, s1: State, field: Id, amount: int, source: Source, today: Today)
    requires Books(s) && Covered(s) && amount >= 0
    requires s1.rows == s.rows && s1.withdrawals == s.withdrawals
    ensures Covered(Credit(owners, s1, field, amount, source, today))
  {
    var s' := Credit(owners, s1, field, amount, source, today);
    forall o: Id
      ensures Available(s', o) >= 0
    {
      if field in owners {
        AvailableMoves(s, s', today, owners[field], BOOKING_CREDIT, CREDIT, amount, source, o);
      }
      assert Available(s, o) >= 0;
    }
  }

  lemma SettleCovered(owners: map<Id, Id>, s: State, e: Event)
    requires Books(s) && Covered(s) && (e.Webhook? || e.Reconcile?)
    ensures Covered(Step(owners, s, e))
  {
    var s' := Step(owners, s, e);
    if s'.rows == s.rows {
      assert forall o: Id :: Available(s', o) == Available(s, o);
    } else if e.Webhook? {
      WebhookCovered(owners, s, e.b, e.success, e.txn, e.today);
    } else {
      OrphanCovered(owners, s, e.b, e.verdict, e.today);
    }
  }

  lemma WebhookCovered(owners: map<Id, Id>, s: State, b: Id, success: bool, txn: string, today: Today)
    requires Books(s) && Covered(s) && SettlePayment(owners, s, b, success, txn, today).rows != s.rows
    ensures Covered(SettlePayment(owners, s, b, success, txn, today))
  {
    var pay := s.payments[b];
    FeeNotNegative(pay.amount);
    CreditCovered(owners, s, SettlePayment(owners, s, b, success, txn, today).(rows := s.rows), s.bookings[b].field,
                  Finance.SplitPayment(pay.amount).ownerCredit, FromPayment(pay.id), today);
  }

  lemma OrphanCovered(owners: map<Id, Id>, s: State, b: Id, verdict: Verdict, today: Today)
    requires Books(s) && Covered(s) && b in s.bookings && SettleOrphan(owners, s, b, verdict, today).rows != s.rows
    ensures Covered(SettleOrphan(owners, s, b, verdict, today))
  {
    CreditCovered(owners, s, SettleOrphan(owners, s, b, verdict, today).(rows := s.rows), s.bookings[b].field,
                  s.bookings[b].total,
                  if b in s.payments then FromPayment(s.payments[b].id) else FromBooking(b), today);
  }

  lemma StepCovered(owners: map<Id, Id>, s: State, e: Event)
    requires Books(s) && Covered(s) && Possible(s, e) && RefundCovered(s, e)
    ensures Covered(Step(owners, s, e))
  {
    match e
    case Book(_, _, _, _, _, _, _) => QuietCovered(s, Step(owners, s, e));
    case Initiate(b, ask, now, id, answer) => QuietCovered(s, InitiatePayment(s, b, ask, now, id, answer).0);
    case Webhook(_, _, _, _) => SettleCovered(owners, s, e);
    case Reconcile(_, _, _, _) => SettleCovered(owners, s, e);
    case Withdraw(owner, amount, bank, operator, today) => OpenCovered(s, owner, amount, bank, operator, today);
    case CashOut(n, ok, today) => CloseCovered(s, n, ok, today);
    case Validate(n, approve, today) => ValidateCovered(s, n, approve, today);
    case AskCancel(b, viewer) => QuietCovered(s, RequestCancellation(owners, s, b, viewer).0);
    case JudgeCancel(k, caller, approve, consumed, today) => JudgeCovered(s, k, caller, approve, consumed, today);
    case PayBack(k, ok, today) => PayBackCovered(s, k, ok, today);
  }

  lemma QuietCovered(s: State, s': State)
    requires Covered(s) && s'.rows == s.rows && s'.withdrawals == s.withdrawals
    ensures Covered(s')
  {
    assert forall o: Id :: Available(s', o) == Available(s, o);
  }

  ghost predicate RefundsCovered(owners: map<Id, Id>, es: seq<Event>) {
    forall i :: 0 <= i < |es| ==> RefundCovered(Run(owners, es[..i]), es[i])
  }

  /** Along any run whose approved cancellations were covered by the available balance, no owner's available balance is
      ever negative, and so neither is any ledger balance; cash-outs may fail, and any step may come in between. */
  lemma NeverOverdrawn(owners: map<Id, Id>, es: seq<Event>, owner: Id)
    requires PossibleRun(owners, es) && RefundsCovered(owners, es)
    ensures Available(Run(owners, es), owner) >= 0 && Balance(Run(owners, es).rows, owner) >= 0
  {
    LedgerReconciles(owners, es);
    RunCovered(owners, es);
    PendingNotNegative(Run(owners, es).withdrawals, owner, PENDING_VALIDATION);
  }

  lemma {:induction false} RunCovered(owners: map<Id, Id>, es: seq<Event>)
    requires PossibleRun(owners, es) && RefundsCovered(owners, es)
    ensures Covered(Run(owners, es))
  {
    if es != [] {
      var prefix, e := es[..|es| - 1], es[|es| - 1];
      LastEvent(owners, es);
      assert RefundsCovered(owners, prefix) by {
        assert forall i :: 0 <= i < |prefix| ==> prefix[..i] == es[..i];
      }
      RunCovered(owners, prefix);
      LedgerReconciles(owners, prefix);
      assert RefundCovered(Run(owners, prefix), e);
      StepCovered(owners, Run(owners, prefix), e);
    }
  }

  // ---- a run that overdraws ----------------------------------------------------------------------------------------

  const OWNERS := map["field" := "owner"]
  const REQUEST := BookingRequest("field", "schedule", "2026-01-01", 600, 1)

  /** A booking of 1000 confirmed by reconciliation, a bank transfer of 900 awaiting validation, the booking's
      cancellation approved, and the transfer approved. */
  function Overdraft(today: Today): seq<Event> {
    [Book(REQUEST, Some(true), Some(ScheduleRow(60, 1000, None)), Some("client"), 0, "b", None),
     Reconcile("b", Paid, 0, today), AskCancel("b", AsClient("client")), Withdraw("owner", 900, true, false, today),
     JudgeCancel(0, "owner", true, false, today), Validate(0, true, today)]
  }

  /** The refund of 990 passes the ledger guard although the transfer of 909 is pending; the owner ends 899 short. */
  lemma RefundCanOverdraw(today: Today)
    ensures PossibleRun(OWNERS, Overdraft(today))
    ensures Balance(Run(OWNERS, Overdraft(today)).rows, "owner") == -899
  {
    var es := Overdraft(today);
    var states := VisitedStates(OWNERS, es);
    PossibleVisits(OWNERS, es, states);
    AfterReconcile(es, states, today);
    AfterTransfer(es, states);
    AfterApprovals(es, states, today);
  }

  lemma AfterReconcile(es: seq<Event>, ss: seq<State>, today: Today)
    requires Visits(OWNERS, es, ss) && |es| == 6
    requires es[0] == Book(REQUEST, Some(true), Some(ScheduleRow(60, 1000, None)), Some("client"), 0, "b", None)
    requires es[1] == Reconcile("b", Paid, 0, today)
    ensures "b" in ss[2].bookings && ss[2].bookings["b"].total == 1000 && ss[2].bookings["b"].status == CONFIRMED
    ensures ss[2].bookings["b"].field == "field" && ss[2].bookings["b"].client == "client" && ss[2].payments == map[]
    ensures ss[2].requests == [] && ss[2].withdrawals == [] && Balance(ss[2].rows, "owner") == 1000
  {
    assert ss[1] == Step(OWNERS, EMPTY, es[0]);
    assert ss[2] == Step(OWNERS, ss[1], es[1]);
  }

  lemma AfterTransfer(es: seq<Event>, ss: seq<State>)
    requires Visits(OWNERS, es, ss) && |es| == 6 && es[2] == AskCancel("b", AsClient("client"))
    requires es[3].Withdraw? && es[3].owner == "owner" && es[3].amount == 900 && es[3].bank
    requires "b" in ss[2].bookings && ss[2].bookings["b"].status == CONFIRMED && ss[2].bookings["b"].field == "field"
    requires ss[2].bookings["b"].client == "client" && ss[2].requests == [] && ss[2].withdrawals == []
    requires Balance(ss[2].rows, "owner") == 1000
    ensures ss[4].bookings == ss[2].bookings && ss[4].rows == ss[2].rows
    ensures ss[4].requests == [CancelRequest("b", "owner", REQUESTED, NotDue)]
    ensures |ss[4].withdrawals| == 1
    ensures ss[4].withdrawals[0].(sending := false) == Withdrawal("owner", 900, 9, true, PENDING_VALIDATION, false)
  {
    assert ss[3] == Step(OWNERS, ss[2], es[2]);
    assert ss[4] == Step(OWNERS, ss[3], es[3]);
    assert Finance.WithdrawalFee(900) == 9;
  }

  lemma AfterApprovals(es: seq<Event>, ss: seq<State>, today: Today)
    requires Visits(OWNERS, es, ss) && |es| == 6
    requires es[4] == JudgeCancel(0, "owner", true, false, today) && es[5] == Validate(0, true, today)
    requires "b" in ss[4].bookings && ss[4].bookings["b"].total == 1000 && Balance(ss[4].rows, "owner") == 1000
    requires ss[4].requests == [CancelRequest("b", "owner", REQUESTED, NotDue)] && |ss[4].withdrawals| == 1
    requires ss[4].withdrawals[0].(sending := false) == Withdrawal("owner", 900, 9, true, PENDING_VALIDATION, false)
    ensures Balance(ss[6].rows, "owner") == -899
  {
    assert ss[5] == Step(OWNERS, ss[4], es[4]);
    assert ss[6] == Step(OWNERS, ss[5], es[5]);
    assert Finance.RefundAmount(1000) == 990;
    assert ss[5].rows == Enter(ss[4].rows, today, "owner", REFUND_DEBIT, DEBIT, 990, FromRefund(0));
    assert ss[6].rows == Enter(ss[5].rows, today, "owner", WITHDRAWAL_DEBIT, DEBIT, 909, FromWithdrawal(0));
  }
}
