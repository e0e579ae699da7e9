/** What withdrawals and refunds leave in the ledger and their own tables, step by step and over every run: which answer
    takes the owner's money, and which one gives it back. */
module MoneyOutcomes {
  import opened Wrappers
  import opened SlotTime
  import opened Ledger
  import opened BookingModel
  import opened Sums
  import Finance

  // ---- the ledger --------------------------------------------------------------------------------------------------

  /** One row more, of this kind, with the owner's balance before and after it. */
  ghost predicate OneMore(rows: seq<Row>, rows': seq<Row>, owner: Id, rowType: RowType, direction: Direction,
                          amount: int, source: Source)
  {
    && |rows'| == |rows| + 1 && rows'[..|rows|] == rows
    && var row := rows'[|rows|];
    && row.owner == owner && row.rowType == rowType && row.direction == direction && row.amount == amount
    && row.source == source && row.before == Balance(rows, owner)
    && row.after == row.before + (if direction == CREDIT then amount else -amount)
    && (forall o :: Balance(rows', o)
          == Balance(rows, o) + (if o != owner then 0 else if direction == CREDIT then amount else -amount))
  }

  lemma EnterAdds(rows: seq<Row>, today: Today, owner: Id, rowType: RowType, direction: Direction, amount: int,
                  source: Source)
    ensures OneMore(rows, Enter(rows, today, owner, rowType, direction, amount, source), owner, rowType, direction,
                    amount, source)
  {
    forall o
      ensures Balance(Enter(rows, today, owner, rowType, direction, amount, source), o)
           == Balance(rows, o) + (if o != owner then 0 else if direction == CREDIT then amount else -amount)
    {
      BalanceOfPost(rows, today, Posting(owner, rowType, direction, amount, Balance(rows, owner), source), o);
    }
  }

  /** Amounts and fees of an owner's transfers that await validation. */
  function Awaiting(ws: seq<Withdrawal>, owner: Id): int {
    if ws == [] then 0
    else
      var w := ws[|ws| - 1];
      Awaiting(ws[..|ws| - 1], owner)
      + if w.owner == owner && w.status == PENDING_VALIDATION then w.amount + w.fee else 0
  }

  /** What an owner can draw on. */
  function Free(s: State, owner: Id): int {
    Balance(s.rows, owner) - Awaiting(s.withdrawals, owner)
  }

  lemma {:induction false} AwaitingIsSum(ws: seq<Withdrawal>, owner: Id)
    ensures Awaiting(ws, owner) == SumOf(ws, owner, PENDING_VALIDATION)
  {
    if ws != [] {
      AwaitingIsSum(ws[..|ws| - 1], owner);
    }
  }

  function Waits(w: Withdrawal, owner: Id): int {
    if w.owner == owner && w.status == PENDING_VALIDATION then w.amount + w.fee else 0
  }

  lemma AwaitingUpdate(ws: seq<Withdrawal>, n: nat, w: Withdrawal, owner: Id)
    requires n < |ws|
    ensures Awaiting(ws[n := w], owner) == Awaiting(ws, owner) - Waits(ws[n], owner) + Waits(w, owner)
  {
    AwaitingIsSum(ws, owner);
    AwaitingIsSum(ws[n := w], owner);
    SumUpdate(ws, n, w, ShareOf(owner, PENDING_VALIDATION));
  }

  lemma AwaitingAppend(ws: seq<Withdrawal>, w: Withdrawal, owner: Id)
    ensures Awaiting(ws + [w], owner) == Awaiting(ws, owner) + Waits(w, owner)
  {
    assert (ws + [w])[..|ws|] == ws;
  }

  // ---- withdrawals -------------------------------------------------------------------------------------------------

  /** 1%, rounded to whole francs with halves up. */
  function OnePercent(n: int): int {
    (2 * n + 100) / 200
  }

  /** Only ledger and withdrawals have changed. */
  predicate OnlyMoney(s: State, s': State) {
    s' == s.(rows := s'.rows, withdrawals := s'.withdrawals)
  }

  /** A withdrawal is refused if and only if amount and fee exceed what is free. A transfer by mobile money is debited
      at once; a bank transfer only waits. */
  lemma RequestOutcome(s: State, owner: Id, amount: int, bank: bool, operator: bool, today: Today)
    ensures
      var (s', reply) := OpenWithdrawal(s, owner, amount, bank, operator, today);
      var fee := OnePercent(amount);
      if Free(s, owner) < amount + fee then (s', reply) == (s, Refused(INSUFFICIENT_BALANCE))
      else
        && reply == Done(owner) && OnlyMoney(s, s')
        && s'.withdrawals
          == s.withdrawals + [Withdrawal(owner, amount, fee, bank,
                                         if bank then PENDING_VALIDATION else PROCESSED, operator && !bank)]
        && Free(s', owner) == Free(s, owner) - amount - fee
        && (if bank then s'.rows == s.rows
            else OneMore(s.rows, s'.rows, owner, WITHDRAWAL_DEBIT, DEBIT, amount + fee, FromOwner(owner)))
  {
    var s', fee := OpenWithdrawal(s, owner, amount, bank, operator, today).0, OnePercent(amount);
    RequestMoves(s, owner, amount, bank, operator, today);
    if Free(s, owner) >= amount + fee {
      EnterAdds(s.rows, today, owner, WITHDRAWAL_DEBIT, DEBIT, amount + fee, FromOwner(owner));
      FreeAfter(s, s', s'.withdrawals[|s.withdrawals|]);
    }
  }

  lemma RequestMoves(s: State, owner: Id, amount: int, bank: bool, operator: bool, today: Today)
    ensures
      var (s', reply) := OpenWithdrawal(s, owner, amount, bank, operator, today);
      var fee := OnePercent(amount);
      if Free(s, owner) < amount + fee then (s', reply) == (s, Refused(INSUFFICIENT_BALANCE))
      else
        && reply == Done(owner) && OnlyMoney(s, s')
        && s'.withdrawals
          == s.withdrawals + [Withdrawal(owner, amount, fee, bank,
                                         if bank then PENDING_VALIDATION else PROCESSED, operator && !bank)]
        && s'.rows
          == if bank then s.rows
             else Enter(s.rows, today, owner, WITHDRAWAL_DEBIT, DEBIT, amount + fee, FromOwner(owner))
  {
    Finance.WithdrawalIsRatio(amount);
    AwaitingIsSum(s.withdrawals, owner);
  }

  /** A withdrawal more, which waits or has been debited. */
  lemma FreeAfter(s: State, s': State, w: Withdrawal)
    requires s'.withdrawals == s.withdrawals + [w] && w.status == if w.bank then PENDING_VALIDATION else PROCESSED
    requires Balance(s'.rows, w.owner) == Balance(s.rows, w.owner) - if w.bank then 0 else w.amount + w.fee
    ensures Free(s', w.owner) == Free(s, w.owner) - w.amount - w.fee
  {
    AwaitingAppend(s.withdrawals, w, w.owner);
  }

  /** A cash-out that succeeds leaves the ledger; one that fails rejects the withdrawal and gives amount and fee
      back. */
  lemma CashOutOutcome(s: State, n: nat, ok: bool, today: Today)
    ensures
      var s' := CloseWithdrawal(s, n, ok, today);
      if n >= |s.withdrawals| || !s.withdrawals[n].sending then s' == s
      else
        var w := s.withdrawals[n];
        && OnlyMoney(s, s')
        && s'.withdrawals == s.withdrawals[n := w.(sending := false, status := if ok then w.status else REJECTED)]
        && (if ok then s'.rows == s.rows
            else OneMore(s.rows, s'.rows, w.owner, REFUND_CREDIT, CREDIT, w.amount + w.fee, FromWithdrawal(n)))
  {
    if n < |s.withdrawals| {
      var w := s.withdrawals[n];
      EnterAdds(s.rows, today, w.owner, REFUND_CREDIT, CREDIT, w.amount + w.fee, FromWithdrawal(n));
    }
  }

  /** A mobile withdrawal and the answer to its cash-out together take amount and fee if the provider paid, and nothing
      if it did not. */
  lemma WithdrawnIfSent(s: State, owner: Id, amount: int, ok: bool, today: Today, later: Today)
    requires amount + OnePercent(amount) <= Free(s, owner)
    ensures
      var s1 := OpenWithdrawal(s, owner, amount, false, true, today).0;
      var s' := CloseWithdrawal(s1, |s.withdrawals|, ok, later);
      && |s'.withdrawals| == |s.withdrawals| + 1
      && Balance(s'.rows, owner) == Balance(s.rows, owner) - (if ok then amount + OnePercent(amount) else 0)
      && s'.withdrawals[|s.withdrawals|].status == (if ok then PROCESSED else REJECTED)
  {
    RequestOutcome(s, owner, amount, false, true, today);
    CashOutOutcome(OpenWithdrawal(s, owner, amount, false, true, today).0, |s.withdrawals|, ok, later);
  }

  /** Of a transfer that awaits validation, approval takes amount and fee from the ledger, and a rejection frees them
      again and leaves the ledger; every other withdrawal stays, and one that does not await validation is refused. */
  lemma ValidationOutcome(s: State, n: nat, approve: bool, today: Today, o: Id)
    ensures
      var (s', reply) := ValidateWithdrawal(s, n, approve, today);
      if n >= |s.withdrawals| || s.withdrawals[n].status != PENDING_VALIDATION then
        (s', reply) == (s, Refused(WITHDRAWAL_NOT_PENDING))
      else
        var w := s.withdrawals[n];
        && reply == Done(w.owner) && OnlyMoney(s, s')
        && s'.withdrawals == s.withdrawals[n := w.(status := if approve then PROCESSED else REJECTED)]
        && (if approve then
              OneMore(s.rows, s'.rows, w.owner, WITHDRAWAL_DEBIT, DEBIT, w.amount + w.fee, FromWithdrawal(n))
            else s'.rows == s.rows)
        && Free(s', o) == Free(s, o) + (if approve || o != w.owner then 0 else w.amount + w.fee)
  {
    if n < |s.withdrawals| && s.withdrawals[n].status == PENDING_VALIDATION {
      var w := s.withdrawals[n];
      EnterAdds(s.rows, today, w.owner, WITHDRAWAL_DEBIT, DEBIT, w.amount + w.fee, FromWithdrawal(n));
      AwaitingUpdate(s.withdrawals, n, w.(status := if approve then PROCESSED else REJECTED), o);
    }
  }

  // ---- refunds -----------------------------------------------------------------------------------------------------

  /** 99%, rounded to whole francs with halves up. */
  function NinetyNinePercent(n: int): int {
    (198 * n + 100) / 200
  }

  /** The payment says where to send money to. */
  predicate Sendable(s: State, b: Id) {
    && b in s.payments && s.payments[b].operator != ""
    && s.payments[b].phone.Some? && s.payments[b].phone.value != ""
  }

  /** Only the owner of the field may judge an open request. A rejection only declines it. An approval is refused once
      the booking is consumed, or where the owner's ledger has less than 99% of the price; else it debits those, cancels
      the booking and approves the request, and the refund is sent if the payment says where to. */
  lemma JudgeOutcome(s: State, k: nat, caller: Id, approve: bool, consumed: bool, today: Today)
    ensures
      var (s', reply) := ValidateCancellation(s, k, caller, approve, consumed, today);
      if k >= |s.requests| || s.requests[k].owner != caller || s.requests[k].booking !in s.bookings then
        (s', reply) == (s, Refused(REQUEST_NOT_FOUND))
      else if s.requests[k].status != REQUESTED then (s', reply) == (s, Refused(REQUEST_PROCESSED))
      else
        var r, b := s.requests[k], s.requests[k].booking;
        var a := NinetyNinePercent(s.bookings[b].total);
        if !approve then
          reply == Done(b) && s' == s.(requests := s.requests[k := r.(status := DECLINED)])
        else if consumed then (s', reply) == (s, Refused(ALREADY_CONSUMED))
        else if Balance(s.rows, caller) < a then (s', reply) == (s, Refused(INSUFFICIENT_BALANCE))
        else
          && reply == Done(b)
          && s' == s.(rows := s'.rows, bookings := s.bookings[b := s.bookings[b].(status := CANCELLED)],
                      requests := s.requests[
                        k := r.(status := APPROVED, refund := if Sendable(s, b) then Sending(a) else Kept(a))])
          && OneMore(s.rows, s'.rows, caller, REFUND_DEBIT, DEBIT, a, FromRefund(k))
  {
    if k < |s.requests| && s.requests[k].booking in s.bookings {
      var total := s.bookings[s.requests[k].booking].total;
      Finance.WithdrawalIsRatio(total);
      EnterAdds(s.rows, today, caller, REFUND_DEBIT, DEBIT, NinetyNinePercent(total), FromRefund(k));
    }
  }

  /** A refund that is paid out is Sent and leaves the ledger; one that is not is Returned, and credited back. */
  lemma PayBackOutcome(s: State, k: nat, ok: bool, today: Today)
    ensures
      var s' := CloseRefund(s, k, ok, today);
      if k >= |s.requests| || !s.requests[k].refund.Sending? then s' == s
      else
        var r, a := s.requests[k], s.requests[k].refund.amount;
        && s' == s.(rows := s'.rows,
                    requests := s.requests[k := r.(refund := if ok then Sent(a) else Returned(a))])
        && (if ok then s'.rows == s.rows
            else OneMore(s.rows, s'.rows, r.owner, REFUND_CREDIT, CREDIT, a, FromRefund(k)))
  {
    if k < |s.requests| && s.requests[k].refund.Sending? {
      var r := s.requests[k];
      EnterAdds(s.rows, today, r.owner, REFUND_CREDIT, CREDIT, r.refund.amount, FromRefund(k));
    }
  }

  /** An approved refund that can be sent, and the answer to its cash-out together: the owner pays it if and only if the
      client got it. */
  lemma RefundPaidIfSent(s: State, k: nat, caller: Id, ok: bool, today: Today, later: Today)
    requires k < |s.requests| && s.requests[k].owner == caller && s.requests[k].status == REQUESTED
    requires s.requests[k].booking in s.bookings && Sendable(s, s.requests[k].booking)
    requires NinetyNinePercent(s.bookings[s.requests[k].booking].total) <= Balance(s.rows, caller)
    ensures
      var s1 := ValidateCancellation(s, k, caller, true, false, today).0;
      var s' := CloseRefund(s1, k, ok, later);
      var b, a := s.requests[k].booking, NinetyNinePercent(s.bookings[s.requests[k].booking].total);
      && |s'.requests| == |s.requests| && b in s'.bookings && s'.bookings[b].status == CANCELLED
      && s'.requests[k].refund == (if ok then Sent(a) else Returned(a))
      && Balance(s'.rows, caller) == Balance(s.rows, caller) - (if ok then a else 0)
      && OneMore(s.rows, s'.rows[..|s.rows| + 1], caller, REFUND_DEBIT, DEBIT, a, FromRefund(k))
      && (ok ==> |s'.rows| == |s.rows| + 1)
      && (!ok ==> OneMore(s'.rows[..|s.rows| + 1], s'.rows, caller, REFUND_CREDIT, CREDIT, a, FromRefund(k)))
  {
    var s1 := ValidateCancellation(s, k, caller, true, false, today).0;
    JudgeOutcome(s, k, caller, true, false, today);
    PayBackOutcome(s1, k, ok, later);
    var s' := CloseRefund(s1, k, ok, later);
    assert s'.rows[..|s.rows| + 1] == s1.rows;
  }

  // ---- reconciliation ----------------------------------------------------------------------------------------------

  /** Booking b gets this status and its payment, if it has one, that one; nothing else about them changes but the place
      among the confirmed. */
  predicate Ends(s: State, s': State, b: Id, booking: BookingStatus, payment: PaymentStatus)
    requires b in s.bookings
  {
    && b in s'.bookings && s'.bookings == s.bookings[b := s.bookings[b].(status := booking,
                                                                         confirmed := s'.bookings[b].confirmed)]
    && s'.payments
      == (if b in s.payments then s.payments[b := s.payments[b].(status := payment)] else s.payments)
    && s' == s.(bookings := s'.bookings, payments := s'.payments, rows := s'.rows, confirmations := s'.confirmations)
  }

  /** Reconciliation acts on bookings pending since the threshold only. One reported paid is confirmed and its owner
      credited its full price, under its payment's id or else its own; one reported unpaid is cancelled, one that lapsed
      expires, and one that is still open, or whose report failed, stays. */
  lemma ReconcileOutcome(owners: map<Id, Id>, s: State, b: Id, verdict: Verdict, threshold: int, today: Today)
    ensures
      var s' := Step(owners, s, Reconcile(b, verdict, threshold, today));
      if b !in s.bookings || s.bookings[b].status != PENDING_PAYMENT || s.bookings[b].createdAt > threshold
         || verdict == Open || verdict == Threw
      then s' == s
      else if verdict == Unpaid then Ends(s, s', b, CANCELLED, FAILED) && s'.rows == s.rows
      else if verdict == Lapsed then Ends(s, s', b, EXPIRED, FAILED) && s'.rows == s.rows
      else
        var field := s.bookings[b].field;
        && Ends(s, s', b, CONFIRMED, SUCCESS)
        && s'.bookings[b].confirmed == s'.confirmations == s.confirmations + 1
        && (if field !in owners then s'.rows == s.rows
            else
              OneMore(s.rows, s'.rows, owners[field], BOOKING_CREDIT, CREDIT, s.bookings[b].total,
                      if b in s.payments then FromPayment(s.payments[b].id) else FromBooking(b)))
  {
    if b in s.bookings && s.bookings[b].field in owners {
      EnterAdds(s.rows, today, owners[s.bookings[b].field], BOOKING_CREDIT, CREDIT, s.bookings[b].total,
                if b in s.payments then FromPayment(s.payments[b].id) else FromBooking(b));
    }
  }

  // ---- over every run ----------------------------------------------------------------------------------------------

  /** What the rows written for one source add up to. */
  function NetFrom(rows: seq<Row>, source: Source): int {
    if rows == [] then 0
    else
      var row := rows[|rows| - 1];
      NetFrom(rows[..|rows| - 1], source)
      + if row.source != source then 0 else if row.direction == CREDIT then row.amount else -row.amount
  }

  lemma NetOfOneMore(rows: seq<Row>, rows': seq<Row>, owner: Id, rowType: RowType, direction: Direction, amount: int,
                     source: Source, of: Source)
    requires OneMore(rows, rows', owner, rowType, direction, amount, source)
    ensures NetFrom(rows', of)
         == NetFrom(rows, of) + (if of != source then 0 else if direction == CREDIT then amount else -amount)
  {
  }

  /** What a request has cost the owner so far. */
  function Cost(refund: Refund): int {
    match refund
    case NotDue => 0
    case Returned(_) => 0
    case Sending(a) => a
    case Sent(a) => a
    case Kept(a) => a
  }

  ghost predicate RefundRows(s: State) {
    && (forall k: nat :: NetFrom(s.rows, FromRefund(k)) == if k < |s.requests| then -Cost(s.requests[k].refund) else 0)
    && (forall k :: 0 <= k < |s.requests| && s.requests[k].status == REQUESTED ==> s.requests[k].refund == NotDue)
  }

  lemma JudgeRows(s: State, k: nat, caller: Id, approve: bool, consumed: bool, today: Today)
    requires RefundRows(s)
    ensures RefundRows(ValidateCancellation(s, k, caller, approve, consumed, today).0)
  {
    var s' := ValidateCancellation(s, k, caller, approve, consumed, today).0;
    JudgeOutcome(s, k, caller, approve, consumed, today);
    if s'.rows != s.rows {
      var a := NinetyNinePercent(s.bookings[s.requests[k].booking].total);
      forall j: nat
        ensures NetFrom(s'.rows, FromRefund(j)) == NetFrom(s.rows, FromRefund(j)) - (if j == k then a else 0)
      {
        NetOfOneMore(s.rows, s'.rows, caller, REFUND_DEBIT, DEBIT, a, FromRefund(k), FromRefund(j));
      }
    }
  }

  lemma PayBackRows(s: State, k: nat, ok: bool, today: Today)
    requires RefundRows(s)
    ensures RefundRows(CloseRefund(s, k, ok, today))
  {
    var s' := CloseRefund(s, k, ok, today);
    PayBackOutcome(s, k, ok, today);
    if k < |s.requests| && s.requests[k].refund.Sending? && !ok {
      var r, a := s.requests[k], s.requests[k].refund.amount;
      forall j: nat
        ensures NetFrom(s'.rows, FromRefund(j)) == NetFrom(s.rows, FromRefund(j)) + (if j == k then a else 0)
      {
        NetOfOneMore(s.rows, s'.rows, r.owner, REFUND_CREDIT, CREDIT, a, FromRefund(k), FromRefund(j));
      }
    }
  }

  /** No other step writes for a refund, or changes what became of one. */
  ghost predicate NoRefund(s: State, s': State) {
    && (forall k: nat :: NetFrom(s'.rows, FromRefund(k)) == NetFrom(s.rows, FromRefund(k)))
    && s'.requests == s.requests
  }

  lemma WithdrawNoRefund(owners: map<Id, Id>, s: State, e: Event)
    requires e.Withdraw? || e.CashOut? || e.Validate?
    ensures NoRefund(s, Step(owners, s, e))
  {
  }

  lemma BookingNoRefund(owners: map<Id, Id>, s: State, e: Event)
    requires e.Book? || e.Initiate?
    ensures NoRefund(s, Step(owners, s, e))
  {
  }

  lemma WebhookNoRefund(owners: map<Id, Id>, s: State, e: Event)
    requires e.Webhook?
    ensures NoRefund(s, Step(owners, s, e))
  {
  }

  lemma ReconcileNoRefund(owners: map<Id, Id>, s: State, e: Event)
    requires e.Reconcile?
    ensures NoRefund(s, Step(owners, s, e))
  {
  }

  lemma AskRows(owners: map<Id, Id>, s: State, b: Id, viewer: Viewer)
    requires RefundRows(s)
    ensures RefundRows(RequestCancellation(owners, s, b, viewer).0)
  {
  }

  lemma StepRows(owners: map<Id, Id>, s: State, e: Event)
    requires RefundRows(s)
    ensures RefundRows(Step(owners, s, e))
  {
    match e
    case AskCancel(b, viewer) => AskRows(owners, s, b, viewer);
    case JudgeCancel(k, caller, approve, consumed, today) => JudgeRows(s, k, caller, approve, consumed, today);
    case PayBack(k, ok, today) => PayBackRows(s, k, ok, today);
    case Webhook(_, _, _, _) => WebhookNoRefund(owners, s, e);
    case Reconcile(_, _, _, _) => ReconcileNoRefund(owners, s, e);
    case Book(_, _, _, _, _, _, _) => BookingNoRefund(owners, s, e);
    case Initiate(_, _, _, _, _) => BookingNoRefund(owners, s, e);
    case _ => WithdrawNoRefund(owners, s, e);
  }

  /** After every run the rows of each request add up to what it costs the owner: the refund, if it was kept or sent or
      is still being sent, and nothing if it was returned or never due. */
  lemma {:induction false} RefundsCost(owners: map<Id, Id>, es: seq<Event>)
    ensures RefundRows(Run(owners, es))
  {
    if es != [] {
      RefundsCost(owners, es[..|es| - 1]);
      StepRows(owners, Run(owners, es[..|es| - 1]), es[|es| - 1]);
    }
  }

  /** The i-th event is the provider's answer to the refund a of request k. */
  predicate Answers(owners: map<Id, Id>, es: seq<Event>, i: nat, k: nat, a: int) {
    && i < |es| && es[i].PayBack? && es[i].k == k
    && k < |Run(owners, es[..i]).requests| && Run(owners, es[..i]).requests[k].refund == Sending(a)
  }

  lemma RefundStays(owners: map<Id, Id>, s: State, e: Event, k: nat)
    requires RefundRows(s) && k < |s.requests| && (s.requests[k].refund.Sent? || s.requests[k].refund.Returned?)
    ensures k < |Step(owners, s, e).requests| && Step(owners, s, e).requests[k].refund == s.requests[k].refund
  {
    match e
    case AskCancel(_, _) =>
    case JudgeCancel(j, caller, approve, consumed, today) => JudgeOutcome(s, j, caller, approve, consumed, today);
    case PayBack(j, ok, today) => PayBackOutcome(s, j, ok, today);
    case Webhook(_, _, _, _) => WebhookNoRefund(owners, s, e);
    case Reconcile(_, _, _, _) => ReconcileNoRefund(owners, s, e);
    case Book(_, _, _, _, _, _, _) => BookingNoRefund(owners, s, e);
    case Initiate(_, _, _, _, _) => BookingNoRefund(owners, s, e);
    case _ => WithdrawNoRefund(owners, s, e);
  }

  /** Over every run the provider's answer decides a refund for good: paid out, it is Sent and the owner is out of it;
      not paid out, it is Returned and has cost the owner nothing. */
  lemma {:induction false} AnswerDecides(owners: map<Id, Id>, es: seq<Event>, i: nat, k: nat, a: int)
    requires Answers(owners, es, i, k, a)
    ensures
      var s := Run(owners, es);
      && k < |s.requests| && s.requests[k].refund == (if es[i].ok then Sent(a) else Returned(a))
      && NetFrom(s.rows, FromRefund(k)) == (if es[i].ok then -a else 0)
  {
    var prefix, e := es[..|es| - 1], es[|es| - 1];
    RefundsCost(owners, es);
    RefundsCost(owners, prefix);
    if i == |es| - 1 {
      PayBackOutcome(Run(owners, prefix), k, e.ok, e.today);
    } else {
      assert prefix[..i] == es[..i];
      AnswerDecides(owners, prefix, i, k, a);
      RefundStays(owners, Run(owners, prefix), e, k);
    }
  }
}
