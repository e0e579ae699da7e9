/** Exactly-once credit: however payments are opened, webhooks delivered and orphans reconciled, the owner is credited
    once for a paid booking and never for another. */
module ExactlyOnce {
  import opened Wrappers
  import opened SlotTime
  import opened Ledger
  import opened BookingModel

  /** A booking's status agrees with its payment and with whether it was ever confirmed. */
  ghost predicate StatusOk(s: State, b: Id)
    requires b in s.bookings
  {
    var bk := s.bookings[b];
    && (bk.status == CONFIRMED ==> bk.confirmed > 0)
    && (bk.status == PENDING_PAYMENT ==> bk.confirmed == 0)
    && (b in s.payments && bk.status == PENDING_PAYMENT ==> s.payments[b].status == PENDING)
    && (b in s.payments ==> (s.payments[b].status == SUCCESS <==> bk.confirmed > 0))
  }

  /** The one id a booking is credited under: its payment's, or its own when it was confirmed without a payment. */
  ghost function CreditSource(s: State, b: Id): Source {
    if b in s.payments then FromPayment(s.payments[b].id) else FromBooking(b)
  }

  ghost predicate Due(owners: map<Id, Id>, s: State, b: Id) {
    b in s.bookings && s.bookings[b].confirmed > 0 && s.bookings[b].field in owners
  }

  /** The sources of all bookings that were ever confirmed on an owned field. */
  ghost function DueSources(owners: map<Id, Id>, s: State): set<Source> {
    set b | b in s.bookings && Due(owners, s, b) :: CreditSource(s, b)
  }

  ghost predicate DistinctIds(s: State) {
    forall b, c :: b in s.payments && c in s.payments && b != c ==> s.payments[b].id != s.payments[c].id
  }

  /** Every due source was credited, each once, and nothing else was. */
  ghost predicate Valid(owners: map<Id, Id>, s: State) {
    && s.payments.Keys <= s.bookings.Keys
    && DistinctIds(s)
    && (forall b :: b in s.bookings ==> StatusOk(s, b))
    && CreditedSources(s.rows) == multiset(DueSources(owners, s))
  }

  // ---- each handler ----------------------------------------------------------------------------------------------

  lemma CreditedByEnter(rows: seq<Row>, today: Today, owner: Id, rowType: RowType, direction: Direction, amount: int,
                        source: Source)
    ensures CreditedSources(Enter(rows, today, owner, rowType, direction, amount, source))
         == CreditedSources(rows) + if rowType == BOOKING_CREDIT then multiset{source} else multiset{}
  {
  }

  ghost predicate OnlyTouched(s: State, s': State, b: Id) {
    && s'.bookings.Keys + {b} == s.bookings.Keys + {b}
    && s'.payments.Keys + {b} == s.payments.Keys + {b}
    && (forall c :: c in s.bookings && c != b ==> s'.bookings[c] == s.bookings[c])
    && (forall c :: c in s.payments && c != b ==> s'.payments[c] == s.payments[c])
    && b in s'.bookings
  }

  /** A step that touches one never-confirmed booking and its payment, and credits it exactly when it confirms it. */
  lemma TouchKeeps(owners: map<Id, Id>, s: State, s': State, b: Id)
    requires Valid(owners, s) && OnlyTouched(s, s', b)
    requires (b in s.bookings ==> s.bookings[b].confirmed == 0) && StatusOk(s', b)
    requires b in s'.payments ==> forall c :: c in s.payments && c != b ==> s.payments[c].id != s'.payments[b].id
    requires CreditedSources(s'.rows)
      == CreditedSources(s.rows) + if Due(owners, s', b) then multiset{CreditSource(s', b)} else multiset{}
    ensures Valid(owners, s')
  {
    TouchKeepsStatus(s, s', b);
    TouchKeepsIds(s, s', b);
    TouchMovesDue(owners, s, s', b);
  }

  lemma TouchKeepsStatus(s: State, s': State, b: Id)
    requires OnlyTouched(s, s', b) && s.payments.Keys <= s.bookings.Keys && StatusOk(s', b)
    requires forall c :: c in s.bookings ==> StatusOk(s, c)
    ensures s'.payments.Keys <= s'.bookings.Keys
    ensures forall c :: c in s'.bookings ==> StatusOk(s', c)
  {
    forall c | c in s'.bookings && c != b
      ensures StatusOk(s', c)
    {
      SameElsewhere(s, s', b, c);
      assert StatusOk(s, c);
    }
  }

  lemma SameElsewhere(s: State, s': State, b: Id, c: Id)
    requires OnlyTouched(s, s', b) && c != b
    ensures c in s'.bookings <==> c in s.bookings
    ensures c in s'.payments <==> c in s.payments
    ensures c in s.bookings ==> s'.bookings[c] == s.bookings[c]
    ensures c in s.payments ==> s'.payments[c] == s.payments[c]
  {
    assert c in s'.bookings.Keys + {b} <==> c in s.bookings.Keys + {b};
    assert c in s'.payments.Keys + {b} <==> c in s.payments.Keys + {b};
  }

  lemma TouchKeepsIds(s: State, s': State, b: Id)
    requires OnlyTouched(s, s', b) && DistinctIds(s)
    requires b in s'.payments ==> forall c :: c in s.payments && c != b ==> s.payments[c].id != s'.payments[b].id
    ensures DistinctIds(s')
  {
    forall c | c in s'.payments && c != b
      ensures c in s.payments && s'.payments[c] == s.payments[c]
    {
      SameElsewhere(s, s', b, c);
    }
  }

  lemma TouchMovesDue(owners: map<Id, Id>, s: State, s': State, b: Id)
    requires OnlyTouched(s, s', b) && DistinctIds(s') && (b in s.bookings ==> s.bookings[b].confirmed == 0)
    ensures multiset(DueSources(owners, s'))
      == multiset(DueSources(owners, s)) + if Due(owners, s', b) then multiset{CreditSource(s', b)} else multiset{}
  {
    var due, due' := DueSources(owners, s), DueSources(owners, s');
    forall c | c != b
      ensures Due(owners, s', c) <==> Due(owners, s, c)
      ensures CreditSource(s', c) == CreditSource(s, c) != CreditSource(s', b)
    {
      SameElsewhere(s, s', b, c);
    }
    forall x
      ensures x in due' <==> x in due || (Due(owners, s', b) && x == CreditSource(s', b))
      ensures x in due ==> x != CreditSource(s', b)
    {
      if x in due {
        var c :| c in s.bookings && Due(owners, s, c) && x == CreditSource(s, c);
        assert c in s'.bookings && Due(owners, s', c) && x == CreditSource(s', c);
      }
      if x in due' {
        var c :| c in s'.bookings && Due(owners, s', c) && x == CreditSource(s', c);
        assert c != b ==> c in s.bookings && Due(owners, s, c) && x == CreditSource(s, c);
      }
    }
    if Due(owners, s', b) {
      assert due' == due + {CreditSource(s', b)};
    } else {
      assert due' == due;
    }
  }

  lemma InsertKeeps(owners: map<Id, Id>, s: State, id: Id, bk: Booking)
    requires Valid(owners, s) && id !in s.bookings && bk.status == PENDING_PAYMENT && bk.confirmed == 0
    ensures Valid(owners, s.(bookings := s.bookings[id := bk]))
  {
    TouchKeeps(owners, s, s.(bookings := s.bookings[id := bk]), id);
  }

  lemma PayKeeps(owners: map<Id, Id>, s: State, b: Id, pay: Payment)
    requires Valid(owners, s) && b in s.bookings && s.bookings[b].status == PENDING_PAYMENT && pay.status == PENDING
    requires forall c :: c in s.payments && c != b ==> s.payments[c].id != pay.id
    ensures Valid(owners, s.(payments := s.payments[b := pay]))
  {
    assert StatusOk(s, b);
    TouchKeeps(owners, s, s.(payments := s.payments[b := pay]), b);
  }

  lemma DropKeeps(owners: map<Id, Id>, s: State, b: Id, status: BookingStatus, payments: map<Id, Payment>)
    requires Valid(owners, s) && b in s.bookings && s.bookings[b].status == PENDING_PAYMENT && !status.CONFIRMED?
    requires payments == s.payments || payments == s.payments - {b}
    requires status == PENDING_PAYMENT ==> payments == s.payments
    ensures Valid(owners, WithStatus(s, b, status).(payments := payments))
  {
    var s' := WithStatus(s, b, status).(payments := payments);
    assert StatusOk(s, b);
    assert StatusOk(s', b);
    assert OnlyTouched(s, s', b);
    TouchKeeps(owners, s, s', b);
  }

  lemma BookKeeps(owners: map<Id, Id>, s: State, e: Event)
    requires e.Book? && Valid(owners, s) && Possible(s, e)
    ensures Valid(owners, Step(owners, s, e))
  {
    var s' := Step(owners, s, e);
    if s' != s {
      InsertKeeps(owners, s, e.id, s'.bookings[e.id]);
    }
  }

  lemma InitiateKeeps(owners: map<Id, Id>, s: State, b: Id, ask: Ask, now: int, newId: Id, answer: Option<string>)
    requires Valid(owners, s) && Fresh(s, newId)
    ensures Valid(owners, InitiatePayment(s, b, ask, now, newId, answer).0)
  {
    var s' := InitiatePayment(s, b, ask, now, newId, answer).0;
    if s' != s {
      if s'.bookings == s.bookings {
        PayKeeps(owners, s, b, s'.payments[b]);
      } else {
        DropKeeps(owners, s, b, s'.bookings[b].status, s'.payments);
      }
    }
  }

  lemma WebhookKeeps(owners: map<Id, Id>, s: State, b: Id, success: bool, txn: string, today: Today)
    requires Valid(owners, s)
    ensures Valid(owners, SettlePayment(owners, s, b, success, txn, today))
  {
    if b in s.payments && b in s.bookings && s.payments[b].status == PENDING {
      assert StatusOk(s, b);
      WebhookTouches(owners, s, b, success, txn, today);
      WebhookAgrees(owners, s, b, success, txn, today);
      WebhookCredits(owners, s, b, success, txn, today);
      TouchKeeps(owners, s, SettlePayment(owners, s, b, success, txn, today), b);
    }
  }

  lemma WebhookTouches(owners: map<Id, Id>, s: State, b: Id, success: bool, txn: string, today: Today)
    requires b in s.payments && b in s.bookings && s.payments[b].status == PENDING && s.bookings[b].confirmed == 0
    ensures OnlyTouched(s, SettlePayment(owners, s, b, success, txn, today), b)
  {
    var s' := SettlePayment(owners, s, b, success, txn, today);
    OneRowTouched(s, s', b);
  }

  lemma OneRowTouched(s: State, s': State, b: Id)
    requires b in s.bookings && b in s'.bookings && s'.bookings == s.bookings[b := s'.bookings[b]]
    requires b in s.payments && b in s'.payments && s'.payments == s.payments[b := s'.payments[b]]
    ensures OnlyTouched(s, s', b)
  {
  }

  lemma WebhookAgrees(owners: map<Id, Id>, s: State, b: Id, success: bool, txn: string, today: Today)
    requires b in s.payments && b in s.bookings && s.payments[b].status == PENDING && s.bookings[b].confirmed == 0
    ensures
      var s' := SettlePayment(owners, s, b, success, txn, today);
      && b in s'.bookings && StatusOk(s', b)
      && b in s'.payments && s'.payments[b].id == s.payments[b].id
  {
  }

  /** The rows a webhook leaves: one more when it confirms a booking that is due. */
  lemma WebhookRows(owners: map<Id, Id>, s: State, b: Id, success: bool, txn: string, today: Today)
    requires b in s.payments && b in s.bookings && s.payments[b].status == PENDING && s.bookings[b].confirmed == 0
    ensures
      var s' := SettlePayment(owners, s, b, success, txn, today);
      s'.rows == if !Due(owners, s', b) then s.rows
                 else
                   Enter(s.rows, today, owners[s.bookings[b].field], BOOKING_CREDIT, CREDIT,
                         Finance.SplitPayment(s.payments[b].amount).ownerCredit, FromPayment(s.payments[b].id))
  {
  }

  lemma WebhookCredits(owners: map<Id, Id>, s: State, b: Id, success: bool, txn: string, today: Today)
    requires b in s.payments && b in s.bookings && s.payments[b].status == PENDING && s.bookings[b].confirmed == 0
    ensures
      var s' := SettlePayment(owners, s, b, success, txn, today);
      CreditedSources(s'.rows)
        == CreditedSources(s.rows) + if Due(owners, s', b) then multiset{FromPayment(s.payments[b].id)} else multiset{}
  {
    WebhookRows(owners, s, b, success, txn, today);
    if s.bookings[b].field in owners {
      CreditedByEnter(s.rows, today, owners[s.bookings[b].field], BOOKING_CREDIT, CREDIT,
                      Finance.SplitPayment(s.payments[b].amount).ownerCredit, FromPayment(s.payments[b].id));
    }
  }

  lemma OrphanTouches(owners: map<Id, Id>, s: State, b: Id, verdict: Verdict, today: Today)
    requires b in s.bookings && s.bookings[b].status == PENDING_PAYMENT && StatusOk(s, b)
    ensures
      var s' := SettleOrphan(owners, s, b, verdict, today);
      && OnlyTouched(s, s', b) && StatusOk(s', b)
      && (b in s'.payments <==> b in s.payments) && (b in s.payments ==> s'.payments[b].id == s.payments[b].id)
  {
  }

  lemma OrphanCredits(owners: map<Id, Id>, s: State, b: Id, verdict: Verdict, today: Today)
    requires b in s.bookings && s.bookings[b].status == PENDING_PAYMENT && s.bookings[b].confirmed == 0
    ensures
      var s' := SettleOrphan(owners, s, b, verdict, today);
      CreditedSources(s'.rows)
        == CreditedSources(s.rows) + if Due(owners, s', b) then multiset{CreditSource(s, b)} else multiset{}
  {
    var bk := s.bookings[b];
    if bk.field in owners {
      CreditedByEnter(s.rows, today, owners[bk.field], BOOKING_CREDIT, CREDIT, bk.total, CreditSource(s, b));
    }
  }

  lemma OrphanKeeps(owners: map<Id, Id>, s: State, b: Id, verdict: Verdict, today: Today)
    requires Valid(owners, s) && b in s.bookings && s.bookings[b].status == PENDING_PAYMENT
    ensures Valid(owners, SettleOrphan(owners, s, b, verdict, today))
  {
    assert StatusOk(s, b);
    OrphanTouches(owners, s, b, verdict, today);
    OrphanCredits(owners, s, b, verdict, today);
    TouchKeeps(owners, s, SettleOrphan(owners, s, b, verdict, today), b);
  }

  /** A step that writes no booking credit and touches neither bookings nor payments. */
  ghost predicate SameSide(s: State, s': State) {
    && s'.bookings == s.bookings && s'.payments == s.payments
    && CreditedSources(s'.rows) == CreditedSources(s.rows)
  }

  lemma SameSideKeeps(owners: map<Id, Id>, s: State, s': State)
    requires Valid(owners, s) && SameSide(s, s')
    ensures Valid(owners, s')
  {
    forall b | b in s.bookings
      ensures StatusOk(s', b)
    {
      assert StatusOk(s, b);
    }
    assert forall b :: CreditSource(s', b) == CreditSource(s, b);
    assert DueSources(owners, s') == DueSources(owners, s);
  }

  /** Cancelling a confirmed booking does not undo that it was due a credit. */
  lemma CancelKeeps(owners: map<Id, Id>, s: State, b: Id)
    requires Valid(owners, s) && b in s.bookings
    ensures Valid(owners, WithStatus(s, b, CANCELLED))
  {
    var s' := WithStatus(s, b, CANCELLED);
    forall c | c in s.bookings
      ensures StatusOk(s', c)
      ensures Due(owners, s', c) <==> Due(owners, s, c)
    {
      assert StatusOk(s, c);
    }
    assert s'.bookings.Keys == s.bookings.Keys;
    assert forall c :: CreditSource(s', c) == CreditSource(s, c);
    assert DueSources(owners, s') == DueSources(owners, s);
  }

  lemma OpenSame(s: State, owner: Id, amount: int, bank: bool, operator: bool, today: Today)
    ensures SameSide(s, OpenWithdrawal(s, owner, amount, bank, operator, today).0)
  {
  }

  lemma CloseSame(s: State, n: nat, ok: bool, today: Today)
    ensures SameSide(s, CloseWithdrawal(s, n, ok, today))
  {
  }

  lemma ValidateSame(s: State, n: nat, approve: bool, today: Today)
    ensures SameSide(s, ValidateWithdrawal(s, n, approve, today).0)
  {
  }

  lemma PayBackSame(s: State, k: nat, ok: bool, today: Today)
    ensures SameSide(s, CloseRefund(s, k, ok, today))
  {
  }

  lemma OpenKeeps(owners: map<Id, Id>, s: State, owner: Id, amount: int, bank: bool, operator: bool, today: Today)
    requires Valid(owners, s)
    ensures Valid(owners, OpenWithdrawal(s, owner, amount, bank, operator, today).0)
  {
    OpenSame(s, owner, amount, bank, operator, today);
    SameSideKeeps(owners, s, OpenWithdrawal(s, owner, amount, bank, operator, today).0);
  }

  lemma CloseKeeps(owners: map<Id, Id>, s: State, n: nat, ok: bool, today: Today)
    requires Valid(owners, s)
    ensures Valid(owners, CloseWithdrawal(s, n, ok, today))
  {
    CloseSame(s, n, ok, today);
    SameSideKeeps(owners, s, CloseWithdrawal(s, n, ok, today));
  }

  lemma ValidateKeeps(owners: map<Id, Id>, s: State, n: nat, approve: bool, today: Today)
    requires Valid(owners, s)
    ensures Valid(owners, ValidateWithdrawal(s, n, approve, today).0)
  {
    ValidateSame(s, n, approve, today);
    SameSideKeeps(owners, s, ValidateWithdrawal(s, n, approve, today).0);
  }

  /** An approval cancels the booking, and credits nothing. */
  lemma JudgeSame(s: State, k: nat, caller: Id, approve: bool, consumed: bool, today: Today)
    ensures
      var (s', reply) := ValidateCancellation(s, k, caller, approve, consumed, today);
      if reply.Done? && approve then
        && k < |s.requests| && s.requests[k].booking in s.bookings
        && SameSide(WithStatus(s, s.requests[k].booking, CANCELLED), s')
      else
        SameSide(s, s')
  {
    var (s', reply) := ValidateCancellation(s, k, caller, approve, consumed, today);
    JudgeTouches(s, k, caller, approve, consumed, today);
    if reply.Done? && approve {
      var b := s.requests[k].booking;
      CreditedByEnter(s.rows, today, caller, REFUND_DEBIT, DEBIT, Finance.RefundAmount(s.bookings[b].total),
                      FromRefund(k));
    }
  }

  lemma JudgeTouches(s: State, k: nat, caller: Id, approve: bool, consumed: bool, today: Today)
    ensures
      var (s', reply) := ValidateCancellation(s, k, caller, approve, consumed, today);
      && s'.payments == s.payments
      && if reply.Done? && approve then
           && k < |s.requests| && s.requests[k].booking in s.bookings
           && var b := s.requests[k].booking;
           && s'.bookings == WithStatus(s, b, CANCELLED).bookings
           && s'.rows
             == Enter(s.rows, today, caller, REFUND_DEBIT, DEBIT, Finance.RefundAmount(s.bookings[b].total),
                      FromRefund(k))
         else
           s'.bookings == s.bookings && s'.rows == s.rows
  {
  }

  lemma JudgeKeeps(owners: map<Id, Id>, s: State, k: nat, caller: Id, approve: bool, consumed: bool, today: Today)
    requires Valid(owners, s)
    ensures Valid(owners, ValidateCancellation(s, k, caller, approve, consumed, today).0)
  {
    var (s', reply) := ValidateCancellation(s, k, caller, approve, consumed, today);
    JudgeSame(s, k, caller, approve, consumed, today);
    if reply.Done? && approve {
      var b := s.requests[k].booking;
      CancelKeeps(owners, s, b);
      SameSideKeeps(owners, WithStatus(s, b, CANCELLED), s');
    } else {
      SameSideKeeps(owners, s, s');
    }
  }

  lemma AskKeeps(owners: map<Id, Id>, s: State, b: Id, viewer: Viewer)
    requires Valid(owners, s)
    ensures Valid(owners, RequestCancellation(owners, s, b, viewer).0)
  {
    SameSideKeeps(owners, s, RequestCancellation(owners, s, b, viewer).0);
  }

  lemma PayBackKeeps(owners: map<Id, Id>, s: State, k: nat, ok: bool, today: Today)
    requires Valid(owners, s)
    ensures Valid(owners, CloseRefund(s, k, ok, today))
  {
    PayBackSame(s, k, ok, today);
    SameSideKeeps(owners, s, CloseRefund(s, k, ok, today));
  }

  lemma StepKeeps(owners: map<Id, Id>, s: State, e: Event)
    requires Valid(owners, s) && Possible(s, e)
    ensures Valid(owners, Step(owners, s, e))
  {
    match e
    case Book(_, _, _, _, _, _, _) => BookKeeps(owners, s, e);
    case Initiate(b, ask, now, id, answer) => InitiateKeeps(owners, s, b, ask, now, id, answer);
    case Webhook(b, success, txn, today) => WebhookKeeps(owners, s, b, success, txn, today);
    case Reconcile(b, verdict, threshold, today) =>
      if Orphan(s, b, threshold) {
        OrphanKeeps(owners, s, b, verdict, today);
      }
    case _ => MoneyStepKeeps(owners, s, e);
  }

  predicate MoneyOut(e: Event) {
    e.Withdraw? || e.CashOut? || e.Validate? || e.AskCancel? || e.JudgeCancel? || e.PayBack?
  }

  lemma WithdrawalStepKeeps(owners: map<Id, Id>, s: State, e: Event)
    requires Valid(owners, s) && (e.Withdraw? || e.CashOut? || e.Validate?)
    ensures Valid(owners, Step(owners, s, e))
  {
    match e
    case Withdraw(owner, amount, bank, operator, today) => OpenKeeps(owners, s, owner, amount, bank, operator, today);
    case CashOut(n, ok, today) => CloseKeeps(owners, s, n, ok, today);
    case Validate(n, approve, today) => ValidateKeeps(owners, s, n, approve, today);
  }

  lemma CancelStepKeeps(owners: map<Id, Id>, s: State, e: Event)
    requires Valid(owners, s) && (e.AskCancel? || e.JudgeCancel? || e.PayBack?)
    ensures Valid(owners, Step(owners, s, e))
  {
    match e
    case AskCancel(b, viewer) => AskKeeps(owners, s, b, viewer);
    case JudgeCancel(k, caller, approve, consumed, today) => JudgeKeeps(owners, s, k, caller, approve, consumed, today);
    case PayBack(k, ok, today) => PayBackKeeps(owners, s, k, ok, today);
  }

  lemma MoneyStepKeeps(owners: map<Id, Id>, s: State, e: Event)
    requires Valid(owners, s) && MoneyOut(e)
    ensures Valid(owners, Step(owners, s, e))
  {
    if e.Withdraw? || e.CashOut? || e.Validate? {
      WithdrawalStepKeeps(owners, s, e);
    } else {
      CancelStepKeeps(owners, s, e);
    }
  }

  lemma {:induction false} RunKeeps(owners: map<Id, Id>, es: seq<Event>)
    requires PossibleRun(owners, es)
    ensures Valid(owners, Run(owners, es))
  {
    if es == [] {
      assert DueSources(owners, EMPTY) == {};
    } else {
      var prefix := es[..|es| - 1];
      LastEvent(owners, es);
      RunKeeps(owners, prefix);
      StepKeeps(owners, Run(owners, prefix), es[|es| - 1]);
    }
  }

  // ---- what the source promises ----------------------------------------------------------------------------------

  /** After any run: a payment that succeeded on an owned field has exactly one BOOKING_CREDIT row with its id, any
      other payment has none; a booking has at most one credit in all; and a booking awaiting payment has no payment or
      a pending one. */
  lemma CreditedExactlyOnce(owners: map<Id, Id>, es: seq<Event>, b: Id)
    requires PossibleRun(owners, es) && b in Run(owners, es).bookings
    ensures
      var s := Run(owners, es);
      var credits := CreditedSources(s.rows);
      && (b in s.payments ==>
            credits[FromPayment(s.payments[b].id)]
              == if s.payments[b].status == SUCCESS && s.bookings[b].field in owners then 1 else 0)
      && credits[FromBooking(b)] <= (if b in s.payments then 0 else 1)
      && (s.bookings[b].status == PENDING_PAYMENT && b in s.payments ==> s.payments[b].status == PENDING)
  {
    RunKeeps(owners, es);
    CreditsOf(owners, Run(owners, es), b);
  }

  lemma CreditsOf(owners: map<Id, Id>, s: State, b: Id)
    requires Valid(owners, s) && b in s.bookings
    ensures StatusOk(s, b)
    ensures CreditedSources(s.rows)[CreditSource(s, b)] == if Due(owners, s, b) then 1 else 0
    ensures b in s.payments ==> CreditedSources(s.rows)[FromBooking(b)] == 0
  {
    var due := DueSources(owners, s);
    forall c | c in s.bookings && Due(owners, s, c)
      ensures CreditSource(s, c) == CreditSource(s, b) ==> c == b
      ensures CreditSource(s, c) == FromBooking(b) ==> c == b
    {
    }
    assert Due(owners, s, b) ==> CreditSource(s, b) in due;
  }

  /** Once a payment has left PENDING no step of any handler touches it again. */
  lemma SettledIsFinal(owners: map<Id, Id>, s: State, e: Event, b: Id)
    requires Valid(owners, s) && b in s.payments && s.payments[b].status != PENDING
    ensures b in Step(owners, s, e).payments && Step(owners, s, e).payments[b] == s.payments[b]
  {
    assert StatusOk(s, b);
    match e
    case Book(_, _, _, _, _, _, _) =>
    case Initiate(c, ask, now, id, answer) => SettledKeptByInitiate(s, c, ask, now, id, answer, b);
    case Webhook(c, success, txn, today) => SettledKeptByWebhook(owners, s, c, success, txn, today, b);
    case Reconcile(c, verdict, threshold, today) =>
      if Orphan(s, c, threshold) {
        SettledKeptByOrphan(owners, s, c, verdict, today, b);
      }
    case _ => SameBookingSide(owners, s, e);
  }

  lemma SettledKeptByWebhook(owners: map<Id, Id>, s: State, b: Id, success: bool, txn: string, today: Today, c: Id)
    requires c in s.payments && s.payments[c].status != PENDING
    ensures
      var s' := SettlePayment(owners, s, b, success, txn, today);
      c in s'.payments && s'.payments[c] == s.payments[c]
  {
  }

  lemma SettledKeptByOrphan(owners: map<Id, Id>, s: State, b: Id, verdict: Verdict, today: Today, c: Id)
    requires b in s.bookings && c in s.payments && c != b
    ensures
      var s' := SettleOrphan(owners, s, b, verdict, today);
      c in s'.payments && s'.payments[c] == s.payments[c]
  {
  }

  lemma SettledKeptByInitiate(s: State, b: Id, ask: Ask, now: int, newId: Id, answer: Option<string>, c: Id)
    requires c in s.payments && s.payments[c].status != PENDING
    ensures
      var s' := InitiatePayment(s, b, ask, now, newId, answer).0;
      c in s'.payments && s'.payments[c] == s.payments[c]
  {
  }

  lemma SameBookingSide(owners: map<Id, Id>, s: State, e: Event)
    requires MoneyOut(e)
    ensures Step(owners, s, e).payments == s.payments
  {
  }

  /** initiatePayment never meets the unique constraint on booking_id, and asking again keeps payment and amount. */
  lemma OnePaymentPerBooking(owners: map<Id, Id>, s: State, b: Id, ask: Ask, now: int, newId: Id,
                             answer: Option<string>)
    requires Valid(owners, s)
    ensures
      var (s', reply) := InitiatePayment(s, b, ask, now, newId, answer);
      && reply != Refused(SECOND_PAYMENT)
      && (b in s.payments && b in s'.payments ==>
            s'.payments[b].id == s.payments[b].id && s'.payments[b].amount == s.payments[b].amount)
      && (b in s.payments && reply.Done? ==> reply == Done(s.payments[b].id))
  {
    if b in s.bookings {
      assert StatusOk(s, b);
    }
  }
}
