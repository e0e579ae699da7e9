/** Refunds against what the owner was credited for the same booking. A refund is 99% of the price whatever was paid, so
    it exceeds the credit of a small deposit: exactly which ones. And no booking is refunded twice. */
module RefundCredit {
  import opened Wrappers
  import opened SlotTime
  import opened Ledger
  import opened BookingModel
  import opened PaidAmounts
  import ExactlyOnce
  import Finance
  import OwnerBooks

  /** What was credited for one source. */
  ghost function CreditedTo(rows: seq<Row>, source: Source): int {
    if rows == [] then 0
    else
      var r := rows[|rows| - 1];
      CreditedTo(rows[..|rows| - 1], source) + if r.rowType == BOOKING_CREDIT && r.source == source then r.amount else 0
  }

  lemma {:induction false} NothingCredited(rows: seq<Row>, source: Source)
    requires CreditedSources(rows)[source] == 0
    ensures CreditedTo(rows, source) == 0
  {
    if rows != [] {
      NothingCredited(rows[..|rows| - 1], source);
    }
  }

  /** More rows that credit the source no more times leave its sum alone. */
  lemma {:induction false} SameCount(rows: seq<Row>, more: seq<Row>, source: Source)
    requires rows <= more && CreditedSources(more)[source] == CreditedSources(rows)[source]
    ensures CreditedTo(more, source) == CreditedTo(rows, source)
  {
    if |rows| < |more| {
      var head := more[..|more| - 1];
      CountGrows(rows, head, source);
      SameCount(rows, head, source);
    } else {
      assert more == rows;
    }
  }

  lemma {:induction false} CountGrows(rows: seq<Row>, more: seq<Row>, source: Source)
    requires rows <= more
    ensures CreditedSources(rows)[source] <= CreditedSources(more)[source]
  {
    if |rows| < |more| {
      CountGrows(rows, more[..|more| - 1], source);
    } else {
      assert more == rows;
    }
  }

  lemma BookingRowsGrow(owners: map<Id, Id>, s: State, e: Event)
    requires e.Book? || e.Initiate? || e.Webhook? || e.Reconcile?
    ensures s.rows <= Step(owners, s, e).rows
  {
  }

  lemma MoneyRowsGrow(owners: map<Id, Id>, s: State, e: Event)
    requires !(e.Book? || e.Initiate? || e.Webhook? || e.Reconcile?)
    ensures s.rows <= Step(owners, s, e).rows
  {
  }

  lemma RowsGrow(owners: map<Id, Id>, s: State, e: Event)
    ensures s.rows <= Step(owners, s, e).rows
  {
    if e.Book? || e.Initiate? || e.Webhook? || e.Reconcile? {
      BookingRowsGrow(owners, s, e);
    } else {
      MoneyRowsGrow(owners, s, e);
    }
  }

  /** What an owner was credited for a booking, under which id, and for which payment. */
  datatype Terms = Terms(source: Source, total: int, amount: Option<int>, credit: int)

  ghost function TermsOf(s: State, b: Id): Terms
    requires b in s.bookings
  {
    var source := ExactlyOnce.CreditSource(s, b);
    Terms(source, s.bookings[b].total, if b in s.payments then Some(s.payments[b].amount) else None,
          CreditedTo(s.rows, source))
  }

  lemma BookLeaves(owners: map<Id, Id>, s: State, e: Event, b: Id)
    requires e.Book? && Possible(s, e) && b in s.bookings
    ensures b in Step(owners, s, e).bookings && Step(owners, s, e).bookings[b] == s.bookings[b]
    ensures Step(owners, s, e).payments == s.payments
  {
  }

  /** A booking that was ever confirmed keeps its payment, or its lack of one. */
  lemma ConfirmedKeeps(owners: map<Id, Id>, s: State, e: Event, b: Id)
    requires ExactlyOnce.Valid(owners, s) && Possible(s, e) && b in s.bookings && s.bookings[b].confirmed > 0
    ensures
      var s' := Step(owners, s, e);
      && b in s'.bookings && s'.bookings[b].confirmed > 0
      && s'.bookings[b].total == s.bookings[b].total && s'.bookings[b].field == s.bookings[b].field
      && (b in s'.payments <==> b in s.payments) && (b in s.payments ==> s'.payments[b] == s.payments[b])
      && (s'.bookings[b].status == s.bookings[b].status || e.JudgeCancel?)
  {
    assert ExactlyOnce.StatusOk(s, b);
    if b in s.payments {
      ExactlyOnce.SettledIsFinal(owners, s, e, b);
    }
    match e
    case Book(_, _, _, _, _, _, _) => BookLeaves(owners, s, e, b);
    case Initiate(_, _, _, _, _) => InitiateKeeps(owners, s, e, b);
    case Webhook(_, _, _, _) => WebhookKeeps(owners, s, e, b);
    case Reconcile(_, _, _, _) => ReconcileKeeps(owners, s, e, b);
    case JudgeCancel(_, _, _, _, _) => JudgeKeeps(owners, s, e, b);
    case _ => BookingsLeft(owners, s, e);
  }

  lemma InitiateKeeps(owners: map<Id, Id>, s: State, e: Event, b: Id)
    requires e.Initiate? && b in s.bookings && s.bookings[b].status != PENDING_PAYMENT
    ensures
      var s' := Step(owners, s, e);
      b in s'.bookings && s'.bookings[b] == s.bookings[b] && (b in s'.payments <==> b in s.payments)
  {
  }

  lemma WebhookKeeps(owners: map<Id, Id>, s: State, e: Event, b: Id)
    requires e.Webhook? && b in s.bookings && (b in s.payments ==> s.payments[b].status != PENDING)
    ensures
      var s' := Step(owners, s, e);
      b in s'.bookings && s'.bookings[b] == s.bookings[b] && (b in s'.payments <==> b in s.payments)
  {
  }

  lemma ReconcileKeeps(owners: map<Id, Id>, s: State, e: Event, b: Id)
    requires e.Reconcile? && b in s.bookings && s.bookings[b].status != PENDING_PAYMENT
    ensures
      var s' := Step(owners, s, e);
      b in s'.bookings && s'.bookings[b] == s.bookings[b] && (b in s'.payments <==> b in s.payments)
  {
  }

  lemma JudgeKeeps(owners: map<Id, Id>, s: State, e: Event, b: Id)
    requires e.JudgeCancel? && b in s.bookings
    ensures
      var s' := Step(owners, s, e);
      && b in s'.bookings && s'.bookings[b] == s.bookings[b].(status := s'.bookings[b].status)
      && s'.payments == s.payments
      && (s'.bookings[b].status != s.bookings[b].status ==>
            e.k < |s.requests| && s.requests[e.k].booking == b && s'.bookings[b].status == CANCELLED)
  {
  }

  /** Once credited, a booking keeps its terms, whatever comes later. */
  lemma StepKeepsTerms(owners: map<Id, Id>, es: seq<Event>, b: Id)
    requires PossibleRun(owners, es) && es != [] && ExactlyOnce.Due(owners, Run(owners, es[..|es| - 1]), b)
    ensures ExactlyOnce.Due(owners, Run(owners, es), b)
    ensures TermsOf(Run(owners, es), b) == TermsOf(Run(owners, es[..|es| - 1]), b)
  {
    var prefix, e := es[..|es| - 1], es[|es| - 1];
    var s, s' := Run(owners, prefix), Run(owners, es);
    LastEvent(owners, es);
    ExactlyOnce.RunKeeps(owners, prefix);
    ExactlyOnce.RunKeeps(owners, es);
    ConfirmedKeeps(owners, s, e, b);
    ExactlyOnce.CreditsOf(owners, s, b);
    ExactlyOnce.CreditsOf(owners, s', b);
    RowsGrow(owners, s, e);
    SameCount(s.rows, s'.rows, ExactlyOnce.CreditSource(s, b));
  }

  lemma {:induction false} TermsLast(owners: map<Id, Id>, es: seq<Event>, i: nat, b: Id)
    requires PossibleRun(owners, es) && i <= |es| && ExactlyOnce.Due(owners, Run(owners, es[..i]), b)
    ensures ExactlyOnce.Due(owners, Run(owners, es), b)
    ensures TermsOf(Run(owners, es), b) == TermsOf(Run(owners, es[..i]), b)
  {
    if i == |es| {
      assert es[..i] == es;
    } else {
      var prefix := es[..|es| - 1];
      LastEvent(owners, es);
      assert prefix[..i] == es[..i];
      TermsLast(owners, prefix, i, b);
      StepKeepsTerms(owners, es, b);
    }
  }

  // ---- the two ways to be credited ---------------------------------------------------------------------------------

  /** The webhook that confirms booking b and credits its owner. */
  ghost predicate Pays(owners: map<Id, Id>, s: State, e: Event, b: Id) {
    && e.Webhook? && e.b == b && e.success && b in s.payments && b in s.bookings && s.bookings[b].field in owners
    && s.payments[b].status == PENDING && !ConfirmedClash(s, b)
  }

  /** The reconciliation that does. */
  ghost predicate Reconciles(owners: map<Id, Id>, s: State, e: Event, b: Id) {
    e.Reconcile? && e.b == b && e.verdict == Paid && Orphan(s, b, e.threshold) && s.bookings[b].field in owners
  }

  lemma WebhookDue(owners: map<Id, Id>, s: State, e: Event, b: Id)
    requires e.Webhook? && !Pays(owners, s, e, b)
    ensures ExactlyOnce.Due(owners, Step(owners, s, e), b) ==> ExactlyOnce.Due(owners, s, b)
  {
  }

  lemma ReconcileDue(owners: map<Id, Id>, s: State, e: Event, b: Id)
    requires e.Reconcile? && !Reconciles(owners, s, e, b)
    ensures ExactlyOnce.Due(owners, Step(owners, s, e), b) ==> ExactlyOnce.Due(owners, s, b)
  {
  }

  lemma OtherDue(owners: map<Id, Id>, s: State, e: Event, b: Id)
    requires Possible(s, e) && (e.Book? || e.Initiate?)
    ensures ExactlyOnce.Due(owners, Step(owners, s, e), b) ==> ExactlyOnce.Due(owners, s, b)
  {
  }

  /** A booking comes to be credited in no other way. */
  lemma BecomesDue(owners: map<Id, Id>, s: State, e: Event, b: Id)
    requires Possible(s, e) && !ExactlyOnce.Due(owners, s, b) && ExactlyOnce.Due(owners, Step(owners, s, e), b)
    ensures Pays(owners, s, e, b) || Reconciles(owners, s, e, b)
  {
    if e.Webhook? && !Pays(owners, s, e, b) {
      WebhookDue(owners, s, e, b);
    } else if e.Reconcile? && !Reconciles(owners, s, e, b) {
      ReconcileDue(owners, s, e, b);
    } else if e.Book? || e.Initiate? {
      OtherDue(owners, s, e, b);
    } else if e.JudgeCancel? && b in s.bookings {
      JudgeKeeps(owners, s, e, b);
    } else if LeavesBookings(e) {
      BookingsLeft(owners, s, e);
    }
  }

  lemma WebhookCredits(owners: map<Id, Id>, es: seq<Event>, e: Event, b: Id)
    requires PossibleRun(owners, es) && Pays(owners, Run(owners, es), e, b)
    ensures
      var s, s' := Run(owners, es), Step(owners, Run(owners, es), e);
      var pay := s.payments[b];
      && ExactlyOnce.Due(owners, s', b)
      && TermsOf(s', b) == Terms(FromPayment(pay.id), s.bookings[b].total, Some(pay.amount), Net(pay))
  {
    var s := Run(owners, es);
    ExactlyOnce.CreditedExactlyOnce(owners, es, b);
    NothingCredited(s.rows, FromPayment(s.payments[b].id));
    var s' := Step(owners, s, e);
    assert s'.rows[..|s.rows|] == s.rows;
  }

  lemma OrphanCredits(owners: map<Id, Id>, es: seq<Event>, e: Event, b: Id)
    requires PossibleRun(owners, es) && Reconciles(owners, Run(owners, es), e, b)
    ensures
      var s, s' := Run(owners, es), Step(owners, Run(owners, es), e);
      && ExactlyOnce.Due(owners, s', b)
      && TermsOf(s', b).total == s.bookings[b].total == TermsOf(s', b).credit
      && (b in s.payments ==> TermsOf(s', b).amount == Some(s.payments[b].amount))
  {
    var s := Run(owners, es);
    ExactlyOnce.RunKeeps(owners, es);
    ExactlyOnce.CreditsOf(owners, s, b);
    NothingCredited(s.rows, ExactlyOnce.CreditSource(s, b));
    OrphanTerms(owners, s, b, e.today);
  }

  lemma OrphanTerms(owners: map<Id, Id>, s: State, b: Id, today: Today)
    requires b in s.bookings && s.bookings[b].field in owners
    requires CreditedTo(s.rows, ExactlyOnce.CreditSource(s, b)) == 0
    ensures
      var s' := ConfirmOrphan(owners, s, b, today);
      && ExactlyOnce.Due(owners, s', b)
      && TermsOf(s', b).total == s.bookings[b].total == TermsOf(s', b).credit
      && (b in s.payments ==> TermsOf(s', b).amount == Some(s.payments[b].amount))
  {
    var s' := ConfirmOrphan(owners, s, b, today);
    assert s'.rows[..|s.rows|] == s.rows;
    assert ExactlyOnce.CreditSource(s', b) == ExactlyOnce.CreditSource(s, b);
  }

  lemma PriceOrder(m: int, n: int)
    ensures m <= n <==> Finance.ComputePlatformFee(m).totalWithFee <= Finance.ComputePlatformFee(n).totalWithFee
  {
    Finance.FeeIsRatio(m);
    Finance.FeeIsRatio(n);
  }

  lemma RefundWithinPrice(total: int)
    requires total >= 0
    ensures Finance.RefundAmount(total) <= total
  {
  }

  lemma {:induction false} PrefixPossible(owners: map<Id, Id>, es: seq<Event>, i: nat)
    requires PossibleRun(owners, es) && i <= |es|
    ensures PossibleRun(owners, es[..i])
  {
    if i == |es| {
      assert es[..i] == es;
    } else {
      LastEvent(owners, es);
      PrefixPossible(owners, es[..|es| - 1], i);
      assert es[..|es| - 1][..i] == es[..i];
    }
  }

  /** The i-th event is the one booking b was credited by. */
  ghost predicate CreditedBy(owners: map<Id, Id>, es: seq<Event>, i: nat, b: Id) {
    && i < |es| && !ExactlyOnce.Due(owners, Run(owners, es[..i]), b)
    && ExactlyOnce.Due(owners, Run(owners, es[..i + 1]), b)
  }

  lemma CreditedByExactly(owners: map<Id, Id>, es: seq<Event>, i: nat, b: Id)
    requires PossibleRun(owners, es) && i < |es|
    ensures CreditedBy(owners, es, i, b)
      <==> Pays(owners, Run(owners, es[..i]), es[i], b) || Reconciles(owners, Run(owners, es[..i]), es[i], b)
  {
    var upTo, before := es[..i + 1], Run(owners, es[..i]);
    assert upTo[..i] == es[..i];
    PrefixPossible(owners, es, i);
    assert Possible(before, es[i]);
    ExactlyOnce.RunKeeps(owners, es[..i]);
    assert b in before.bookings ==> ExactlyOnce.StatusOk(before, b);
    if Pays(owners, before, es[i], b) {
      WebhookCredits(owners, es[..i], es[i], b);
    } else if Reconciles(owners, before, es[i], b) {
      OrphanCredits(owners, es[..i], es[i], b);
    } else if CreditedBy(owners, es, i, b) {
      BecomesDue(owners, before, es[i], b);
    }
  }

  /** What a booking is credited, it has been credited ever after: the owner's part of the payment by a webhook, the
      full price by reconciliation; and it is credited in no other way. */
  lemma CreditLasts(owners: map<Id, Id>, es: seq<Event>, i: nat, b: Id)
    requires PossibleRun(owners, es) && CreditedBy(owners, es, i, b)
    ensures
      var s, before := Run(owners, es), Run(owners, es[..i]);
      && ExactlyOnce.Due(owners, s, b) && b in before.bookings
      && s.bookings[b].total == before.bookings[b].total
      && (Pays(owners, before, es[i], b) ==>
            b in s.payments && s.payments[b].amount == before.payments[b].amount
            && s.payments[b].id == before.payments[b].id && TermsOf(s, b).source == FromPayment(s.payments[b].id)
            && TermsOf(s, b).credit == Net(s.payments[b]))
      && (Reconciles(owners, before, es[i], b) ==> TermsOf(s, b).credit == s.bookings[b].total)
      && (Pays(owners, before, es[i], b) || Reconciles(owners, before, es[i], b))
  {
    var upTo, before := es[..i + 1], Run(owners, es[..i]);
    assert upTo[..i] == es[..i];
    PrefixPossible(owners, es, i);
    assert Possible(before, es[i]);
    BecomesDue(owners, before, es[i], b);
    if Pays(owners, before, es[i], b) {
      WebhookCredits(owners, es[..i], es[i], b);
    } else {
      OrphanCredits(owners, es[..i], es[i], b);
    }
    TermsLast(owners, es, i + 1, b);
  }

  /** At every time after a booking was credited, a refund stays within what its owner was credited for it if and only
      if reconciliation confirmed it, or its payment covers the fee-inclusive price of the refund; a payment in full
      always does. */
  lemma RefundWithinCreditExactly(owners: map<Id, Id>, es: seq<Event>, i: nat, b: Id)
    requires PossibleRun(owners, es) && CreditedBy(owners, es, i, b)
    ensures
      var s := Run(owners, es);
      && b in s.bookings
      && var bk := s.bookings[b];
      var refund, credited := Finance.RefundAmount(bk.total), TermsOf(s, b).credit;
      && ((es[i].Webhook? && b in s.payments) || es[i].Reconcile?)
      && (refund <= credited <==>
            es[i].Reconcile? || Finance.ComputePlatformFee(refund).totalWithFee <= s.payments[b].amount)
      && (es[i].Webhook? && s.payments[b].amount == bk.total + bk.fee ==> refund <= credited)
  {
    CreditLasts(owners, es, i, b);
    RunFair(owners, es);
    OwnerBooks.LedgerReconciles(owners, es);
    var s := Run(owners, es);
    RefundWithinPrice(s.bookings[b].total);
    if es[i].Webhook? {
      assert PayOk(s.bookings[b], s.payments[b]);
      RefundOfPayment(s.bookings[b], s.payments[b]);
    }
  }

  lemma RefundOfPayment(bk: Booking, pay: Payment)
    requires PayOk(bk, pay) && bk.total >= 0 && bk.fee == Finance.ComputePlatformFee(bk.total).commission
    ensures
      var refund := Finance.RefundAmount(bk.total);
      && (refund <= Net(pay) <==> Finance.ComputePlatformFee(refund).totalWithFee <= pay.amount)
      && (pay.amount == bk.total + bk.fee ==> refund <= Net(pay))
  {
    RefundWithinPrice(bk.total);
    PriceOrder(Finance.RefundAmount(bk.total), Net(pay));
    Finance.SplitUndoesFee(bk.total);
  }

  // ---- one refund for each booking ---------------------------------------------------------------------------------

  predicate OpenOrApproved(r: CancelRequest) {
    r.status == REQUESTED || r.status == APPROVED
  }

  /** A booking has at most one request that is open or approved, and is CONFIRMED while it is open. */
  ghost predicate RequestsOk(s: State) {
    && (forall k :: 0 <= k < |s.requests| && OpenOrApproved(s.requests[k]) ==>
          && s.requests[k].booking in s.bookings && s.bookings[s.requests[k].booking].confirmed > 0
          && s.bookings[s.requests[k].booking].status
            == (if s.requests[k].status == REQUESTED then CONFIRMED else CANCELLED))
    && (forall j, k :: 0 <= j < k < |s.requests| && OpenOrApproved(s.requests[j]) && OpenOrApproved(s.requests[k]) ==>
          s.requests[j].booking != s.requests[k].booking)
  }

  lemma AskOk(owners: map<Id, Id>, s: State, b: Id, viewer: Viewer)
    requires RequestsOk(s) && ExactlyOnce.Valid(owners, s)
    ensures RequestsOk(RequestCancellation(owners, s, b, viewer).0)
  {
    if b in s.bookings {
      assert ExactlyOnce.StatusOk(s, b);
    }
  }

  lemma JudgeOk(s: State, k: nat, caller: Id, approve: bool, consumed: bool, today: Today)
    requires RequestsOk(s)
    ensures RequestsOk(ValidateCancellation(s, k, caller, approve, consumed, today).0)
  {
  }

  lemma PayBackOk(s: State, k: nat, ok: bool, today: Today)
    requires RequestsOk(s)
    ensures RequestsOk(CloseRefund(s, k, ok, today))
  {
  }

  lemma OthersOk(owners: map<Id, Id>, s: State, e: Event)
    requires RequestsOk(s) && ExactlyOnce.Valid(owners, s) && Possible(s, e)
    requires !e.AskCancel? && !e.JudgeCancel? && !e.PayBack?
    ensures RequestsOk(Step(owners, s, e))
  {
    var s' := Step(owners, s, e);
    RequestsStay(owners, s, e);
    forall k | 0 <= k < |s.requests| && OpenOrApproved(s.requests[k])
      ensures
        var b := s.requests[k].booking;
        b in s'.bookings && s'.bookings[b].confirmed > 0 && s'.bookings[b].status == s.bookings[b].status
    {
      ConfirmedKeeps(owners, s, e, s.requests[k].booking);
    }
  }

  lemma RequestsStay(owners: map<Id, Id>, s: State, e: Event)
    requires !e.AskCancel? && !e.JudgeCancel? && !e.PayBack?
    ensures Step(owners, s, e).requests == s.requests
  {
  }

  lemma {:induction false} RunRequestsOk(owners: map<Id, Id>, es: seq<Event>)
    requires PossibleRun(owners, es)
    ensures RequestsOk(Run(owners, es))
  {
    if es != [] {
      var prefix, e := es[..|es| - 1], es[|es| - 1];
      LastEvent(owners, es);
      RunRequestsOk(owners, prefix);
      ExactlyOnce.RunKeeps(owners, prefix);
      var s := Run(owners, prefix);
      match e
      case AskCancel(b, viewer) => AskOk(owners, s, b, viewer);
      case JudgeCancel(k, caller, approve, consumed, today) => JudgeOk(s, k, caller, approve, consumed, today);
      case PayBack(k, ok, today) => PayBackOk(s, k, ok, today);
      case _ => OthersOk(owners, s, e);
    }
  }

  /** Over every run a booking is refunded at most once, and a refunded booking stays CANCELLED. */
  lemma RefundedOnce(owners: map<Id, Id>, es: seq<Event>, j: nat, k: nat)
    requires PossibleRun(owners, es) && j < |Run(owners, es).requests| && k < |Run(owners, es).requests|
    requires Run(owners, es).requests[j].status == APPROVED && Run(owners, es).requests[k].status == APPROVED
    requires Run(owners, es).requests[j].booking == Run(owners, es).requests[k].booking
    ensures j == k
    ensures
      var s := Run(owners, es);
      s.requests[k].booking in s.bookings && s.bookings[s.requests[k].booking].status == CANCELLED
  {
    RunRequestsOk(owners, es);
    assert OpenOrApproved(Run(owners, es).requests[j]) && OpenOrApproved(Run(owners, es).requests[k]);
  }

  // ---- a run -------------------------------------------------------------------------------------------------------

  const OWNERS := map["field" := "owner"]
  const PAID_UP := BookingRequest("field", "schedule", "2026-01-01", 600, 1)
  const DEPOSITED := BookingRequest("field", "schedule", "2026-01-01", 660, 1)
  const ROW := ScheduleRow(60, 1000, Some(100))

  /** One booking of 1000 is confirmed by reconciliation; of another the deposit of 100 is paid, and then it is
      cancelled with the owner's approval. */
  function DepositRefunded(today: Today): seq<Event> {
    [Book(PAID_UP, Some(true), Some(ROW), Some("alice"), 0, "A", None),
     Reconcile("A", Paid, 0, today),
     Book(DEPOSITED, Some(true), Some(ROW), Some("bob"), 0, "B", None),
     Initiate("B", Ask(Some("bob"), Some(100), "WAVE", None), 0, "p", Some("ref")),
     Webhook("B", true, "txn", today), AskCancel("B", AsClient("bob")), JudgeCancel(0, "owner", true, false, today)]
  }

  ghost predicate Booked(s: State, status: BookingStatus) {
    && s.bookings.Keys == {"A", "B"} && s.bookings["A"].status == CONFIRMED && s.bookings["A"].start == 600
    && s.bookings["B"].status == status && s.bookings["B"].start == 660 && s.bookings["B"].numSlots == 1
    && s.bookings["B"].field == "field" && s.bookings["B"].total == 1000 && s.bookings["B"].client == "bob"
    && s.bookings["B"].minDeposit == Some(100) && s.bookings["B"].expiresAt == EXPIRY_MS && s.requests == []
  }

  lemma AliceBooks(es: seq<Event>, ss: seq<State>, today: Today)
    requires Visits(OWNERS, es, ss) && es == DepositRefunded(today)
    ensures ss[1].bookings.Keys == {"A"} && ss[1].payments == map[] && ss[2].bookings.Keys == {"A"}
    ensures ss[2].payments == map[] && ss[2].requests == [] && Balance(ss[2].rows, "owner") == 1000
    ensures ss[2].bookings["A"].status == CONFIRMED && ss[2].bookings["A"].start == 600
    ensures ss[2].bookings["A"].client == "alice"
  {
    assert ss[1] == Step(OWNERS, EMPTY, es[0]);
    assert ss[2] == Step(OWNERS, ss[1], es[1]);
    BalanceOfPost([], today, Posting("owner", BOOKING_CREDIT, CREDIT, 1000, 0, FromBooking("A")), "owner");
  }

  lemma BobBooks(es: seq<Event>, ss: seq<State>, today: Today)
    requires Visits(OWNERS, es, ss) && es == DepositRefunded(today)
    requires ss[2].bookings.Keys == {"A"} && ss[2].requests == []
    requires ss[2].bookings["A"].status == CONFIRMED && ss[2].bookings["A"].start == 600
    ensures Booked(ss[3], PENDING_PAYMENT) && ss[3].payments == ss[2].payments && ss[3].rows == ss[2].rows
  {
    assert ss[3] == Step(OWNERS, ss[2], es[2]);
  }

  lemma BobPays(es: seq<Event>, ss: seq<State>, today: Today)
    requires Visits(OWNERS, es, ss) && es == DepositRefunded(today)
    requires Booked(ss[3], PENDING_PAYMENT) && ss[3].payments == map[] && Balance(ss[3].rows, "owner") == 1000
    ensures Booked(ss[4], PENDING_PAYMENT) && ss[4].payments.Keys == {"B"}
    ensures ss[4].payments["B"].id == "p" && ss[4].payments["B"].status == PENDING
    ensures Booked(ss[5], CONFIRMED) && Balance(ss[5].rows, "owner") == 1100 && Pays(OWNERS, ss[4], es[4], "B")
    ensures Net(ss[4].payments["B"]) == 100 && ss[5].payments.Keys == {"B"} && ss[5].payments["B"].phone == None
  {
    assert Finance.ComputePlatformFee(100).commission == 5 && Finance.SplitPayment(105).ownerCredit == 100;
    assert ss[4] == Step(OWNERS, ss[3], es[3]);
    assert ss[4].payments == map["B" := Payment("p", 105, PENDING, "WAVE", None, Some("ref"))];
    assert ss[5] == Step(OWNERS, ss[4], es[4]);
    BalanceOfPost(ss[4].rows, today, Posting("owner", BOOKING_CREDIT, CREDIT, 100, 1000, FromPayment("p")), "owner");
  }

  lemma BobCancels(es: seq<Event>, ss: seq<State>, today: Today)
    requires Visits(OWNERS, es, ss) && es == DepositRefunded(today)
    requires Booked(ss[5], CONFIRMED) && Balance(ss[5].rows, "owner") == 1100
    requires ss[5].payments.Keys == {"B"} && ss[5].payments["B"].phone == None
    ensures |ss[7].requests| == 1 && ss[7].requests[0].booking == "B" && ss[7].requests[0].refund == Kept(990)
  {
    assert Finance.RefundAmount(1000) == 990;
    assert ss[6] == Step(OWNERS, ss[5], es[5]);
    assert ss[6].requests == [CancelRequest("B", "owner", REQUESTED, NotDue)];
    assert ss[7] == Step(OWNERS, ss[6], es[6]);
  }

  lemma DepositPossible(es: seq<Event>, ss: seq<State>, today: Today)
    requires es == DepositRefunded(today) && |ss| == 8 && ss[0] == EMPTY
    requires ss[1].bookings.Keys == {"A"} && ss[2].bookings.Keys == {"A"} && ss[2].payments == map[]
    requires ss[2].bookings["A"].client == "alice" && Booked(ss[3], PENDING_PAYMENT) && ss[3].payments == map[]
    ensures forall i :: 0 <= i < |es| ==> Possible(ss[i], es[i])
  {
  }

  /** A refund of 990 for a booking of which the owner was credited 100. */
  lemma DepositRefundExceedsCredit(today: Today)
    ensures PossibleRun(OWNERS, DepositRefunded(today))
    ensures
      var s := Run(OWNERS, DepositRefunded(today));
      && |s.requests| == 1 && s.requests[0].booking == "B" && s.requests[0].refund == Kept(990)
      && CreditedTo(s.rows, FromPayment("p")) == 100
  {
    var es := DepositRefunded(today);
    var ss := VisitedStates(OWNERS, es);
    AliceBooks(es, ss, today);
    BobBooks(es, ss, today);
    BobPays(es, ss, today);
    BobCancels(es, ss, today);
    DepositPossible(es, ss, today);
    PossibleVisits(OWNERS, es, ss);
    CreditOfDeposit(es, ss, today);
  }

  lemma CreditOfDeposit(es: seq<Event>, ss: seq<State>, today: Today)
    requires Visits(OWNERS, es, ss) && es == DepositRefunded(today) && PossibleRun(OWNERS, es)
    requires Pays(OWNERS, ss[4], es[4], "B") && ss[4].payments["B"].id == "p" && Net(ss[4].payments["B"]) == 100
    ensures CreditedTo(Run(OWNERS, es).rows, FromPayment("p")) == 100
  {
    VisitsAreRuns(OWNERS, es, ss, 4);
    assert Pays(OWNERS, Run(OWNERS, es[..4]), es[4], "B");
    CreditedByExactly(OWNERS, es, 4, "B");
    CreditLasts(OWNERS, es, 4, "B");
    var s := Run(OWNERS, es);
    assert TermsOf(s, "B").source == FromPayment("p");
  }
}
