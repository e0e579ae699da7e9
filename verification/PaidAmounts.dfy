/** What the owner is credited, over every run: the deposit the client chose, or the full price. */
module PaidAmounts {
  import opened Wrappers
  import opened SlotTime
  import opened Ledger
  import opened BookingModel
  import Finance

  /** The owner's part of a payment. */
  function Net(pay: Payment): int {
    Finance.SplitPayment(pay.amount).ownerCredit
  }

  /** The payment is the fee-inclusive price of its owner's part, which is the booking's full price, or a positive
      amount below it that its minimum deposit, if it has one, allows. */
  predicate PayOk(bk: Booking, pay: Payment) {
    var n := Net(pay);
    && pay.amount == Finance.ComputePlatformFee(n).totalWithFee
    && (n == bk.total || (1 <= n < bk.total && (bk.minDeposit.Some? ==> bk.minDeposit.value <= n)))
  }

  ghost predicate Fair(s: State) {
    && (forall b :: b in s.bookings ==> s.bookings[b].fee == Finance.ComputePlatformFee(s.bookings[b].total).commission)
    && (forall b :: b in s.payments && b in s.bookings ==> PayOk(s.bookings[b], s.payments[b]))
    && s.payments.Keys <= s.bookings.Keys
  }

  ghost predicate SamePrices(s: State, s': State) {
    && s'.bookings.Keys == s.bookings.Keys
    && (forall b :: b in s.bookings ==>
          && s'.bookings[b].total == s.bookings[b].total && s'.bookings[b].fee == s.bookings[b].fee
          && s'.bookings[b].minDeposit == s.bookings[b].minDeposit && s'.bookings[b].field == s.bookings[b].field)
  }

  ghost predicate SameAmounts(s: State, s': State) {
    && s'.payments.Keys <= s.payments.Keys
    && (forall b :: b in s'.payments ==>
          s'.payments[b].amount == s.payments[b].amount && s'.payments[b].id == s.payments[b].id)
  }

  /** Prices and amounts are as they were, row by row. */
  ghost predicate SameTerms(s: State, s': State) {
    SamePrices(s, s') && SameAmounts(s, s')
  }

  lemma TermsKeepFair(s: State, s': State)
    requires Fair(s) && SameTerms(s, s')
    ensures Fair(s')
  {
    forall b | b in s'.payments && b in s'.bookings
      ensures PayOk(s'.bookings[b], s'.payments[b])
    {
      assert PayOk(s.bookings[b], s.payments[b]);
    }
  }

  lemma OneRowPrices(s: State, s': State, b: Id)
    requires b in s.bookings && b in s'.bookings && s'.bookings == s.bookings[b := s'.bookings[b]]
    requires
      var bk, bk' := s.bookings[b], s'.bookings[b];
      bk'.total == bk.total && bk'.fee == bk.fee && bk'.minDeposit == bk.minDeposit && bk'.field == bk.field
    ensures SamePrices(s, s')
  {
    assert s'.bookings.Keys == s.bookings.Keys;
  }

  lemma WebhookPrices(owners: map<Id, Id>, s: State, b: Id, success: bool, txn: string, today: Today)
    ensures SamePrices(s, SettlePayment(owners, s, b, success, txn, today))
  {
    var s' := SettlePayment(owners, s, b, success, txn, today);
    if b in s.payments && b in s.bookings && s.payments[b].status == PENDING {
      OneRowPrices(s, s', b);
    }
  }

  lemma WebhookAmounts(owners: map<Id, Id>, s: State, b: Id, success: bool, txn: string, today: Today)
    ensures SameAmounts(s, SettlePayment(owners, s, b, success, txn, today))
  {
  }

  lemma OrphanPrices(owners: map<Id, Id>, s: State, b: Id, verdict: Verdict, today: Today)
    requires b in s.bookings
    ensures SamePrices(s, SettleOrphan(owners, s, b, verdict, today))
  {
    var s' := SettleOrphan(owners, s, b, verdict, today);
    if s'.bookings != s.bookings {
      OneRowPrices(s, s', b);
    }
  }

  lemma OrphanAmounts(owners: map<Id, Id>, s: State, b: Id, verdict: Verdict, today: Today)
    requires b in s.bookings
    ensures SameAmounts(s, SettleOrphan(owners, s, b, verdict, today))
  {
  }

  lemma JudgeTerms(s: State, k: nat, caller: Id, approve: bool, consumed: bool, today: Today)
    ensures SameTerms(s, ValidateCancellation(s, k, caller, approve, consumed, today).0)
  {
  }

  lemma BookFair(owners: map<Id, Id>, s: State, e: Event)
    requires e.Book? && Possible(s, e) && Fair(s)
    ensures Fair(Step(owners, s, e))
  {
    var s' := Step(owners, s, e);
    forall b | b in s'.payments && b in s'.bookings
      ensures PayOk(s'.bookings[b], s'.payments[b])
    {
      assert PayOk(s.bookings[b], s.payments[b]);
    }
  }

  /** A payment opened for booking bk with the amount initiatePayment asks. */
  lemma AskedIsFair(bk: Booking, paid: Option<int>, pay: Payment)
    requires bk.fee == Finance.ComputePlatformFee(bk.total).commission && pay.amount == AskedAmount(bk, paid)
    requires paid.Some? ==> 1 <= paid.value <= bk.total && (bk.minDeposit.Some? ==> bk.minDeposit.value <= paid.value)
    ensures PayOk(bk, pay) && Net(pay) == if paid.Some? then paid.value else bk.total
  {
    Finance.SplitUndoesFee(if paid.Some? then paid.value else bk.total);
  }

  /** Initiating opens a payment of the asked amount for a booking that had none, or leaves all terms alone. */
  predicate Opens(s: State, b: Id, ask: Ask, now: int, newId: Id, answer: Option<string>) {
    b in s.bookings && b !in s.payments && InitiatePayment(s, b, ask, now, newId, answer).1.Done?
  }

  lemma OpensAsked(s: State, b: Id, ask: Ask, now: int, newId: Id, answer: Option<string>)
    requires Opens(s, b, ask, now, newId, answer)
    ensures
      var (bk, s') := (s.bookings[b], InitiatePayment(s, b, ask, now, newId, answer).0);
      && s'.bookings == s.bookings
      && s'.payments
        == s.payments[b := Payment(newId, AskedAmount(bk, ask.paid), PENDING, ask.operator, ask.phone, answer)]
      && (ask.paid.Some? ==>
            ask.paid.value <= bk.total && (bk.minDeposit.Some? ==> bk.minDeposit.value <= ask.paid.value))
  {
  }

  lemma InitiatePrices(s: State, b: Id, ask: Ask, now: int, newId: Id, answer: Option<string>)
    ensures SamePrices(s, InitiatePayment(s, b, ask, now, newId, answer).0)
  {
    var s' := InitiatePayment(s, b, ask, now, newId, answer).0;
    if s'.bookings != s.bookings {
      OneRowPrices(s, s', b);
    }
  }

  lemma OtherwiseSameAmounts(s: State, b: Id, ask: Ask, now: int, newId: Id, answer: Option<string>)
    requires !Opens(s, b, ask, now, newId, answer)
    ensures SameAmounts(s, InitiatePayment(s, b, ask, now, newId, answer).0)
  {
  }

  lemma OpenFair(s: State, b: Id, ask: Ask, now: int, newId: Id, answer: Option<string>)
    requires Fair(s) && (ask.paid.Some? ==> ask.paid.value >= 1) && Opens(s, b, ask, now, newId, answer)
    ensures Fair(InitiatePayment(s, b, ask, now, newId, answer).0)
  {
    var s' := InitiatePayment(s, b, ask, now, newId, answer).0;
    OpensAsked(s, b, ask, now, newId, answer);
    AskedIsFair(s.bookings[b], ask.paid, s'.payments[b]);
    forall c | c in s'.payments && c in s'.bookings
      ensures PayOk(s'.bookings[c], s'.payments[c])
    {
      assert c != b ==> PayOk(s.bookings[c], s.payments[c]);
    }
  }

  predicate OpensPayment(s: State, e: Event) {
    e.Initiate? && Opens(s, e.b, e.ask, e.now, e.id, e.answer)
  }

  /** Only a booking, and the call that opens a payment, bring new terms. */
  lemma OtherwiseSameTerms(owners: map<Id, Id>, s: State, e: Event)
    requires !e.Book? && !OpensPayment(s, e)
    ensures SameTerms(s, Step(owners, s, e))
  {
    match e
    case Initiate(b, ask, now, id, answer) =>
      InitiatePrices(s, b, ask, now, id, answer);
      OtherwiseSameAmounts(s, b, ask, now, id, answer);
    case Webhook(b, success, txn, today) =>
      WebhookPrices(owners, s, b, success, txn, today);
      WebhookAmounts(owners, s, b, success, txn, today);
    case Reconcile(b, verdict, threshold, today) =>
      if Orphan(s, b, threshold) {
        OrphanPrices(owners, s, b, verdict, today);
        OrphanAmounts(owners, s, b, verdict, today);
      }
    case JudgeCancel(k, caller, approve, consumed, today) => JudgeTerms(s, k, caller, approve, consumed, today);
    case _ => BookingsLeft(owners, s, e);
  }

  lemma StepFair(owners: map<Id, Id>, s: State, e: Event)
    requires Fair(s) && Possible(s, e)
    ensures Fair(Step(owners, s, e))
  {
    if e.Book? {
      BookFair(owners, s, e);
    } else if OpensPayment(s, e) {
      OpenFair(s, e.b, e.ask, e.now, e.id, e.answer);
    } else {
      OtherwiseSameTerms(owners, s, e);
      TermsKeepFair(s, Step(owners, s, e));
    }
  }

  lemma {:induction false} RunFair(owners: map<Id, Id>, es: seq<Event>)
    requires PossibleRun(owners, es)
    ensures Fair(Run(owners, es))
  {
    if es == [] {
      assert Fair(EMPTY);
    } else {
      var prefix := es[..|es| - 1];
      LastEvent(owners, es);
      RunFair(owners, prefix);
      StepFair(owners, Run(owners, prefix), es[|prefix|]);
      assert Run(owners, es) == Step(owners, Run(owners, prefix), es[|prefix|]);
    }
  }

  // ---- the call that opened a payment ------------------------------------------------------------------------------

  /** The i-th event is the client's call that opened this payment, and its owner's part is what that call chose: the
      deposit given, or the full price. */
  predicate AskedBy(es: seq<Event>, i: nat, b: Id, bk: Booking, pay: Payment) {
    && i < |es| && es[i].Initiate? && es[i].b == b && es[i].id == pay.id
    && Net(pay) == if es[i].ask.paid.Some? then es[i].ask.paid.value else bk.total
  }

  ghost predicate Asked(es: seq<Event>, s: State) {
    forall b :: b in s.payments && b in s.bookings ==> exists i :: AskedBy(es, i, b, s.bookings[b], s.payments[b])
  }

  lemma AskedStays(prefix: seq<Event>, e: Event, s: State, s': State, b: Id)
    requires Asked(prefix, s) && b in s'.payments && b in s'.bookings && b in s.payments && b in s.bookings
    requires s'.payments[b].id == s.payments[b].id && s'.payments[b].amount == s.payments[b].amount
    requires s'.bookings[b].total == s.bookings[b].total
    ensures exists i :: AskedBy(prefix + [e], i, b, s'.bookings[b], s'.payments[b])
  {
    var i :| AskedBy(prefix, i, b, s.bookings[b], s.payments[b]);
    assert AskedBy(prefix + [e], i, b, s'.bookings[b], s'.payments[b]);
  }

  lemma OpenedIsAsked(prefix: seq<Event>, s: State, e: Event)
    requires Fair(s) && OpensPayment(s, e) && (e.ask.paid.Some? ==> e.ask.paid.value >= 1)
    ensures
      var s' := InitiatePayment(s, e.b, e.ask, e.now, e.id, e.answer).0;
      && e.b in s'.bookings && e.b in s'.payments
      && AskedBy(prefix + [e], |prefix|, e.b, s'.bookings[e.b], s'.payments[e.b])
  {
    var s' := InitiatePayment(s, e.b, e.ask, e.now, e.id, e.answer).0;
    OpensAsked(s, e.b, e.ask, e.now, e.id, e.answer);
    AskedIsFair(s.bookings[e.b], e.ask.paid, s'.payments[e.b]);
  }

  /** A step keeps every payment it does not open, under the same terms. */
  lemma OthersKept(owners: map<Id, Id>, s: State, e: Event, b: Id)
    requires Possible(s, e) && s.payments.Keys <= s.bookings.Keys && !(OpensPayment(s, e) && b == e.b)
    ensures
      var s' := Step(owners, s, e);
      b in s'.payments && b in s'.bookings ==>
        && b in s.payments && b in s.bookings && s'.payments[b].id == s.payments[b].id
        && s'.payments[b].amount == s.payments[b].amount && s'.bookings[b].total == s.bookings[b].total
  {
    if OpensPayment(s, e) {
      OpensAsked(s, e.b, e.ask, e.now, e.id, e.answer);
    } else if !e.Book? {
      OtherwiseSameTerms(owners, s, e);
    }
  }

  lemma StepAsked(owners: map<Id, Id>, prefix: seq<Event>, s: State, e: Event)
    requires Fair(s) && Asked(prefix, s) && Possible(s, e)
    ensures Asked(prefix + [e], Step(owners, s, e))
  {
    var s' := Step(owners, s, e);
    forall b | b in s'.payments && b in s'.bookings
      ensures exists i :: AskedBy(prefix + [e], i, b, s'.bookings[b], s'.payments[b])
    {
      if OpensPayment(s, e) && b == e.b {
        OpenedIsAsked(prefix, s, e);
      } else {
        OthersKept(owners, s, e, b);
        AskedStays(prefix, e, s, s', b);
      }
    }
  }

  lemma {:induction false} RunAsked(owners: map<Id, Id>, es: seq<Event>)
    requires PossibleRun(owners, es)
    ensures Asked(es, Run(owners, es))
  {
    if es != [] {
      var prefix, e := es[..|es| - 1], es[|es| - 1];
      LastEvent(owners, es);
      RunFair(owners, prefix);
      RunAsked(owners, prefix);
      StepAsked(owners, prefix, Run(owners, prefix), e);
      assert prefix + [e] == es;
    }
  }

  /** What a webhook that credits writes, and what reconciliation would have written for the same booking. */
  lemma TwoCredits(owners: map<Id, Id>, s: State, b: Id, txn: string, today: Today)
    requires SettlePayment(owners, s, b, true, txn, today).rows != s.rows
    ensures
      && b in s.bookings && b in s.payments && s.bookings[b].field in owners
      && var (bk, pay) := (s.bookings[b], s.payments[b]);
      && SettlePayment(owners, s, b, true, txn, today).rows
        == Enter(s.rows, today, owners[bk.field], BOOKING_CREDIT, CREDIT, Net(pay), FromPayment(pay.id))
      && ConfirmOrphan(owners, s, b, today).rows
        == Enter(s.rows, today, owners[bk.field], BOOKING_CREDIT, CREDIT, bk.total, FromPayment(pay.id))
  {
  }

  /** After any run, a webhook that credits the owner credits just what the client chose in the call that opened the
      payment, a deposit within its bounds or the full price. It writes the row that reconciliation would have written
      if and only if that was the full price; for a deposit reconciliation would have credited more. */
  lemma WebhookCreditsChosen(owners: map<Id, Id>, es: seq<Event>, b: Id, txn: string, today: Today)
    requires PossibleRun(owners, es)
    requires SettlePayment(owners, Run(owners, es), b, true, txn, today).rows != Run(owners, es).rows
    ensures
      var s := Run(owners, es);
      var rows, orphan := SettlePayment(owners, s, b, true, txn, today).rows, ConfirmOrphan(owners, s, b, today).rows;
      var (bk, pay, row) := (s.bookings[b], s.payments[b], rows[|s.rows|]);
      && rows == s.rows + [row] && row.owner == owners[bk.field] && row.rowType == BOOKING_CREDIT
      && PayOk(bk, pay) && row.amount == Net(pay) && (exists i :: AskedBy(es, i, b, bk, pay))
      && (rows == orphan <==> pay.amount == bk.total + bk.fee)
      && |orphan| == |rows| && (pay.amount != bk.total + bk.fee ==> row.amount < orphan[|s.rows|].amount)
  {
    var s := Run(owners, es);
    TwoCredits(owners, s, b, txn, today);
    RunFair(owners, es);
    RunAsked(owners, es);
    assert PayOk(s.bookings[b], s.payments[b]);
    Finance.SplitUndoesFee(s.bookings[b].total);
  }
}
