/** Bookings, their payments, cancellations and withdrawals, as functions on the tables they update. What the database
    or the payment provider answers is an argument. A handler that throws leaves the tables as they were, unless the
    source saves something first. */
module BookingModel {
  import opened Wrappers
  import opened SlotTime
  import opened Ledger
  import opened Sums
  import Finance

  datatype BookingStatus = PENDING_PAYMENT | CONFIRMED | CANCELLED | EXPIRED
  datatype PaymentStatus = PENDING | SUCCESS | FAILED
  datatype WithdrawalStatus = PENDING_VALIDATION | PROCESSED | REJECTED
  datatype RequestStatus = REQUESTED | APPROVED | DECLINED

  /** The last three fields are history, not columns: the starts checked at insertion, the place in insertion order,
      and the place in confirmation order (0 while never confirmed). */
  datatype Booking = Booking(
    client: Id, field: Id, schedule: Id, date: string, start: Minute, end: Minute, numSlots: nat,
    total: int, fee: int, minDeposit: Option<int>, status: BookingStatus, expiresAt: int, createdAt: int,
    held: seq<Minute>, inserted: nat, confirmed: nat)
  {
    predicate Live() {
      status == PENDING_PAYMENT || status == CONFIRMED
    }

    /** Whether x is among the starts getSlotStarts gives for this booking. */
    predicate StartsAt(x: Minute) {
      AmongStarts(x, start, end, numSlots)
    }
  }

  datatype Payment = Payment(id: Id, amount: int, status: PaymentStatus, operator: string, phone: Option<string>,
                             externalRef: Option<string>)

  /** What became of the money of an approved cancellation: the provider has yet to answer, it took the order, there
      was nowhere to send it, or the owner was credited back. */
  datatype Refund = NotDue | Sending(amount: int) | Sent(amount: int) | Kept(amount: int) | Returned(amount: int)

  /** The owner is the owner of the booked field. */
  datatype CancelRequest = CancelRequest(booking: Id, owner: Id, status: RequestStatus, refund: Refund)

  /** `sending` while the provider has yet to answer the cash-out. */
  datatype Withdrawal = Withdrawal(owner: Id, amount: int, fee: int, bank: bool, status: WithdrawalStatus,
                                   sending: bool)

  /** The tables. A booking has at most one payment (a unique column), so payments are kept by booking id. */
  datatype State = State(
    bookings: map<Id, Booking>, payments: map<Id, Payment>, requests: seq<CancelRequest>,
    withdrawals: seq<Withdrawal>, rows: seq<Row>, confirmations: nat)

  const EMPTY := State(map[], map[], [], [], [], 0)

  datatype Error =
    | FIELD_NOT_FOUND | FIELD_UNAVAILABLE | SCHEDULE_NOT_FOUND | CLIENT_NOT_FOUND | SLOT_TAKEN
    | BOOKING_NOT_FOUND | NOT_AWAITING_PAYMENT | BOOKING_EXPIRED | BELOW_DEPOSIT | ABOVE_TOTAL | ALREADY_CONFIRMED
    | PROVIDER_FAILED | SECOND_PAYMENT | INSUFFICIENT_BALANCE | WITHDRAWAL_NOT_PENDING | REQUEST_NOT_FOUND
    | REQUEST_EXISTS | REQUEST_PROCESSED | NOT_CONFIRMED | ALREADY_CONSUMED

  datatype Reply = Done(id: Id) | Refused(error: Error)

  // ---- createBooking ---------------------------------------------------------------------------------------------

  datatype BookingRequest = BookingRequest(field: Id, schedule: Id, date: string, start: Minute, numSlots: nat)

  datatype ScheduleRow = ScheduleRow(duration: nat, price: int, deposit: Option<int>)

  const EXPIRY_MS := 24 * 60 * 60 * 1000

  /** A booking that already holds start x of this schedule and date. */
  predicate Taken(bookings: map<Id, Booking>, q: BookingRequest, x: Minute) {
    exists id :: id in bookings && Holds(bookings[id], q, x)
  }

  predicate Holds(b: Booking, q: BookingRequest, x: Minute) {
    b.field == q.field && b.schedule == q.schedule && b.date == q.date && b.start == x && b.Live()
  }

  /** The client's own booking for the same request, still awaiting payment. */
  predicate OwnPending(b: Booking, q: BookingRequest, client: Id) {
    && b.field == q.field && b.date == q.date && b.start == q.start && b.client == client
    && b.status == PENDING_PAYMENT && b.numSlots == q.numSlots
  }

  /** findOne answers any row that matches, and none exactly when no row does. */
  ghost predicate OwnAnswer(bookings: map<Id, Booking>, q: BookingRequest, client: Id, own: Option<Id>) {
    match own
    case Some(id) => id in bookings && OwnPending(bookings[id], q, client)
    case None => forall id :: id in bookings ==> !OwnPending(bookings[id], q, client)
  }

  function Priced(q: BookingRequest, client: Id, row: ScheduleRow, now: int, inserted: nat): Booking {
    var total := row.price * q.numSlots;
    Booking(client, q.field, q.schedule, q.date, q.start, EndMinute(q.start, row.duration, q.numSlots), q.numSlots,
            total, Finance.ComputePlatformFee(total).commission,
            if row.deposit.Some? then Some(row.deposit.value * q.numSlots) else None,
            PENDING_PAYMENT, now + EXPIRY_MS, now,
            BookedMinutes(q.start, row.duration, q.numSlots), inserted, 0)
  }

  /** createBooking once field, schedule and client are known: resume, refuse or insert. */
  function TryBook(bookings: map<Id, Booking>, q: BookingRequest, client: Id, row: ScheduleRow, now: int, id: Id,
                   own: Option<Id>): (map<Id, Booking>, Reply)
  {
    if own.Some? && own.value in bookings && now < bookings[own.value].expiresAt then
      (bookings, Done(own.value))
    else if exists i :: 0 <= i < q.numSlots
                        && Taken(bookings, q, BookedMinutes(q.start, row.duration, q.numSlots)[i]) then
      (bookings, Refused(SLOT_TAKEN))
    else
      (bookings[id := Priced(q, client, row, now, |bookings|)], Done(id))
  }

  /** `available`, `row` and `client` are what the database holds for the field, the schedule and the user. */
  function CreateBooking(s: State, q: BookingRequest, available: Option<bool>, row: Option<ScheduleRow>,
                         client: Option<Id>, now: int, id: Id, own: Option<Id>): (State, Reply)
  {
    if available.None? then (s, Refused(FIELD_NOT_FOUND))
    else if !available.value then (s, Refused(FIELD_UNAVAILABLE))
    else if row.None? then (s, Refused(SCHEDULE_NOT_FOUND))
    else if client.None? then (s, Refused(CLIENT_NOT_FOUND))
    else
      var (bookings, reply) := TryBook(s.bookings, q, client.value, row.value, now, id, own);
      (s.(bookings := bookings), reply)
  }

  // ---- initiatePayment -------------------------------------------------------------------------------------------

  function WithStatus(s: State, b: Id, status: BookingStatus): State
    requires b in s.bookings
  {
    s.(bookings := s.bookings[b := s.bookings[b].(status := status)])
  }

  /** Another booking of the same field and date is confirmed on one of b's starts. */
  predicate ConfirmedClash(s: State, b: Id)
    requires b in s.bookings
  {
    exists c :: c in s.bookings && ClashesWith(s.bookings[b], s.bookings[c])
  }

  predicate ClashesWith(b: Booking, c: Booking) {
    c.field == b.field && c.date == b.date && c.status == CONFIRMED && b.StartsAt(c.start)
  }

  function AskedAmount(b: Booking, paid: Option<int>): int {
    if paid.Some? then Finance.ComputePlatformFee(paid.value).totalWithFee else b.total + b.fee
  }

  datatype Ask = Ask(client: Option<Id>, paid: Option<int>, operator: string, phone: Option<string>)

  /** `answer` is the reference the provider gives, or none when its call throws. */
  function InitiatePayment(s: State, b: Id, ask: Ask, now: int, newId: Id, answer: Option<string>): (State, Reply) {
    if ask.client.None? then (s, Refused(CLIENT_NOT_FOUND))
    else if b !in s.bookings || s.bookings[b].client != ask.client.value then (s, Refused(BOOKING_NOT_FOUND))
    else
      var bk := s.bookings[b];
      if bk.status != PENDING_PAYMENT then (s, Refused(NOT_AWAITING_PAYMENT))
      else if now > bk.expiresAt then (WithStatus(s, b, EXPIRED), Refused(BOOKING_EXPIRED))
      else if ask.paid.Some? && bk.minDeposit.Some? && ask.paid.value < bk.minDeposit.value then
        (s, Refused(BELOW_DEPOSIT))
      else if ask.paid.Some? && ask.paid.value > bk.total then (s, Refused(ABOVE_TOTAL))
      else if ConfirmedClash(s, b) then (WithStatus(s, b, CANCELLED), Refused(ALREADY_CONFIRMED))
      else if b in s.payments && s.payments[b].status == PENDING then
        if answer.None? then
          (WithStatus(s, b, EXPIRED).(payments := s.payments - {b}), Refused(PROVIDER_FAILED))
        else
          var was := s.payments[b];
          var phone := if ask.phone.Some? then ask.phone else was.phone;
          (s.(payments := s.payments[b := was.(externalRef := answer, operator := ask.operator, phone := phone)]),
           Done(was.id))
      else if b in s.payments then (s, Refused(SECOND_PAYMENT))
      else if answer.None? then (WithStatus(s, b, EXPIRED), Refused(PROVIDER_FAILED))
      else
        var pay := Payment(newId, AskedAmount(bk, ask.paid), PENDING, ask.operator, ask.phone, answer);
        (s.(payments := s.payments[b := pay]), Done(newId))
  }

  // ---- settling a payment ----------------------------------------------------------------------------------------

  function WithPayment(s: State, b: Id, status: PaymentStatus): State
    requires b in s.payments
  {
    s.(payments := s.payments[b := s.payments[b].(status := status)])
  }

  function Confirm(s: State, b: Id): State
    requires b in s.bookings
  {
    var stamp := s.confirmations + 1;
    s.(bookings := s.bookings[b := s.bookings[b].(status := CONFIRMED, confirmed := stamp)], confirmations := stamp)
  }

  /** The BOOKING_CREDIT row, if the field has an owner. */
  function Credit(owners: map<Id, Id>, s: State, field: Id, amount: int, source: Source, today: Today): State {
    if field !in owners then s
    else s.(rows := Enter(s.rows, today, owners[field], BOOKING_CREDIT, CREDIT, amount, source))
  }

  /** The reference of the webhook's transaction, if it has one. */
  function WithReference(s: State, b: Id, txn: string): State
    requires b in s.payments
  {
    if txn == "" then s else s.(payments := s.payments[b := s.payments[b].(externalRef := Some(txn))])
  }

  /** The payment part of handleWebhook, for the payment of booking b. */
  function SettlePayment(owners: map<Id, Id>, s: State, b: Id, success: bool, txn: string, today: Today): State {
    if b !in s.payments || b !in s.bookings || s.payments[b].status != PENDING then s
    else if !success then
      WithStatus(WithPayment(s, b, FAILED), b, CANCELLED)
    else
      var s1 := WithReference(s, b, txn);
      if ConfirmedClash(s, b) then
        WithStatus(WithPayment(s1, b, FAILED), b, CANCELLED)
      else
        var pay := s.payments[b];
        Credit(owners, Confirm(WithPayment(s1, b, SUCCESS), b), s.bookings[b].field,
               Finance.SplitPayment(pay.amount).ownerCredit, FromPayment(pay.id), today)
  }

  /** `confirmOrphanBooking`: no status is read again and no slot is checked. */
  function ConfirmOrphan(owners: map<Id, Id>, s: State, b: Id, today: Today): State
    requires b in s.bookings
  {
    var bk := s.bookings[b];
    var s1 := if b in s.payments then WithPayment(s, b, SUCCESS) else s;
    var source := if b in s.payments then FromPayment(s.payments[b].id) else FromBooking(b);
    Credit(owners, Confirm(s1, b), bk.field, bk.total, source, today)
  }

  /** `cancelOrphanBooking` */
  function CancelOrphan(s: State, b: Id, status: BookingStatus): State
    requires b in s.bookings
  {
    WithStatus(if b in s.payments then WithPayment(s, b, FAILED) else s, b, status)
  }

  /** The provider's answer to verifyTransaction. */
  datatype Verdict = Paid | Unpaid | Lapsed | Open | Threw

  /** The verdict on an orphan booking: asked by payment id (or booking id), and again by external reference. */
  function OrphanVerdict(s: State, b: Id, ask: string -> Verdict): Verdict {
    var ref := if b in s.payments then s.payments[b].id else b;
    var first := ask(ref);
    if first == Threw then Threw
    else if first != Paid && b in s.payments && s.payments[b].externalRef.Some? && s.payments[b].externalRef.value != ""
         && s.payments[b].externalRef.value != ref then
      var retry := ask(s.payments[b].externalRef.value);
      if retry == Paid || retry == Threw then retry else first
    else first
  }

  function SettleOrphan(owners: map<Id, Id>, s: State, b: Id, verdict: Verdict, today: Today): State
    requires b in s.bookings
  {
    match verdict
    case Paid => ConfirmOrphan(owners, s, b, today)
    case Unpaid => CancelOrphan(s, b, CANCELLED)
    case Lapsed => CancelOrphan(s, b, EXPIRED)
    case Open => s
    case Threw => s
  }

  predicate Orphan(s: State, b: Id, threshold: int) {
    b in s.bookings && s.bookings[b].status == PENDING_PAYMENT && s.bookings[b].createdAt <= threshold
  }

  // ---- withdrawals -----------------------------------------------------------------------------------------------

  function Total(w: Withdrawal): int {
    w.amount + w.fee
  }

  /** The sum over an owner's withdrawals in one status of amount and fee. */
  function SumOf(ws: seq<Withdrawal>, owner: Id, status: WithdrawalStatus): int {
    Sum(ws, ShareOf(owner, status))
  }

  function ShareOf(owner: Id, status: WithdrawalStatus): Withdrawal -> int {
    (w: Withdrawal) => if w.owner == owner && w.status == status then Total(w) else 0
  }

  /** The balance an owner can draw on: the ledger, less what bank transfers await. */
  function Available(s: State, owner: Id): int {
    Balance(s.rows, owner) - SumOf(s.withdrawals, owner, PENDING_VALIDATION)
  }

  /** requestWithdrawal up to its commit; `operator` is the mobile operator, if one was given. */
  function OpenWithdrawal(s: State, owner: Id, amount: int, bank: bool, operator: bool, today: Today): (State, Reply) {
    var w := Withdrawal(owner, amount, Finance.WithdrawalFee(amount), bank,
                        if bank then PENDING_VALIDATION else PROCESSED, !bank && operator);
    if Available(s, owner) < Total(w) then (s, Refused(INSUFFICIENT_BALANCE))
    else
      var rows := if bank then s.rows
                  else Enter(s.rows, today, owner, WITHDRAWAL_DEBIT, DEBIT, Total(w), FromOwner(owner));
      (s.(rows := rows, withdrawals := s.withdrawals + [w]), Done(owner))
  }

  /** requestWithdrawal once the provider has answered the cash-out. */
  function CloseWithdrawal(s: State, n: nat, ok: bool, today: Today): State {
    if n >= |s.withdrawals| || !s.withdrawals[n].sending then s
    else
      var w := s.withdrawals[n].(sending := false);
      if ok then s.(withdrawals := s.withdrawals[n := w])
      else
        s.(rows := Enter(s.rows, today, w.owner, REFUND_CREDIT, CREDIT, Total(w), FromWithdrawal(n)),
           withdrawals := s.withdrawals[n := w.(status := REJECTED)])
  }

  /** `validateWithdrawal` */
  function ValidateWithdrawal(s: State, n: nat, approve: bool, today: Today): (State, Reply) {
    if n >= |s.withdrawals| || s.withdrawals[n].status != PENDING_VALIDATION then (s, Refused(WITHDRAWAL_NOT_PENDING))
    else
      var w := s.withdrawals[n];
      if approve then
        (s.(rows := Enter(s.rows, today, w.owner, WITHDRAWAL_DEBIT, DEBIT, Total(w), FromWithdrawal(n)),
            withdrawals := s.withdrawals[n := w.(status := PROCESSED)]), Done(w.owner))
      else
        (s.(withdrawals := s.withdrawals[n := w.(status := REJECTED)]), Done(w.owner))
  }

  // ---- cancellations ---------------------------------------------------------------------------------------------

  predicate Requested(s: State, b: Id) {
    exists k :: 0 <= k < |s.requests| && s.requests[k].booking == b && s.requests[k].status == REQUESTED
  }

  /** Who asks for a booking: a client, an owner or the staff of one, an administrator, or anyone else. */
  datatype Viewer = AsClient(client: Id) | AsOwner(owner: Id) | AsAdmin | AsOther

  /** `getBookingById` finds the booking. */
  predicate CanSee(owners: map<Id, Id>, s: State, b: Id, viewer: Viewer) {
    && b in s.bookings && s.bookings[b].field in owners
    && match viewer
       case AsClient(client) => s.bookings[b].client == client
       case AsOwner(owner) => owners[s.bookings[b].field] == owner
       case AsAdmin => true
       case AsOther => false
  }

  /** `requestCancellation` */
  function RequestCancellation(owners: map<Id, Id>, s: State, b: Id, viewer: Viewer): (State, Reply) {
    if !CanSee(owners, s, b, viewer) then (s, Refused(BOOKING_NOT_FOUND))
    else if s.bookings[b].status != CONFIRMED then (s, Refused(NOT_CONFIRMED))
    else if Requested(s, b) then (s, Refused(REQUEST_EXISTS))
    else
      (s.(requests := s.requests + [CancelRequest(b, owners[s.bookings[b].field], REQUESTED, NotDue)]), Done(b))
  }

  /** validateCancellationRequest up to its commit; `consumed` says whether the booked time is over. */
  function ValidateCancellation(s: State, k: nat, caller: Id, approve: bool, consumed: bool, today: Today)
    : (State, Reply)
  {
    if k >= |s.requests| || s.requests[k].owner != caller || s.requests[k].booking !in s.bookings then
      (s, Refused(REQUEST_NOT_FOUND))
    else if s.requests[k].status != REQUESTED then (s, Refused(REQUEST_PROCESSED))
    else if !approve then
      (s.(requests := s.requests[k := s.requests[k].(status := DECLINED)]), Done(s.requests[k].booking))
    else if consumed then (s, Refused(ALREADY_CONSUMED))
    else
      var b := s.requests[k].booking;
      var amount := Finance.RefundAmount(s.bookings[b].total);
      if Balance(s.rows, caller) < amount then (s, Refused(INSUFFICIENT_BALANCE))
      else
        var sendable := b in s.payments && s.payments[b].operator != "" && s.payments[b].phone.Some?
                        && s.payments[b].phone.value != "";
        var request := s.requests[k].(status := APPROVED, refund := if sendable then Sending(amount) else Kept(amount));
        (WithStatus(s, b, CANCELLED).(
           rows := Enter(s.rows, today, caller, REFUND_DEBIT, DEBIT, amount, FromRefund(k)),
           requests := s.requests[k := request]), Done(b))
  }

  /** validateCancellationRequest once the provider has answered the cash-out. */
  function CloseRefund(s: State, k: nat, ok: bool, today: Today): State {
    if k >= |s.requests| || !s.requests[k].refund.Sending? then s
    else
      var request := s.requests[k];
      var amount := request.refund.amount;
      if ok then s.(requests := s.requests[k := request.(refund := Sent(amount))])
      else
        s.(rows := Enter(s.rows, today, request.owner, REFUND_CREDIT, CREDIT, amount, FromRefund(k)),
           requests := s.requests[k := request.(refund := Returned(amount))])
  }

  // ---- runs ------------------------------------------------------------------------------------------------------

  /** One step of any handler. A withdrawal or a refund takes two steps, before and after the provider's answer, so
      that other handlers may run in between. */
  datatype Event =
    | Book(q: BookingRequest, available: Option<bool>, row: Option<ScheduleRow>, client: Option<Id>, now: int, id: Id,
           own: Option<Id>)
    | Initiate(b: Id, ask: Ask, now: int, id: Id, answer: Option<string>)
    | Webhook(b: Id, success: bool, txn: string, today: Today)
    | Reconcile(b: Id, verdict: Verdict, threshold: int, today: Today)
    | Withdraw(owner: Id, amount: int, bank: bool, operator: bool, today: Today)
    | CashOut(n: nat, ok: bool, today: Today)
    | Validate(n: nat, approve: bool, today: Today)
    | AskCancel(b: Id, viewer: Viewer)
    | JudgeCancel(k: nat, caller: Id, approve: bool, consumed: bool, today: Today)
    | PayBack(k: nat, ok: bool, today: Today)

  /** No row carries this id yet. */
  ghost predicate Fresh(s: State, id: Id) {
    id !in s.bookings && forall b :: b in s.payments ==> s.payments[b].id != id
  }

  /** What the database and the request validation guarantee: new ids are fresh, a lookup answers a matching row, a
      booking has at least one slot and no negative price, and a withdrawal is of at least 50 FCFA. */
  ghost predicate Possible(s: State, e: Event) {
    match e
    case Book(q, _, row, client, _, id, own) =>
      && q.numSlots >= 1 && Fresh(s, id)
      && (row.Some? ==> row.value.price >= 0)
      && (client.Some? ==> OwnAnswer(s.bookings, q, client.value, own))
    case Initiate(_, ask, _, id, _) => Fresh(s, id) && (ask.paid.Some? ==> ask.paid.value >= 1)
    case Withdraw(_, amount, _, _, _) => amount >= 50
    case _ => true
  }

  function Step(owners: map<Id, Id>, s: State, e: Event): State {
    match e
    case Book(q, available, row, client, now, id, own) => CreateBooking(s, q, available, row, client, now, id, own).0
    case Initiate(b, ask, now, id, answer) => InitiatePayment(s, b, ask, now, id, answer).0
    case Webhook(b, success, txn, today) => SettlePayment(owners, s, b, success, txn, today)
    case Reconcile(b, verdict, threshold, today) =>
      if Orphan(s, b, threshold) then SettleOrphan(owners, s, b, verdict, today) else s
    case Withdraw(owner, amount, bank, operator, today) => OpenWithdrawal(s, owner, amount, bank, operator, today).0
    case CashOut(n, ok, today) => CloseWithdrawal(s, n, ok, today)
    case Validate(n, approve, today) => ValidateWithdrawal(s, n, approve, today).0
    case AskCancel(b, viewer) => RequestCancellation(owners, s, b, viewer).0
    case JudgeCancel(k, caller, approve, consumed, today) =>
      ValidateCancellation(s, k, caller, approve, consumed, today).0
    case PayBack(k, ok, today) => CloseRefund(s, k, ok, today)
  }

  /** The steps that touch neither bookings nor payments. */
  predicate LeavesBookings(e: Event) {
    e.Withdraw? || e.CashOut? || e.Validate? || e.AskCancel? || e.PayBack?
  }

  lemma BookingsLeft(owners: map<Id, Id>, s: State, e: Event)
    requires LeavesBookings(e)
    ensures
      var s' := Step(owners, s, e);
      s'.bookings == s.bookings && s'.payments == s.payments && s'.confirmations == s.confirmations
  {
  }

  /** The tables after a run of events from empty tables. */
  function Run(owners: map<Id, Id>, es: seq<Event>): State {
    if es == [] then EMPTY else Step(owners, Run(owners, es[..|es| - 1]), es[|es| - 1])
  }

  /** The tables before, between and after the events of a run. */
  ghost predicate Visits(owners: map<Id, Id>, es: seq<Event>, states: seq<State>) {
    && |states| == |es| + 1 && states[0] == EMPTY
    && forall i :: 0 <= i < |es| ==> states[i + 1] == Step(owners, states[i], es[i])
  }

  lemma {:induction false} VisitedStates(owners: map<Id, Id>, es: seq<Event>) returns (states: seq<State>)
    ensures Visits(owners, es, states)
  {
    if es == [] {
      states := [EMPTY];
    } else {
      var before := VisitedStates(owners, es[..|es| - 1]);
      states := before + [Step(owners, before[|es| - 1], es[|es| - 1])];
    }
  }

  lemma {:induction false} VisitsAreRuns(owners: map<Id, Id>, es: seq<Event>, states: seq<State>, n: nat)
    requires Visits(owners, es, states) && n <= |es|
    ensures Run(owners, es[..n]) == states[n]
  {
    if n > 0 {
      VisitsAreRuns(owners, es, states, n - 1);
      assert es[..n][..n - 1] == es[..n - 1];
    }
  }

  ghost predicate PossibleRun(owners: map<Id, Id>, es: seq<Event>) {
    forall i :: 0 <= i < |es| ==> Possible(Run(owners, es[..i]), es[i])
  }

  /** All but the last event are a possible run, and the last one is possible after it. */
  lemma LastEvent(owners: map<Id, Id>, es: seq<Event>)
    requires PossibleRun(owners, es) && es != []
    ensures PossibleRun(owners, es[..|es| - 1])
    ensures Possible(Run(owners, es[..|es| - 1]), es[|es| - 1])
  {
    var prefix := es[..|es| - 1];
    forall i | 0 <= i < |prefix|
      ensures Possible(Run(owners, prefix[..i]), prefix[i])
    {
      assert prefix[..i] == es[..i];
      assert Possible(Run(owners, es[..i]), es[i]);
    }
  }

  lemma PossibleVisits(owners: map<Id, Id>, es: seq<Event>, states: seq<State>)
    requires Visits(owners, es, states)
    requires forall i :: 0 <= i < |es| ==> Possible(states[i], es[i])
    ensures PossibleRun(owners, es) && Run(owners, es) == states[|es|]
  {
    forall i | 0 <= i <= |es|
      ensures Run(owners, es[..i]) == states[i]
    {
      VisitsAreRuns(owners, es, states, i);
    }
    assert es[..|es|] == es;
  }
}
