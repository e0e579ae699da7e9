/** Handlers that act on rows read earlier. confirmOrphanBooking and the webhook's transaction read no status again:
    what they do when another handler has settled the booking in the meantime, and when they still credit it once. */
module StaleRows {
  import opened Wrappers
  import opened SlotTime
  import opened Ledger
  import opened BookingModel
  import Finance
  import opened ExactlyOnce

  // ---- reconciliation ----------------------------------------------------------------------------------------------

  /** confirmOrphanBooking on a booking row that carried the payment `read`, or none, when it was read. */
  function ConfirmRow(owners: map<Id, Id>, s: State, b: Id, read: Option<Id>, today: Today): State
    requires b in s.bookings
  {
    var bk := s.bookings[b];
    var s1 := if read.Some? && b in s.payments && s.payments[b].id == read.value then WithPayment(s, b, SUCCESS) else s;
    Credit(owners, Confirm(s1, b), bk.field, bk.total, SourceOf(b, read), today)
  }

  function PaymentNow(s: State, b: Id): Option<Id> {
    if b in s.payments then Some(s.payments[b].id) else None
  }

  /** On a row read just now it is the handler of the runs. */
  lemma ConfirmRowNow(owners: map<Id, Id>, s: State, b: Id, today: Today)
    requires b in s.bookings
    ensures ConfirmRow(owners, s, b, PaymentNow(s, b), today) == ConfirmOrphan(owners, s, b, today)
  {
  }

  /** The credits of booking b: under its own id, its payment's, and the id of a payment it had earlier. */
  ghost function Credits(s: State, b: Id, read: Option<Id>): nat {
    var credited := CreditedSources(s.rows);
    credited[FromBooking(b)]
    + (if b in s.payments then credited[FromPayment(s.payments[b].id)] else 0)
    + (if read.Some? && read != PaymentNow(s, b) then credited[FromPayment(read.value)] else 0)
  }

  /** No other booking's payment has this id. */
  ghost predicate NotAnothers(s: State, b: Id, read: Option<Id>) {
    read.Some? ==> forall c :: c in s.payments && c != b ==> s.payments[c].id != read.value
  }

  lemma CreditsBefore(owners: map<Id, Id>, s: State, b: Id, read: Option<Id>)
    requires Valid(owners, s) && b in s.bookings && NotAnothers(s, b, read)
    ensures Credits(s, b, read) == if Due(owners, s, b) then 1 else 0
  {
    CreditsOf(owners, s, b);
    if read.Some? && read != PaymentNow(s, b) {
      NeverDue(owners, s, read.value);
    }
  }

  lemma NeverDue(owners: map<Id, Id>, s: State, id: Id)
    requires Valid(owners, s) && forall c :: c in s.payments ==> s.payments[c].id != id
    ensures CreditedSources(s.rows)[FromPayment(id)] == 0
  {
    assert FromPayment(id) !in DueSources(owners, s);
  }

  /** On a row read earlier, whatever payment the row had, confirmOrphanBooking leaves one credit for the booking if and
      only if the booking has not been confirmed since, and two otherwise. */
  lemma StaleConfirm(owners: map<Id, Id>, s: State, b: Id, read: Option<Id>, today: Today)
    requires Valid(owners, s) && b in s.bookings && s.bookings[b].field in owners && NotAnothers(s, b, read)
    ensures Credits(ConfirmRow(owners, s, b, read, today), b, read) == if s.bookings[b].confirmed > 0 then 2 else 1
  {
    CreditsBefore(owners, s, b, read);
    RowCredits(owners, s, b, read, today);
    OneCreditMore(s, ConfirmRow(owners, s, b, read, today), b, read);
  }

  function SourceOf(b: Id, read: Option<Id>): Source {
    if read.Some? then FromPayment(read.value) else FromBooking(b)
  }

  lemma RowCredits(owners: map<Id, Id>, s: State, b: Id, read: Option<Id>, today: Today)
    requires b in s.bookings && s.bookings[b].field in owners
    ensures
      var s' := ConfirmRow(owners, s, b, read, today);
      && PaymentNow(s', b) == PaymentNow(s, b)
      && CreditedSources(s'.rows) == CreditedSources(s.rows) + multiset{SourceOf(b, read)}
  {
    var bk, s' := s.bookings[b], ConfirmRow(owners, s, b, read, today);
    CreditedByEnter(s.rows, today, owners[bk.field], BOOKING_CREDIT, CREDIT, bk.total, SourceOf(b, read));
    assert s'.rows == Enter(s.rows, today, owners[bk.field], BOOKING_CREDIT, CREDIT, bk.total, SourceOf(b, read));
  }

  lemma OneCreditMore(s: State, s': State, b: Id, read: Option<Id>)
    requires PaymentNow(s', b) == PaymentNow(s, b)
    requires CreditedSources(s'.rows) == CreditedSources(s.rows) + multiset{SourceOf(b, read)}
    ensures Credits(s', b, read) == Credits(s, b, read) + 1
  {
  }

  // ---- the webhook -------------------------------------------------------------------------------------------------

  /** The payment as it was when the webhook found it PENDING. */
  function AsRead(s: State, b: Id): State
    requires b in s.payments
  {
    WithPayment(s, b, PENDING)
  }

  /** The webhook's transaction for a payment found PENDING earlier. */
  function WebhookRow(owners: map<Id, Id>, s: State, b: Id, success: bool, txn: string, today: Today): State
    requires b in s.payments
  {
    SettlePayment(owners, AsRead(s, b), b, success, txn, today)
  }

  lemma OwnClash(s: State, b: Id)
    requires b in s.bookings && s.bookings[b].status == CONFIRMED && s.bookings[b].numSlots >= 1
    ensures ConfirmedClash(s, b)
  {
    var bk := s.bookings[b];
    OwnStart(bk.start, bk.end, 0, bk.numSlots);
    assert ClashesWith(bk, bk);
  }

  lemma StaleClash(owners: map<Id, Id>, s: State, b: Id, txn: string, today: Today)
    requires b in s.payments && b in s.bookings && ConfirmedClash(s, b)
    ensures
      var s' := WebhookRow(owners, s, b, true, txn, today);
      && b in s'.bookings && s'.bookings[b].status == CANCELLED && b in s'.payments && s'.payments[b].status == FAILED
      && s'.payments[b].id == s.payments[b].id && s'.rows == s.rows
  {
    assert ConfirmedClash(AsRead(s, b), b);
  }

  lemma StaleSuccess(owners: map<Id, Id>, s: State, b: Id, txn: string, today: Today)
    requires b in s.payments && b in s.bookings && s.bookings[b].field in owners && !ConfirmedClash(s, b)
    ensures
      var s', pay := WebhookRow(owners, s, b, true, txn, today), s.payments[b];
      && b in s'.bookings && s'.bookings[b].status == CONFIRMED && b in s'.payments && s'.payments[b].status == SUCCESS
      && s'.payments[b].id == pay.id
      && s'.rows == Enter(s.rows, today, owners[s.bookings[b].field], BOOKING_CREDIT, CREDIT,
                          Finance.SplitPayment(pay.amount).ownerCredit, FromPayment(pay.id))
  {
    assert !ConfirmedClash(AsRead(s, b), b);
  }

  /** A success delivered on a payment read earlier confirms the booking if and only if no confirmed booking holds one
      of its starts. If the booking itself has been confirmed since, it finds itself, is cancelled and its payment
      failed, and the owner keeps the credit. */
  lemma StaleWebhook(owners: map<Id, Id>, s: State, b: Id, txn: string, today: Today)
    requires Valid(owners, s) && b in s.payments && s.bookings[b].field in owners && s.bookings[b].numSlots >= 1
    ensures
      var s' := WebhookRow(owners, s, b, true, txn, today);
      && b in s'.bookings && b in s'.payments
      && (s'.bookings[b].status == CONFIRMED <==> !ConfirmedClash(s, b))
      && (s'.payments[b].status == SUCCESS <==> !ConfirmedClash(s, b))
      && Credits(s', b, None)
        == (if s.bookings[b].confirmed > 0 then 1 else 0) + (if ConfirmedClash(s, b) then 0 else 1)
      && (s.bookings[b].status == CONFIRMED ==>
            s'.bookings[b].status == CANCELLED && s'.payments[b].status == FAILED && s'.rows == s.rows)
  {
    var bk, pay := s.bookings[b], s.payments[b];
    CreditsBefore(owners, s, b, None);
    if bk.status == CONFIRMED {
      OwnClash(s, b);
    }
    if ConfirmedClash(s, b) {
      StaleClash(owners, s, b, txn, today);
    } else {
      StaleSuccess(owners, s, b, txn, today);
      CreditedByEnter(s.rows, today, owners[bk.field], BOOKING_CREDIT, CREDIT,
                      Finance.SplitPayment(pay.amount).ownerCredit, FromPayment(pay.id));
    }
  }

  // ---- undone after it was paid ------------------------------------------------------------------------------------

  /** cancelOrphanBooking on a booking row that carried the payment `read`, or none, when it was read. */
  function CancelRow(s: State, b: Id, read: Option<Id>, status: BookingStatus): State
    requires b in s.bookings
  {
    var s1 := if read.Some? && b in s.payments && s.payments[b].id == read.value then WithPayment(s, b, FAILED) else s;
    WithStatus(s1, b, status)
  }

  /** On a row read just now it is the handler of the runs. */
  lemma CancelRowNow(s: State, b: Id, status: BookingStatus)
    requires b in s.bookings
    ensures CancelRow(s, b, PaymentNow(s, b), status) == CancelOrphan(s, b, status)
  {
  }

  /** initiatePayment when the provider's call throws: the payment it had found or saved is deleted. */
  function ProviderThrew(s: State, b: Id, id: Id): State
    requires b in s.bookings
  {
    WithStatus(s, b, EXPIRED).(
      payments := if b in s.payments && s.payments[b].id == id then s.payments - {b} else s.payments)
  }

  /** Booking b is not live, and no payment of it has succeeded. */
  ghost predicate Undone(s: State, b: Id) {
    b in s.bookings && !s.bookings[b].Live() && (b in s.payments ==> s.payments[b].status != SUCCESS)
  }

  /** A failure reported, an orphan cancelled or a provider that threw, all on a payment read earlier, undo the booking
      whatever has become of it since; the owner keeps a credit for it if and only if it has been confirmed since. */
  lemma StaleUndo(owners: map<Id, Id>, s: State, b: Id, status: BookingStatus, txn: string, today: Today)
    requires Valid(owners, s) && b in s.payments && s.bookings[b].field in owners && status in {CANCELLED, EXPIRED}
    ensures
      var id, kept := s.payments[b].id, if s.bookings[b].confirmed > 0 then 1 else 0;
      && Undone(WebhookRow(owners, s, b, false, txn, today), b)
      && Undone(CancelRow(s, b, Some(id), status), b)
      && Undone(ProviderThrew(s, b, id), b)
      && Credits(WebhookRow(owners, s, b, false, txn, today), b, Some(id)) == kept
      && Credits(CancelRow(s, b, Some(id), status), b, Some(id)) == kept
      && Credits(ProviderThrew(s, b, id), b, Some(id)) == kept
  {
    var id := s.payments[b].id;
    CreditsBefore(owners, s, b, Some(id));
    SameCredits(s, WebhookRow(owners, s, b, false, txn, today), b, id);
    SameCredits(s, CancelRow(s, b, Some(id), status), b, id);
    SameCredits(s, ProviderThrew(s, b, id), b, id);
  }

  /** As long as no row is written the credits of a payment stay, whether the payment does or not. */
  lemma SameCredits(s: State, s': State, b: Id, id: Id)
    requires s'.rows == s.rows && b in s.payments && s.payments[b].id == id
    requires b in s'.payments ==> s'.payments[b].id == id
    ensures Credits(s', b, Some(id)) == Credits(s, b, Some(id))
  {
  }

  // ---- a run -------------------------------------------------------------------------------------------------------

  const OWNERS := map["field" := "owner"]
  const REQUEST := BookingRequest("field", "schedule", "2026-01-01", 600, 1)

  /** A booking of 1000 is made, its payment opened, and the payment reported. */
  function Paying(today: Today): seq<Event> {
    [Book(REQUEST, Some(true), Some(ScheduleRow(60, 1000, None)), Some("alice"), 0, "A", None),
     Initiate("A", Ask(Some("alice"), None, "WAVE", None), 0, "p", Some("ref")),
     Webhook("A", true, "txn", today)]
  }

  ghost predicate Row(s: State, status: BookingStatus, payment: PaymentStatus) {
    && s.bookings.Keys == {"A"} && s.payments.Keys == {"A"}
    && s.bookings["A"].status == status && s.bookings["A"].total == 1000 && s.bookings["A"].field == "field"
    && s.bookings["A"].createdAt == 0 && s.bookings["A"].numSlots == 1
    && s.payments["A"].status == payment && s.payments["A"].id == "p" && s.payments["A"].amount == 1050
  }

  lemma AlicePays(es: seq<Event>, ss: seq<State>, today: Today)
    requires Visits(OWNERS, es, ss) && es == Paying(today)
    ensures ss[1].bookings.Keys == {"A"} && ss[1].payments == map[]
    ensures Row(ss[2], PENDING_PAYMENT, PENDING) && Row(ss[3], CONFIRMED, SUCCESS) && ss[3].bookings["A"].confirmed == 1
    ensures Balance(ss[3].rows, "owner") == 1000
  {
    assert Finance.ComputePlatformFee(1000).commission == 50 && Finance.SplitPayment(1050).ownerCredit == 1000;
    assert ss[1] == Step(OWNERS, EMPTY, es[0]);
    assert ss[2] == Step(OWNERS, ss[1], es[1]);
    assert ss[3] == Step(OWNERS, ss[2], es[2]);
    BalanceOfPost(ss[2].rows, today, Posting("owner", BOOKING_CREDIT, CREDIT, 1000, 0, FromPayment("p")), "owner");
  }

  /** Reconciliation reads the orphan while its payment is open, the webhook pays it, and then reconciliation confirms
      the row it had read: the owner has 2000 for a booking of 1000. */
  lemma StaleConfirmCreditsTwice(today: Today)
    ensures PossibleRun(OWNERS, Paying(today))
    ensures Orphan(Run(OWNERS, Paying(today)[..2]), "A", 0)
    ensures
      var s := Run(OWNERS, Paying(today));
      && "A" in s.bookings
      && Credits(ConfirmRow(OWNERS, s, "A", Some("p"), today), "A", Some("p")) == 2
      && Balance(ConfirmRow(OWNERS, s, "A", Some("p"), today).rows, "owner") == 2000
  {
    var es := Paying(today);
    var ss := PayingVisits(es, today);
    StaleConfirm(OWNERS, ss[3], "A", Some("p"), today);
    BalanceOfPost(ss[3].rows, today, Posting("owner", BOOKING_CREDIT, CREDIT, 1000, 1000, FromPayment("p")), "owner");
  }

  lemma PayingPossible(es: seq<Event>, ss: seq<State>, today: Today)
    requires es == Paying(today) && |ss| == 4 && ss[0] == EMPTY
    requires ss[1].bookings.Keys == {"A"} && ss[1].payments == map[]
    ensures forall i :: 0 <= i < |es| ==> Possible(ss[i], es[i])
  {
  }

  lemma PayingVisits(es: seq<Event>, today: Today) returns (ss: seq<State>)
    requires es == Paying(today)
    ensures |ss| == 4 && PossibleRun(OWNERS, es) && Run(OWNERS, es) == ss[3] && Run(OWNERS, es[..2]) == ss[2]
    ensures Row(ss[2], PENDING_PAYMENT, PENDING) && Row(ss[3], CONFIRMED, SUCCESS) && ss[3].bookings["A"].confirmed == 1
    ensures Balance(ss[3].rows, "owner") == 1000 && Valid(OWNERS, ss[3])
  {
    ss := VisitedStates(OWNERS, es);
    AlicePays(es, ss, today);
    PayingPossible(es, ss, today);
    PossibleVisits(OWNERS, es, ss);
    VisitsAreRuns(OWNERS, es, ss, 2);
    RunKeeps(OWNERS, es);
  }

  /** The webhook is delivered twice at once: the second delivery cancels the booking that the first one confirmed, and
      the owner keeps the 1000. */
  lemma DuplicateDeliveryCancels(today: Today)
    ensures PossibleRun(OWNERS, Paying(today))
    ensures
      var s := Run(OWNERS, Paying(today));
      && "A" in s.payments
      && var s' := WebhookRow(OWNERS, s, "A", true, "txn", today);
      && "A" in s'.bookings && s'.bookings["A"].status == CANCELLED && s'.payments["A"].status == FAILED
      && Balance(s'.rows, "owner") == 1000
  {
    var ss := PayingVisits(Paying(today), today);
    StaleWebhook(OWNERS, ss[3], "A", "txn", today);
  }

  /** The client asks for the payment again and the provider's call fails, after the first one was reported paid: the
      booking is gone, its payment too, and the owner keeps the 1000. */
  lemma ProviderFailureUndoes(today: Today)
    ensures PossibleRun(OWNERS, Paying(today))
    ensures
      var s := Run(OWNERS, Paying(today));
      && "A" in s.bookings
      && var s' := ProviderThrew(s, "A", "p");
      && Undone(s', "A") && s'.payments == map[] && Credits(s', "A", Some("p")) == 1
      && Balance(s'.rows, "owner") == 1000
  {
    var ss := PayingVisits(Paying(today), today);
    StaleUndo(OWNERS, ss[3], "A", EXPIRED, "txn", today);
  }
}
