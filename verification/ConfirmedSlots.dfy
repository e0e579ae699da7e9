/** No two confirmed bookings of a field and date on the same start: what initiatePayment's and the webhook's conflict
    checks achieve, and where reconciliation, which has none, breaks it. */
module ConfirmedSlots {
  import opened Wrappers
  import opened SlotTime
  import opened SlotGrid
  import opened Ledger
  import opened BookingModel
  import ExactlyOnce
  import SlotOverlap

  /** b was confirmed before c, on the same field and date, and both still are. */
  predicate ConfirmedBefore(b: Booking, c: Booking) {
    && b.status == CONFIRMED && c.status == CONFIRMED && b.confirmed < c.confirmed
    && b.field == c.field && b.date == c.date
  }

  /** The start of the booking confirmed first is not among the starts of the one confirmed later. */
  ghost predicate Apart(s: State) {
    forall b, c :: b in s.bookings && c in s.bookings && ConfirmedBefore(s.bookings[b], s.bookings[c]) ==>
      !s.bookings[c].StartsAt(s.bookings[b].start)
  }

  /** Confirmations are numbered one after another. */
  ghost predicate Stamped(s: State) {
    && (forall b :: b in s.bookings ==> s.bookings[b].confirmed <= s.confirmations)
    && (forall b, c :: b in s.bookings && c in s.bookings && b != c && s.bookings[b].confirmed > 0 ==>
          s.bookings[b].confirmed != s.bookings[c].confirmed)
  }

  /** Confirming a booking keeps the confirmed ones apart if and only if none of its starts is confirmed already. */
  lemma ConfirmApartExactly(s: State, b: Id)
    requires Apart(s) && Stamped(s) && b in s.bookings && s.bookings[b].status != CONFIRMED
    requires forall c :: c in s.bookings && s.bookings[c].status == CONFIRMED ==> s.bookings[c].confirmed > 0
    ensures Stamped(Confirm(s, b))
    ensures Apart(Confirm(s, b)) <==> !ConfirmedClash(s, b)
  {
    var s' := Confirm(s, b);
    var bk, bk' := s.bookings[b], s'.bookings[b];
    forall c | c in s.bookings && c != b
      ensures s'.bookings[c] == s.bookings[c]
      ensures ClashesWith(bk, s.bookings[c])
         <==> ConfirmedBefore(s'.bookings[c], bk') && bk'.StartsAt(s'.bookings[c].start)
      ensures !ConfirmedBefore(bk', s'.bookings[c])
    {
    }
    if ConfirmedClash(s, b) {
      var c :| c in s.bookings && ClashesWith(bk, s.bookings[c]);
      assert c != b;
    } else {
      forall c, d | c in s'.bookings && d in s'.bookings && ConfirmedBefore(s'.bookings[c], s'.bookings[d])
        ensures !s'.bookings[d].StartsAt(s'.bookings[c].start)
      {
        if d == b {
          assert !ClashesWith(bk, s.bookings[c]);
        } else {
          assert ConfirmedBefore(s.bookings[c], s.bookings[d]);
        }
      }
    }
  }

  /** Every booking that is confirmed now was confirmed before, and nothing else about it changed. */
  ghost predicate NoneConfirmed(s: State, s': State) {
    && s'.confirmations == s.confirmations
    && (forall b :: b in s'.bookings && b in s.bookings ==>
          s'.bookings[b] == s.bookings[b].(status := s'.bookings[b].status)
          && (s'.bookings[b].status == CONFIRMED ==> s.bookings[b].status == CONFIRMED))
    && (forall b :: b in s'.bookings && b !in s.bookings ==>
          s'.bookings[b].status == PENDING_PAYMENT && s'.bookings[b].confirmed == 0)
  }

  lemma QuietKeeps(s: State, s': State)
    requires Apart(s) && Stamped(s) && NoneConfirmed(s, s')
    ensures Apart(s') && Stamped(s')
  {
    forall b, c | b in s'.bookings && c in s'.bookings && ConfirmedBefore(s'.bookings[b], s'.bookings[c])
      ensures !s'.bookings[c].StartsAt(s'.bookings[b].start)
    {
      assert ConfirmedBefore(s.bookings[b], s.bookings[c]);
    }
  }

  /** Reconciliation confirms an orphan only where no start of it is confirmed. */
  ghost predicate Checked(s: State, e: Event) {
    e.Reconcile? && e.verdict.Paid? && Orphan(s, e.b, e.threshold) ==> !ConfirmedClash(s, e.b)
  }

  lemma ConfirmedAreStamped(owners: map<Id, Id>, s: State)
    requires ExactlyOnce.Valid(owners, s)
    ensures forall c :: c in s.bookings && s.bookings[c].status == CONFIRMED ==> s.bookings[c].confirmed > 0
  {
    assert forall c :: c in s.bookings ==> ExactlyOnce.StatusOk(s, c);
  }

  ghost predicate Confirms(s: State, b: Id, success: bool) {
    && b in s.payments && b in s.bookings && s.payments[b].status == PENDING && success && !ConfirmedClash(s, b)
  }

  lemma WebhookConfirms(owners: map<Id, Id>, s: State, b: Id, success: bool, txn: string, today: Today)
    requires Confirms(s, b, success)
    ensures
      var s' := SettlePayment(owners, s, b, success, txn, today);
      s'.bookings == Confirm(s, b).bookings && s'.confirmations == Confirm(s, b).confirmations
  {
  }

  lemma WebhookConfirmsNone(owners: map<Id, Id>, s: State, b: Id, success: bool, txn: string, today: Today)
    requires !Confirms(s, b, success)
    ensures NoneConfirmed(s, SettlePayment(owners, s, b, success, txn, today))
  {
    var s' := SettlePayment(owners, s, b, success, txn, today);
    if b in s.bookings {
      CancelConfirmsNone(s, s', b, CANCELLED);
    }
  }

  /** A step that at most takes one booking to another status than CONFIRMED confirms none. */
  lemma CancelConfirmsNone(s: State, s': State, b: Id, status: BookingStatus)
    requires b in s.bookings && status != CONFIRMED && s'.confirmations == s.confirmations
    requires s'.bookings == s.bookings || s'.bookings == WithStatus(s, b, status).bookings
    ensures NoneConfirmed(s, s')
  {
  }

  lemma WebhookKeeps(owners: map<Id, Id>, s: State, b: Id, success: bool, txn: string, today: Today)
    requires ExactlyOnce.Valid(owners, s) && Apart(s) && Stamped(s)
    ensures Apart(SettlePayment(owners, s, b, success, txn, today))
    ensures Stamped(SettlePayment(owners, s, b, success, txn, today))
  {
    var s' := SettlePayment(owners, s, b, success, txn, today);
    if Confirms(s, b, success) {
      WebhookConfirms(owners, s, b, success, txn, today);
      ConfirmKeeps(owners, s, b, s');
    } else {
      WebhookConfirmsNone(owners, s, b, success, txn, today);
      QuietKeeps(s, s');
    }
  }

  lemma ConfirmKeeps(owners: map<Id, Id>, s: State, b: Id, s': State)
    requires ExactlyOnce.Valid(owners, s) && Apart(s) && Stamped(s)
    requires b in s.bookings && s.bookings[b].status != CONFIRMED && !ConfirmedClash(s, b)
    requires s'.bookings == Confirm(s, b).bookings && s'.confirmations == Confirm(s, b).confirmations
    ensures Apart(s') && Stamped(s')
  {
    ConfirmedAreStamped(owners, s);
    ConfirmApartExactly(s, b);
    SameBookings(Confirm(s, b), s');
  }

  lemma SameBookings(s: State, s': State)
    requires s'.bookings == s.bookings && s'.confirmations == s.confirmations
    ensures Apart(s') <==> Apart(s)
    ensures Stamped(s') <==> Stamped(s)
  {
  }

  lemma OrphanConfirms(owners: map<Id, Id>, s: State, b: Id, verdict: Verdict, today: Today)
    requires b in s.bookings && s.bookings[b].status == PENDING_PAYMENT
    ensures
      var s' := SettleOrphan(owners, s, b, verdict, today);
      if verdict.Paid? then s'.bookings == Confirm(s, b).bookings && s'.confirmations == Confirm(s, b).confirmations
      else
        && s'.confirmations == s.confirmations
        && s'.bookings == match verdict
                          case Unpaid => WithStatus(s, b, CANCELLED).bookings
                          case Lapsed => WithStatus(s, b, EXPIRED).bookings
                          case _ => s.bookings
  {
  }

  lemma OrphanKeeps(owners: map<Id, Id>, s: State, b: Id, verdict: Verdict, today: Today)
    requires ExactlyOnce.Valid(owners, s) && Apart(s) && Stamped(s)
    requires b in s.bookings && s.bookings[b].status == PENDING_PAYMENT
    requires verdict.Paid? ==> !ConfirmedClash(s, b)
    ensures Apart(SettleOrphan(owners, s, b, verdict, today)) && Stamped(SettleOrphan(owners, s, b, verdict, today))
  {
    var s' := SettleOrphan(owners, s, b, verdict, today);
    OrphanConfirms(owners, s, b, verdict, today);
    if verdict.Paid? {
      ConfirmKeeps(owners, s, b, s');
    } else {
      CancelConfirmsNone(s, s', b, if verdict.Unpaid? then CANCELLED else EXPIRED);
      QuietKeeps(s, s');
    }
  }

  lemma StepKeeps(owners: map<Id, Id>, s: State, e: Event)
    requires ExactlyOnce.Valid(owners, s) && Apart(s) && Stamped(s) && Possible(s, e) && Checked(s, e)
    ensures Apart(Step(owners, s, e)) && Stamped(Step(owners, s, e))
  {
    match e
    case Webhook(b, success, txn, today) => WebhookKeeps(owners, s, b, success, txn, today);
    case Reconcile(b, verdict, threshold, today) =>
      if Orphan(s, b, threshold) {
        OrphanKeeps(owners, s, b, verdict, today);
      }
    case Book(_, _, _, _, _, _, _) => BookQuiet(owners, s, e);
    case Initiate(b, ask, now, id, answer) => InitiateQuiet(s, b, ask, now, id, answer);
    case JudgeCancel(k, caller, approve, consumed, today) => JudgeQuiet(s, k, caller, approve, consumed, today);
    case _ => MoneyQuiet(owners, s, e);
  }

  lemma BookConfirmsNone(owners: map<Id, Id>, s: State, e: Event)
    requires Possible(s, e) && e.Book?
    ensures NoneConfirmed(s, Step(owners, s, e))
  {
  }

  lemma BookQuiet(owners: map<Id, Id>, s: State, e: Event)
    requires Apart(s) && Stamped(s) && Possible(s, e) && e.Book?
    ensures Apart(Step(owners, s, e)) && Stamped(Step(owners, s, e))
  {
    BookConfirmsNone(owners, s, e);
    QuietKeeps(s, Step(owners, s, e));
  }

  lemma InitiateQuiet(s: State, b: Id, ask: Ask, now: int, newId: Id, answer: Option<string>)
    requires Apart(s) && Stamped(s)
    ensures Apart(InitiatePayment(s, b, ask, now, newId, answer).0)
    ensures Stamped(InitiatePayment(s, b, ask, now, newId, answer).0)
  {
    InitiateConfirmsNone(s, b, ask, now, newId, answer);
    QuietKeeps(s, InitiatePayment(s, b, ask, now, newId, answer).0);
  }

  lemma InitiateBookings(s: State, b: Id, ask: Ask, now: int, newId: Id, answer: Option<string>)
    ensures
      var s' := InitiatePayment(s, b, ask, now, newId, answer).0;
      && s'.confirmations == s.confirmations
      && (s'.bookings != s.bookings ==>
            && b in s.bookings
            && s'.bookings in {WithStatus(s, b, EXPIRED).bookings, WithStatus(s, b, CANCELLED).bookings})
  {
  }

  lemma InitiateConfirmsNone(s: State, b: Id, ask: Ask, now: int, newId: Id, answer: Option<string>)
    ensures NoneConfirmed(s, InitiatePayment(s, b, ask, now, newId, answer).0)
  {
    var s' := InitiatePayment(s, b, ask, now, newId, answer).0;
    InitiateBookings(s, b, ask, now, newId, answer);
    if s'.bookings != s.bookings {
      CancelConfirmsNone(s, s', b, if s'.bookings == WithStatus(s, b, EXPIRED).bookings then EXPIRED else CANCELLED);
    }
  }

  lemma JudgeConfirmsNone(s: State, k: nat, caller: Id, approve: bool, consumed: bool, today: Today)
    ensures NoneConfirmed(s, ValidateCancellation(s, k, caller, approve, consumed, today).0)
  {
  }

  lemma JudgeQuiet(s: State, k: nat, caller: Id, approve: bool, consumed: bool, today: Today)
    requires Apart(s) && Stamped(s)
    ensures Apart(ValidateCancellation(s, k, caller, approve, consumed, today).0)
    ensures Stamped(ValidateCancellation(s, k, caller, approve, consumed, today).0)
  {
    JudgeConfirmsNone(s, k, caller, approve, consumed, today);
    QuietKeeps(s, ValidateCancellation(s, k, caller, approve, consumed, today).0);
  }

  lemma MoneyQuiet(owners: map<Id, Id>, s: State, e: Event)
    requires Apart(s) && Stamped(s) && LeavesBookings(e)
    ensures Apart(Step(owners, s, e)) && Stamped(Step(owners, s, e))
  {
    BookingsLeft(owners, s, e);
    SameBookings(s, Step(owners, s, e));
  }

  ghost predicate CheckedRun(owners: map<Id, Id>, es: seq<Event>) {
    forall i :: 0 <= i < |es| ==> Checked(Run(owners, es[..i]), es[i])
  }

  /** After any run in which reconciliation confirmed nothing onto a confirmed start: of two confirmed bookings of one
      field and date, the start of the one confirmed first is not among getSlotStarts of the other. */
  lemma {:induction false} ConfirmedStayApart(owners: map<Id, Id>, es: seq<Event>)
    requires PossibleRun(owners, es) && CheckedRun(owners, es)
    ensures Apart(Run(owners, es)) && Stamped(Run(owners, es))
  {
    if es != [] {
      var prefix, e := es[..|es| - 1], es[|es| - 1];
      LastEvent(owners, es);
      assert CheckedRun(owners, prefix) by {
        assert forall i :: 0 <= i < |prefix| ==> prefix[..i] == es[..i];
      }
      ConfirmedStayApart(owners, prefix);
      ExactlyOnce.RunKeeps(owners, prefix);
      assert Checked(Run(owners, prefix), e);
      StepKeeps(owners, Run(owners, prefix), e);
    }
  }

  // ---- the time on the field ---------------------------------------------------------------------------------------

  /** A booking of slots of the generated grid, from slot i on. */
  predicate OnGrid(h: Hours, b: Booking, i: nat)
    requires HoursOk(h)
  {
    && b.numSlots >= 1 && SlotOverlap.OnGrid(h, b.start, b.numSlots, i)
    && b.end == EndMinute(b.start, h.duration, b.numSlots)
  }

  /** Two confirmed bookings of one field and date, from slots i and j of the field's grid on. */
  predicate BothOnGrid(h: Hours, bs: map<Id, Booking>, b: Id, c: Id, i: nat, j: nat)
    requires HoursOk(h)
  {
    && b in bs && c in bs && b != c && bs[b].status == CONFIRMED && bs[c].status == CONFIRMED
    && bs[b].field == bs[c].field && bs[b].date == bs[c].date && OnGrid(h, bs[b], i) && OnGrid(h, bs[c], j)
  }

  /** Every grid slot of a booking is among the starts the confirmation checks. */
  lemma GridStartsAt(h: Hours, c: Booking, j: nat, i: nat)
    requires HoursOk(h) && OnGrid(h, c, j) && j <= i < j + c.numSlots
    ensures c.StartsAt(TimeToMinutes(SlotStart(h, i)))
  {
    SlotOverlap.GridLength(h, c.start, c.numSlots, j);
    SlotsAmongStarts(c.start, h.duration, c.numSlots, i - j);
    SlotOverlap.GridSlot(h, c.start, c.numSlots, j, i);
  }

  /** After any such run, two confirmed bookings of one field and date on the field's grid overlap if and only if the
      one confirmed later starts at a later slot of the other. */
  lemma ConfirmedOverlapExactly(owners: map<Id, Id>, es: seq<Event>, h: Hours, b: Id, c: Id, i: nat, j: nat)
    requires PossibleRun(owners, es) && CheckedRun(owners, es) && HoursOk(h)
    ensures
      var bs := Run(owners, es).bookings;
      BothOnGrid(h, bs, b, c, i, j) && bs[b].confirmed < bs[c].confirmed ==>
        (SlotOverlap.SharesMinute(bs[b], h.duration, bs[c], h.duration) <==> i < j < i + bs[b].numSlots)
  {
    var bs := Run(owners, es).bookings;
    if BothOnGrid(h, bs, b, c, i, j) && bs[b].confirmed < bs[c].confirmed {
      ConfirmedStayApart(owners, es);
      assert ConfirmedBefore(bs[b], bs[c]);
      if j <= i < j + bs[c].numSlots {
        GridStartsAt(h, bs[c], j, i);
      }
      GridBookingsMeet(h, bs[b], i, bs[c], j);
    }
  }

  lemma GridBookingsMeet(h: Hours, b: Booking, i: nat, c: Booking, j: nat)
    requires HoursOk(h) && OnGrid(h, b, i) && OnGrid(h, c, j)
    ensures SlotOverlap.SharesMinute(b, h.duration, c, h.duration)
      <==> i <= j < i + b.numSlots || j <= i < j + c.numSlots
  {
    MulGrows(b.numSlots, h.duration);
    MulGrows(c.numSlots, h.duration);
    SlotOverlap.BookingsMeet(b, h.duration, c, h.duration);
    SlotOverlap.GridWithin(h, b.start, b.numSlots, i, c.start, j);
    SlotOverlap.GridWithin(h, c.start, c.numSlots, j, b.start, i);
  }

  /** So single-slot ones share no minute. */
  lemma ConfirmedDisjoint(owners: map<Id, Id>, es: seq<Event>, h: Hours, b: Id, c: Id, i: nat, j: nat, x: Minute)
    requires PossibleRun(owners, es) && CheckedRun(owners, es) && HoursOk(h)
    ensures
      var bs := Run(owners, es).bookings;
      BothOnGrid(h, bs, b, c, i, j) && bs[b].numSlots == 1 && bs[c].numSlots == 1 ==>
        !(Covers(bs[b].start, bs[b].end, x) && Covers(bs[c].start, bs[c].end, x))
  {
    var bs := Run(owners, es).bookings;
    if BothOnGrid(h, bs, b, c, i, j) && bs[b].numSlots == 1 && bs[c].numSlots == 1 {
      ConfirmedSinglesApart(owners, es, h, b, c, i, j);
      SinglesApart(h, bs[b], i, bs[c], j, x);
    }
  }

  lemma ConfirmedSinglesApart(owners: map<Id, Id>, es: seq<Event>, h: Hours, b: Id, c: Id, i: nat, j: nat)
    requires PossibleRun(owners, es) && CheckedRun(owners, es) && HoursOk(h)
    requires BothOnGrid(h, Run(owners, es).bookings, b, c, i, j)
    requires Run(owners, es).bookings[b].numSlots == 1 && Run(owners, es).bookings[c].numSlots == 1
    ensures i != j
  {
    var bs := Run(owners, es).bookings;
    ConfirmedStayApart(owners, es);
    ConfirmedInOrder(owners, es, b, c);
    if bs[b].confirmed < bs[c].confirmed {
      ConfirmedOverlapExactly(owners, es, h, b, c, i, j);
      GridBookingsMeet(h, bs[b], i, bs[c], j);
    } else {
      ConfirmedOverlapExactly(owners, es, h, c, b, j, i);
      GridBookingsMeet(h, bs[c], j, bs[b], i);
    }
  }

  lemma SinglesApart(h: Hours, b: Booking, i: nat, c: Booking, j: nat, x: Minute)
    requires HoursOk(h) && OnGrid(h, b, i) && OnGrid(h, c, j) && b.numSlots == 1 && c.numSlots == 1 && i != j
    ensures !(Covers(b.start, b.end, x) && Covers(c.start, c.end, x))
  {
    SlotEnds(h, b, i);
    SlotEnds(h, c, j);
    SlotsDisjoint(h, i, j);
    assert !(SlotHas(h, i, x) && SlotHas(h, j, x));
  }

  lemma SlotEnds(h: Hours, b: Booking, i: nat)
    requires HoursOk(h) && OnGrid(h, b, i) && b.numSlots == 1
    ensures b.end == TimeToMinutes(SlotStart(h, i + 1))
  {
    SlotOverlap.GridSlot(h, b.start, 1, i, i + 1);
    assert (i + 1 - i) * h.duration == h.duration * b.numSlots;
  }

  lemma ConfirmedInOrder(owners: map<Id, Id>, es: seq<Event>, b: Id, c: Id)
    requires PossibleRun(owners, es) && Stamped(Run(owners, es))
    ensures
      var bs := Run(owners, es).bookings;
      b in bs && c in bs && b != c && bs[b].status == CONFIRMED && bs[c].status == CONFIRMED ==>
        bs[b].confirmed != bs[c].confirmed
  {
    ExactlyOnce.RunKeeps(owners, es);
    ConfirmedAreStamped(owners, Run(owners, es));
  }

  // ---- where it breaks ---------------------------------------------------------------------------------------------

  const REQUEST := BookingRequest("field", "schedule", "2026-01-01", 600, 1)

  /** A books a slot, pays late, and meanwhile the slot was booked again by B: the late webhook confirms A, whose
      booking had expired, and reconciliation confirms B. */
  function DoubleBooking(today: Today): seq<Event> {
    var row := Some(ScheduleRow(60, 1000, None));
    [Book(REQUEST, Some(true), row, Some("alice"), 0, "A", None),
     Initiate("A", Ask(Some("alice"), None, "WAVE", None), 0, "p", Some("ref")),
     Initiate("A", Ask(Some("alice"), None, "WAVE", None), EXPIRY_MS + 1, "q", Some("ref")),
     Book(REQUEST, Some(true), row, Some("bob"), EXPIRY_MS + 1, "B", None),
     Webhook("A", true, "txn", today),
     Reconcile("B", Paid, EXPIRY_MS + 1, today)]
  }

  /** Reconciliation can confirm a booking onto a slot that is already confirmed. */
  lemma ReconciliationCanDoubleBook(today: Today)
    ensures PossibleRun(map[], DoubleBooking(today))
    ensures !Apart(Run(map[], DoubleBooking(today)))
  {
    var es := DoubleBooking(today);
    var states := VisitedStates(map[], es);
    LatePayment(es, states);
    SlotAgain(es, states);
    LateWebhook(es, states);
    BothConfirmed(es, states);
    DoubleBookingPossible(es, states, today);
    PossibleVisits(map[], es, states);
  }

  lemma DoubleBookingPossible(es: seq<Event>, ss: seq<State>, today: Today)
    requires es == DoubleBooking(today) && |ss| == 7 && ss[0] == EMPTY
    requires ss[1].bookings.Keys == {"A"} && ss[1].payments == map[]
    requires ss[2].bookings.Keys == {"A"} && ss[2].payments.Keys == {"A"} && ss[2].payments["A"].id == "p"
    requires ss[3].bookings.Keys == {"A"} && ss[3].payments == ss[2].payments && Row(ss[3], "A", EXPIRED)
    ensures forall i :: 0 <= i < |es| ==> Possible(ss[i], es[i])
  {
  }

  ghost predicate Row(s: State, b: Id, status: BookingStatus) {
    && b in s.bookings && s.bookings[b].status == status && s.bookings[b].field == "field"
    && s.bookings[b].date == "2026-01-01" && s.bookings[b].start == 600 && s.bookings[b].numSlots == 1
    && s.bookings[b].schedule == "schedule" && s.bookings[b].held == BookedMinutes(600, 60, 1)
    && s.bookings[b].inserted == if b == "A" then 0 else 1
  }

  lemma LatePayment(es: seq<Event>, ss: seq<State>)
    requires Visits(map[], es, ss) && |es| == 6
    requires es[0] == Book(REQUEST, Some(true), Some(ScheduleRow(60, 1000, None)), Some("alice"), 0, "A", None)
    requires es[1] == Initiate("A", Ask(Some("alice"), None, "WAVE", None), 0, "p", Some("ref"))
    ensures ss[1].bookings.Keys == {"A"} && ss[1].payments == map[]
    ensures ss[2].bookings.Keys == {"A"} && Row(ss[2], "A", PENDING_PAYMENT)
    ensures ss[2].bookings["A"].expiresAt == EXPIRY_MS
    ensures ss[2].bookings["A"].client == "alice" && ss[2].confirmations == 0
    ensures ss[2].payments.Keys == {"A"} && ss[2].payments["A"].status == PENDING && ss[2].payments["A"].id == "p"
  {
    assert ss[1] == Step(map[], EMPTY, es[0]);
    assert ss[2] == Step(map[], ss[1], es[1]);
  }

  lemma SlotAgain(es: seq<Event>, ss: seq<State>)
    requires Visits(map[], es, ss) && |es| == 6
    requires es[2] == Initiate("A", Ask(Some("alice"), None, "WAVE", None), EXPIRY_MS + 1, "q", Some("ref"))
    requires es[3].Book? && es[3].q == REQUEST && es[3].available == Some(true) && es[3].client == Some("bob")
    requires es[3].row == Some(ScheduleRow(60, 1000, None)) && es[3].now == EXPIRY_MS + 1 && es[3].id == "B"
    requires es[3].own == None && ss[2].bookings.Keys == {"A"} && Row(ss[2], "A", PENDING_PAYMENT)
    requires ss[2].bookings["A"].expiresAt == EXPIRY_MS
    requires ss[2].bookings["A"].client == "alice" && ss[2].confirmations == 0
    requires ss[2].payments.Keys == {"A"} && ss[2].payments["A"].status == PENDING
    ensures ss[3].bookings.Keys == {"A"} && ss[3].payments == ss[2].payments && Row(ss[3], "A", EXPIRED)
    ensures ss[4].bookings.Keys == {"A", "B"} && ss[4].payments == ss[2].payments && ss[4].confirmations == 0
    ensures Row(ss[4], "A", EXPIRED) && Row(ss[4], "B", PENDING_PAYMENT)
    ensures ss[4].bookings["B"].createdAt == EXPIRY_MS + 1
  {
    assert ss[3] == Step(map[], ss[2], es[2]);
    assert ss[4] == Step(map[], ss[3], es[3]);
  }

  lemma LateWebhook(es: seq<Event>, ss: seq<State>)
    requires Visits(map[], es, ss) && |es| == 6
    requires es[4].Webhook? && es[4].b == "A" && es[4].success && es[4].txn == "txn"
    requires ss[4].bookings.Keys == {"A", "B"} && ss[4].payments.Keys == {"A"} && ss[4].payments["A"].status == PENDING
    requires Row(ss[4], "A", EXPIRED) && Row(ss[4], "B", PENDING_PAYMENT) && ss[4].confirmations == 0
    ensures Row(ss[5], "A", CONFIRMED) && ss[5].bookings["A"].confirmed == 1 && ss[5].confirmations == 1
    ensures Row(ss[5], "B", PENDING_PAYMENT) && ss[5].bookings["B"] == ss[4].bookings["B"]
  {
    assert ss[5] == Step(map[], ss[4], es[4]);
  }

  lemma BothConfirmed(es: seq<Event>, ss: seq<State>)
    requires Visits(map[], es, ss) && |es| == 6
    requires es[5].Reconcile? && es[5].b == "B" && es[5].verdict == Paid && es[5].threshold == EXPIRY_MS + 1
    requires Row(ss[5], "A", CONFIRMED) && ss[5].bookings["A"].confirmed == 1 && ss[5].confirmations == 1
    requires Row(ss[5], "B", PENDING_PAYMENT) && ss[5].bookings["B"].createdAt == EXPIRY_MS + 1
    ensures !Apart(ss[6])
  {
    assert ss[6] == Step(map[], ss[5], es[5]);
    assert ConfirmedBefore(ss[6].bookings["A"], ss[6].bookings["B"]);
  }
}
