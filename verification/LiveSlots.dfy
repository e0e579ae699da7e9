/** Live bookings over the runs of the handlers. Every handler but createBooking changes at most one booking's status,
    and only a webhook that confirms a booking late can put a live booking onto another's start. */
module LiveSlots {
  import opened Wrappers
  import opened SlotTime
  import opened Ledger
  import opened BookingModel
  import opened SlotHolds
  import ConfirmedSlots
  import StaleRows

  // ---- every handler -----------------------------------------------------------------------------------------------

  /** A success for an open payment of a booking that is no longer live, with no confirmed booking in its way. */
  predicate ConfirmsLate(s: State, e: Event) {
    && e.Webhook? && e.success && e.b in s.payments && e.b in s.bookings && s.payments[e.b].status == PENDING
    && !s.bookings[e.b].Live() && !ConfirmedClash(s, e.b)
  }

  /** At most booking b's status is another, as in the moves of other handlers in a race. */
  ghost predicate MovesOne(bookings: map<Id, Booking>, after: map<Id, Booking>, b: Id) {
    && b in bookings && b in after && Comes(bookings[b].status, after[b].status)
    && after == Moved(bookings, b, after[b].status, after[b].confirmed)
  }

  lemma WebhookMoves(owners: map<Id, Id>, s: State, e: Event)
    requires e.Webhook? && e.b in s.bookings
    ensures MovesOne(s.bookings, Step(owners, s, e).bookings, e.b)
    ensures Revives(s.bookings[e.b].status, Step(owners, s, e).bookings[e.b].status) <==> ConfirmsLate(s, e)
  {
    var after := Step(owners, s, e).bookings;
    assert after == Moved(s.bookings, e.b, after[e.b].status, after[e.b].confirmed);
  }

  lemma OrphanMoves(owners: map<Id, Id>, s: State, b: Id, verdict: Verdict, today: Today)
    requires b in s.bookings && s.bookings[b].status == PENDING_PAYMENT
    ensures MovesOne(s.bookings, SettleOrphan(owners, s, b, verdict, today).bookings, b)
  {
    ConfirmedSlots.OrphanConfirms(owners, s, b, verdict, today);
    var after := SettleOrphan(owners, s, b, verdict, today).bookings;
    assert after == Moved(s.bookings, b, after[b].status, after[b].confirmed);
  }

  lemma InitiateMoves(s: State, b: Id, ask: Ask, now: int, newId: Id, answer: Option<string>)
    ensures
      var after := InitiatePayment(s, b, ask, now, newId, answer).0.bookings;
      after == s.bookings || (MovesOne(s.bookings, after, b) && after[b].status in {EXPIRED, CANCELLED})
  {
    ConfirmedSlots.InitiateBookings(s, b, ask, now, newId, answer);
    var after := InitiatePayment(s, b, ask, now, newId, answer).0.bookings;
    if after != s.bookings {
      assert after == Moved(s.bookings, b, after[b].status, after[b].confirmed);
    }
  }

  lemma JudgeMoves(s: State, k: nat, caller: Id, approve: bool, consumed: bool, today: Today) returns (b: Id)
    ensures
      var after := ValidateCancellation(s, k, caller, approve, consumed, today).0.bookings;
      after == s.bookings || (MovesOne(s.bookings, after, b) && after[b].status == CANCELLED)
  {
    b := if k < |s.requests| then s.requests[k].booking else "";
    var after := ValidateCancellation(s, k, caller, approve, consumed, today).0.bookings;
    if after != s.bookings {
      assert after == Moved(s.bookings, b, CANCELLED, s.bookings[b].confirmed);
    }
  }

  /** Every handler but createBooking changes the status of one booking at most, and the only late confirmations are
      those of the webhook. */
  lemma HandlerMoves(owners: map<Id, Id>, s: State, e: Event) returns (b: Id)
    requires !e.Book?
    ensures
      var after := Step(owners, s, e).bookings;
      || (after == s.bookings && !ConfirmsLate(s, e))
      || (MovesOne(s.bookings, after, b)
          && (Revives(s.bookings[b].status, after[b].status) <==> ConfirmsLate(s, e))
          && (ConfirmsLate(s, e) ==> b == e.b))
  {
    match e
    case Webhook(id, _, _, _) =>
      b := id;
      if id in s.bookings {
        WebhookMoves(owners, s, e);
      }
    case Reconcile(id, verdict, threshold, today) =>
      b := id;
      if Orphan(s, id, threshold) {
        OrphanMoves(owners, s, id, verdict, today);
      }
    case Initiate(id, ask, now, newId, answer) =>
      b := id;
      InitiateMoves(s, id, ask, now, newId, answer);
    case JudgeCancel(k, caller, approve, consumed, today) => b := JudgeMoves(s, k, caller, approve, consumed, today);
    case _ =>
      b := "";
      BookingsLeft(owners, s, e);
  }

  /** Handlers that act on rows read earlier do no more to the bookings than that. */
  lemma StaleMoves(owners: map<Id, Id>, s: State, b: Id, read: Option<Id>, success: bool, txn: string, today: Today)
    requires b in s.bookings
    ensures MovesOne(s.bookings, StaleRows.ConfirmRow(owners, s, b, read, today).bookings, b)
    ensures MovesOne(s.bookings, StaleRows.CancelRow(s, b, read, if success then CANCELLED else EXPIRED).bookings, b)
    ensures read.Some? ==> MovesOne(s.bookings, StaleRows.ProviderThrew(s, b, read.value).bookings, b)
    ensures b in s.payments ==>
      MovesOne(s.bookings, StaleRows.WebhookRow(owners, s, b, success, txn, today).bookings, b)
  {
    var bk, after := s.bookings[b], StaleRows.ConfirmRow(owners, s, b, read, today).bookings;
    assert after == Moved(s.bookings, b, CONFIRMED, s.confirmations + 1);
    var status := if success then CANCELLED else EXPIRED;
    assert StaleRows.CancelRow(s, b, read, status).bookings == Moved(s.bookings, b, status, bk.confirmed);
    assert read.Some? ==>
        StaleRows.ProviderThrew(s, b, read.value).bookings == Moved(s.bookings, b, EXPIRED, bk.confirmed);
    if b in s.payments {
      WebhookMoves(owners, StaleRows.AsRead(s, b), Webhook(b, success, txn, today));
    }
  }

  // ---- runs --------------------------------------------------------------------------------------------------------

  /** The booking that an event confirms late. */
  function Wider(s: State, e: Event, but: set<Id>): set<Id> {
    if ConfirmsLate(s, e) then but + {e.b} else but
  }

  lemma BookHolds(owners: map<Id, Id>, s: State, e: Event, but: set<Id>)
    requires e.Book? && Possible(s, e)
    ensures Holding(s.bookings, but) ==> Holding(Step(owners, s, e).bookings, but)
  {
    if Holding(s.bookings, but) && Step(owners, s, e).bookings != s.bookings {
      TryBookHolds(s.bookings, e.q, e.client.value, e.row.value, e.now, e.id, e.own);
    }
  }

  /** Every step keeps the holds if and only if it is not a late confirmation of a booking that does not fit. */
  lemma StepHoldsExactly(owners: map<Id, Id>, s: State, e: Event, but: set<Id>)
    requires Possible(s, e) && Holding(s.bookings, but)
    ensures Holding(Step(owners, s, e).bookings, but)
      <==> (ConfirmsLate(s, e) && e.b !in but ==> Fits(s.bookings, e.b, but))
  {
    if e.Book? {
      BookHolds(owners, s, e, but);
    } else {
      var after := Step(owners, s, e).bookings;
      var b := HandlerMoves(owners, s, e);
      if after != s.bookings || ConfirmsLate(s, e) {
        MovedHoldsExactly(s.bookings, b, after[b].status, after[b].confirmed, but);
      }
    }
  }

  /** The bookings confirmed late in a run. */
  function ConfirmedLate(owners: map<Id, Id>, es: seq<Event>): set<Id> {
    if es == [] then {}
    else
      var prefix := es[..|es| - 1];
      Wider(Run(owners, prefix), es[|es| - 1], ConfirmedLate(owners, prefix))
  }

  /** After every run, of the bookings never confirmed late no live one holds the start of an earlier live one. */
  lemma {:induction false} RunHolds(owners: map<Id, Id>, es: seq<Event>)
    requires PossibleRun(owners, es)
    ensures Holding(Run(owners, es).bookings, ConfirmedLate(owners, es))
  {
    if es != [] {
      var prefix, e := es[..|es| - 1], es[|es| - 1];
      var s, but := Run(owners, prefix), ConfirmedLate(owners, prefix);
      LastEvent(owners, es);
      RunHolds(owners, prefix);
      HoldingFewer(s.bookings, but, Wider(s, e, but));
      StepHoldsExactly(owners, s, e, Wider(s, e, but));
    }
  }

  lemma HoldingFewer(bookings: map<Id, Booking>, but: set<Id>, more: set<Id>)
    requires Holding(bookings, but) && but <= more
    ensures Holding(bookings, more)
  {
  }

  /** Bookings confirmed late do not await payment again. */
  lemma {:induction false} LateIsPast(owners: map<Id, Id>, es: seq<Event>)
    requires PossibleRun(owners, es)
    ensures
      var bookings := Run(owners, es).bookings;
      forall b :: b in ConfirmedLate(owners, es) ==> b in bookings && bookings[b].status != PENDING_PAYMENT
  {
    if es != [] {
      var prefix, e := es[..|es| - 1], es[|es| - 1];
      LastEvent(owners, es);
      LateIsPast(owners, prefix);
      if e.Book? {
        BookAdds(owners, Run(owners, prefix), e);
      } else {
        var b := HandlerMoves(owners, Run(owners, prefix), e);
      }
    }
  }

  lemma BookAdds(owners: map<Id, Id>, s: State, e: Event)
    requires e.Book? && Possible(s, e)
    ensures
      var after := Step(owners, s, e).bookings;
      forall b :: b in s.bookings ==> b in after && after[b] == s.bookings[b]
  {
  }

  /** So over every run, where a field's bookings all lie on one schedule, a client who repeats an unexpired request
      gets the same booking back, whatever late confirmations there were. */
  lemma RepeatAlwaysResumes(owners: map<Id, Id>, es: seq<Event>, q: BookingRequest, client: Id, row: ScheduleRow,
                            now: int, id: Id, own: Option<Id>, b: Id)
    requires PossibleRun(owners, es) && OwnAnswer(Run(owners, es).bookings, q, client, own)
    requires
      var bookings := Run(owners, es).bookings;
      && (forall c :: c in bookings && bookings[c].field == q.field ==> bookings[c].schedule == q.schedule)
      && b in bookings && OwnPending(bookings[b], q, client) && now < bookings[b].expiresAt
    ensures TryBook(Run(owners, es).bookings, q, client, row, now, id, own) == (Run(owners, es).bookings, Done(b))
  {
    RunHolds(owners, es);
    LateIsPast(owners, es);
    RepeatResumes(Run(owners, es).bookings, q, client, row, now, id, own, b, ConfirmedLate(owners, es));
  }

  /** Every late confirmation of the run fits. */
  ghost predicate FittingRun(owners: map<Id, Id>, es: seq<Event>) {
    forall i :: 0 <= i < |es| && ConfirmsLate(Run(owners, es[..i]), es[i]) ==>
      Fits(Run(owners, es[..i]).bookings, es[i].b, {})
  }

  /** So long as every late confirmation fits, that is so of all bookings. */
  lemma {:induction false} FittingRunHolds(owners: map<Id, Id>, es: seq<Event>)
    requires PossibleRun(owners, es) && FittingRun(owners, es)
    ensures Holding(Run(owners, es).bookings, {})
  {
    if es != [] {
      var prefix, e := es[..|es| - 1], es[|es| - 1];
      LastEvent(owners, es);
      assert FittingRun(owners, prefix) by {
        assert forall i :: 0 <= i < |prefix| ==> prefix[..i] == es[..i];
      }
      FittingRunHolds(owners, prefix);
      StepHoldsExactly(owners, Run(owners, prefix), e, {});
    }
  }

  // ---- a run that breaks it ----------------------------------------------------------------------------------------

  /** A's booking expires and the slot is booked again by B; then A's payment is reported, and both are live. */
  lemma LateWebhookDoubleBooks(today: Today)
    ensures
      var es := ConfirmedSlots.DoubleBooking(today)[..5];
      PossibleRun(map[], es) && Breach(Run(map[], es).bookings, "A", "B")
  {
    var es := ConfirmedSlots.DoubleBooking(today);
    var ss := VisitedStates(map[], es);
    ConfirmedSlots.ReconciliationCanDoubleBook(today);
    ConfirmedSlots.LatePayment(es, ss);
    ConfirmedSlots.SlotAgain(es, ss);
    ConfirmedSlots.LateWebhook(es, ss);
    FirstFive(map[], es);
    VisitsAreRuns(map[], es, ss, 5);
    StartHeld(ss[5]);
  }

  lemma FirstFive(owners: map<Id, Id>, es: seq<Event>)
    requires PossibleRun(owners, es) && |es| == 6
    ensures PossibleRun(owners, es[..5])
  {
    LastEvent(owners, es);
  }

  lemma StartHeld(s: State)
    requires ConfirmedSlots.Row(s, "A", CONFIRMED) && ConfirmedSlots.Row(s, "B", PENDING_PAYMENT)
    ensures Breach(s.bookings, "A", "B")
  {
    assert BookedMinutes(600, 60, 1)[0] == 600;
  }
}
