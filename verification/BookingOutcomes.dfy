/** What createBooking, initiatePayment and requestCancellation leave in the tables and reply, case by case, in terms of
    the rows they find. */
module BookingOutcomes {
  import opened Wrappers
  import opened SlotTime
  import opened Ledger
  import opened BookingModel
  import Finance

  /** The platform's 5%, rounded to whole francs with halves up. */
  function FivePercent(n: int): int {
    (2 * n + 20) / 40
  }

  // ---- createBooking -----------------------------------------------------------------------------------------------

  /** A live booking of the same field, schedule and date starts at one of the request's slots. */
  ghost predicate SomeSlotBooked(bookings: map<Id, Booking>, q: BookingRequest, duration: nat) {
    exists c, i: nat :: BookedAt(bookings, q, duration, c, i)
  }

  predicate BookedAt(bookings: map<Id, Booking>, q: BookingRequest, duration: nat, c: Id, i: nat) {
    && c in bookings && i < q.numSlots
    && bookings[c].field == q.field && bookings[c].schedule == q.schedule && bookings[c].date == q.date
    && bookings[c].status in {PENDING_PAYMENT, CONFIRMED} && bookings[c].start == (q.start + i * duration) % 1440
  }

  lemma SlotBooked(bookings: map<Id, Booking>, q: BookingRequest, duration: nat)
    ensures SomeSlotBooked(bookings, q, duration)
      <==> exists i :: 0 <= i < q.numSlots && Taken(bookings, q, BookedMinutes(q.start, duration, q.numSlots)[i])
  {
    if c, i: nat :| BookedAt(bookings, q, duration, c, i) {
      assert Holds(bookings[c], q, BookedMinutes(q.start, duration, q.numSlots)[i]);
    }
    if i :| 0 <= i < q.numSlots && Taken(bookings, q, BookedMinutes(q.start, duration, q.numSlots)[i]) {
      var c :| c in bookings && Holds(bookings[c], q, BookedMinutes(q.start, duration, q.numSlots)[i]);
      assert BookedAt(bookings, q, duration, c, i);
    }
  }

  /** What a booking is from its making on, whatever its status: asked for with q by this client, at this schedule's
      price for each slot, for 24 hours from now. */
  predicate MadeFrom(bk: Booking, q: BookingRequest, client: Id, row: ScheduleRow, now: int) {
    && bk.client == client && bk.field == q.field && bk.schedule == q.schedule && bk.date == q.date
    && bk.start == q.start && bk.numSlots == q.numSlots && bk.end == (q.start + q.numSlots * row.duration) % 1440
    && bk.total == row.price * q.numSlots && bk.fee == FivePercent(row.price * q.numSlots)
    && bk.minDeposit.Some? == row.deposit.Some?
    && (row.deposit.Some? ==> bk.minDeposit.value == row.deposit.value * q.numSlots)
    && bk.createdAt == now && bk.expiresAt == now + 86_400_000
  }

  lemma NewIsMade(q: BookingRequest, client: Id, row: ScheduleRow, now: int, inserted: nat)
    ensures
      var bk := Priced(q, client, row, now, inserted);
      MadeFrom(bk, q, client, row, now) && bk.status == PENDING_PAYMENT && bk.confirmed == 0
  {
    Finance.FeeIsRatio(row.price * q.numSlots);
    assert row.duration * q.numSlots == q.numSlots * row.duration;
  }

  /** The lookup finds a booking of this client for this field, date, start and number of slots that awaits payment, and
      none exactly when there is none. */
  lemma LookupOutcome(bookings: map<Id, Booking>, q: BookingRequest, client: Id, own: Option<Id>)
    requires OwnAnswer(bookings, q, client, own)
    ensures own.Some? ==> own.value in bookings && Asks(bookings[own.value], q, client)
    ensures own.None? ==> forall c :: c in bookings ==> !Asks(bookings[c], q, client)
  {
    forall c | c in bookings
      ensures Asks(bookings[c], q, client) <==> OwnPending(bookings[c], q, client)
    {
    }
  }

  predicate Asks(bk: Booking, q: BookingRequest, client: Id) {
    (bk.client, bk.field, bk.date, bk.start, bk.numSlots, bk.status)
    == (client, q.field, q.date, q.start, q.numSlots, PENDING_PAYMENT)
  }

  /** createBooking refuses what is not there, gives back the booking found for the same request while it is unexpired,
      refuses if a slot is booked, and else adds one row that awaits payment. */
  lemma CreateOutcome(s: State, q: BookingRequest, available: Option<bool>, row: Option<ScheduleRow>,
                      client: Option<Id>, now: int, id: Id, own: Option<Id>)
    ensures
      var (s', reply) := CreateBooking(s, q, available, row, client, now, id, own);
      if available == None then (s', reply) == (s, Refused(FIELD_NOT_FOUND))
      else if available == Some(false) then (s', reply) == (s, Refused(FIELD_UNAVAILABLE))
      else if row == None then (s', reply) == (s, Refused(SCHEDULE_NOT_FOUND))
      else if client == None then (s', reply) == (s, Refused(CLIENT_NOT_FOUND))
      else if own.Some? && own.value in s.bookings && now < s.bookings[own.value].expiresAt then
        (s', reply) == (s, Done(own.value))
      else if SomeSlotBooked(s.bookings, q, row.value.duration) then (s', reply) == (s, Refused(SLOT_TAKEN))
      else
        && reply == Done(id) && id in s'.bookings && s' == s.(bookings := s.bookings[id := s'.bookings[id]])
        && MadeFrom(s'.bookings[id], q, client.value, row.value, now)
        && s'.bookings[id].status == PENDING_PAYMENT && s'.bookings[id].confirmed == 0
  {
    if row.Some? && client.Some? {
      SlotBooked(s.bookings, q, row.value.duration);
      NewIsMade(q, client.value, row.value, now, |s.bookings|);
    }
  }

  // ---- initiatePayment ---------------------------------------------------------------------------------------------

  /** A confirmed booking of the same field and date starts at one of the starts rebuilt for this one. */
  ghost predicate Rival(bookings: map<Id, Booking>, b: Id, c: Id)
    requires b in bookings
  {
    && c in bookings && bookings[c].status == CONFIRMED
    && bookings[c].field == bookings[b].field && bookings[c].date == bookings[b].date
    && AmongStarts(bookings[c].start, bookings[b].start, bookings[b].end, bookings[b].numSlots)
  }

  ghost predicate NoRival(bookings: map<Id, Booking>, b: Id)
    requires b in bookings
  {
    forall c :: !Rival(bookings, b, c)
  }

  lemma RivalIsClash(s: State, b: Id)
    requires b in s.bookings
    ensures NoRival(s.bookings, b) <==> !ConfirmedClash(s, b)
  {
    forall c | c in s.bookings
      ensures Rival(s.bookings, b, c) <==> ClashesWith(s.bookings[b], s.bookings[c])
    {
    }
  }

  predicate Cancelled(s: State, s': State, b: Id)
    requires b in s.bookings
  {
    s' == s.(bookings := s.bookings[b := s.bookings[b].(status := CANCELLED)])
  }

  predicate Expired(s: State, s': State, b: Id)
    requires b in s.bookings
  {
    s' == s.(bookings := s.bookings[b := s.bookings[b].(status := EXPIRED)])
  }

  /** The payment asked for: the price of the deposit chosen with the platform's 5%, or the full price with its fee. */
  function Price(bk: Booking, paid: Option<int>): int {
    if paid.Some? then paid.value + FivePercent(paid.value) else bk.total + bk.fee
  }

  /** The payment after the provider took it over: a new one of the price asked, or the open one as it was, in both
      cases with the operator and the provider's reference of this call, and the phone if one was given. */
  predicate Opened(s: State, s': State, b: Id, ask: Ask, newId: Id, reference: string)
    requires b in s.bookings
  {
    && b in s'.payments && s' == s.(payments := s.payments[b := s'.payments[b]])
    && var pay := s'.payments[b];
    && pay.status == PENDING && pay.operator == ask.operator && pay.externalRef == Some(reference)
    && (b !in s.payments ==> pay.id == newId && pay.amount == Price(s.bookings[b], ask.paid) && pay.phone == ask.phone)
    && (b in s.payments ==>
          && pay.id == s.payments[b].id && pay.amount == s.payments[b].amount
          && pay.phone == if ask.phone.Some? then ask.phone else s.payments[b].phone)
  }

  /** A payment of the client's own pending booking, in time and within its deposit bounds. */
  predicate MayPay(s: State, b: Id, ask: Ask, now: int) {
    && ask.client.Some? && b in s.bookings && s.bookings[b].client == ask.client.value
    && s.bookings[b].status == PENDING_PAYMENT && now <= s.bookings[b].expiresAt
    && (ask.paid.Some? ==>
          && ask.paid.value <= s.bookings[b].total
          && (s.bookings[b].minDeposit.Some? ==> s.bookings[b].minDeposit.value <= ask.paid.value))
  }

  /** initiatePayment opens a payment, or the open one again, if and only if the booking may be paid, no confirmed one
      is in its way, its payment has not been settled and the provider answers; in all other cases it refuses, and the
      booking expires, is cancelled or stays. */
  lemma InitiateOutcome(s: State, b: Id, ask: Ask, now: int, newId: Id, answer: Option<string>)
    ensures
      var (s', reply) := InitiatePayment(s, b, ask, now, newId, answer);
      if ask.client == None then (s', reply) == (s, Refused(CLIENT_NOT_FOUND))
      else if b !in s.bookings || s.bookings[b].client != ask.client.value then
        (s', reply) == (s, Refused(BOOKING_NOT_FOUND))
      else if s.bookings[b].status != PENDING_PAYMENT then (s', reply) == (s, Refused(NOT_AWAITING_PAYMENT))
      else if now > s.bookings[b].expiresAt then Expired(s, s', b) && reply == Refused(BOOKING_EXPIRED)
      else if !MayPay(s, b, ask, now) then
        s' == s && reply == Refused(if ask.paid.value > s.bookings[b].total
                                    && !(s.bookings[b].minDeposit.Some?
                                         && ask.paid.value < s.bookings[b].minDeposit.value)
                                    then ABOVE_TOTAL else BELOW_DEPOSIT)
      else if !NoRival(s.bookings, b) then Cancelled(s, s', b) && reply == Refused(ALREADY_CONFIRMED)
      else if b in s.payments && s.payments[b].status != PENDING then (s', reply) == (s, Refused(SECOND_PAYMENT))
      else if answer == None then
        Expired(s.(payments := s.payments - {b}), s', b) && reply == Refused(PROVIDER_FAILED)
      else Opened(s, s', b, ask, newId, answer.value) && reply == Done(s'.payments[b].id)
  {
    if b in s.bookings {
      RivalIsClash(s, b);
      if ask.paid.Some? {
        Finance.FeeIsRatio(ask.paid.value);
      }
      assert b !in s.payments ==> s.payments - {b} == s.payments;
    }
  }

  // ---- requestCancellation -----------------------------------------------------------------------------------------

  /** The booking's client, the owner of its field or an administrator may ask, for a confirmed booking with no open
      request; then one open request is added, for the owner of the field. */
  lemma CancelRequestOutcome(owners: map<Id, Id>, s: State, b: Id, viewer: Viewer)
    ensures
      var (s', reply) := RequestCancellation(owners, s, b, viewer);
      var open := exists k :: 0 <= k < |s.requests| && s.requests[k].booking == b && s.requests[k].status == REQUESTED;
      if b !in s.bookings || s.bookings[b].field !in owners
         || !(viewer == AsAdmin || viewer == AsClient(s.bookings[b].client)
              || viewer == AsOwner(owners[s.bookings[b].field])) then
        (s', reply) == (s, Refused(BOOKING_NOT_FOUND))
      else if s.bookings[b].status != CONFIRMED then (s', reply) == (s, Refused(NOT_CONFIRMED))
      else if open then (s', reply) == (s, Refused(REQUEST_EXISTS))
      else
        reply == Done(b)
        && s' == s.(requests := s.requests + [CancelRequest(b, owners[s.bookings[b].field], REQUESTED, NotDue)])
  {
  }
}
