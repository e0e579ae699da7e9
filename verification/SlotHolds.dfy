/** What createBooking's conflict check holds on to, handler by handler. */
module SlotHolds {
  import opened Wrappers
  import opened SlotTime
  import opened Ledger
  import opened BookingModel

  /** Two bookings that createBooking's conflict query would compare. */
  predicate SameDay(b: Booking, c: Booking) {
    b.field == c.field && b.schedule == c.schedule && b.date == c.date
  }

  /** Rows are numbered in insertion order, and each holds its own start. */
  ghost predicate Numbered(bookings: map<Id, Booking>) {
    && (forall b :: b in bookings ==> bookings[b].inserted < |bookings| && bookings[b].start in bookings[b].held)
    && (forall b, c :: b in bookings && c in bookings && b != c ==> bookings[b].inserted != bookings[c].inserted)
  }

  predicate Follows(b: Booking, c: Booking) {
    SameDay(b, c) && b.Live() && c.Live() && b.inserted < c.inserted
  }

  /** Both are live, and c, the later one, holds the start of b. */
  predicate Breach(bookings: map<Id, Booking>, b: Id, c: Id) {
    b in bookings && c in bookings && Follows(bookings[b], bookings[c]) && bookings[b].start in bookings[c].held
  }

  /** Outside `but`, no live booking holds the start of an earlier live one. */
  ghost predicate Holding(bookings: map<Id, Booking>, but: set<Id>) {
    Numbered(bookings) && forall b, c :: b !in but && c !in but ==> !Breach(bookings, b, c)
  }

  /** Such bookings start at distinct times. */
  lemma LiveStartsDistinct(bookings: map<Id, Booking>, but: set<Id>, b: Id, c: Id)
    requires Holding(bookings, but) && b in bookings && c in bookings && b != c && b !in but && c !in but
    requires SameDay(bookings[b], bookings[c]) && bookings[b].Live() && bookings[c].Live()
    ensures bookings[b].start != bookings[c].start
  {
    assert !Breach(bookings, b, c) && !Breach(bookings, c, b);
  }

  // ---- createBooking -----------------------------------------------------------------------------------------------

  /** A booking that is inserted holds its own start, and no start of a live one of its schedule and date. */
  lemma InsertedHolds(bookings: map<Id, Booking>, q: BookingRequest, client: Id, row: ScheduleRow, now: int, id: Id)
    requires q.numSlots >= 1
    requires forall i :: 0 <= i < q.numSlots ==>
      !Taken(bookings, q, BookedMinutes(q.start, row.duration, q.numSlots)[i])
    ensures
      var bk := Priced(q, client, row, now, |bookings|);
      && bk.start in bk.held
      && forall b :: b in bookings && SameDay(bookings[b], bk) && bookings[b].Live() ==> bookings[b].start !in bk.held
  {
    var bk := Priced(q, client, row, now, |bookings|);
    OwnStart(q.start, bk.end, row.duration, q.numSlots);
    forall b | b in bookings && SameDay(bookings[b], bk) && bookings[b].Live()
      ensures bookings[b].start !in bk.held
    {
      assert forall i :: 0 <= i < q.numSlots ==> !Taken(bookings, q, bk.held[i]);
      assert Holds(bookings[b], q, bookings[b].start);
    }
  }

  /** An inserted booking comes last: what it holds is all that can be new. */
  lemma InsertBreaches(bookings: map<Id, Booking>, id: Id, bk: Booking)
    requires Numbered(bookings) && id !in bookings && bk.inserted == |bookings| && bk.start in bk.held
    ensures Numbered(bookings[id := bk])
    ensures forall b, c :: Breach(bookings[id := bk], b, c) <==>
      Breach(bookings, b, c)
      || (c == id && b in bookings && SameDay(bookings[b], bk) && bookings[b].Live() && bk.Live()
          && bookings[b].start in bk.held)
  {
    var after := bookings[id := bk];
    assert |after| == |bookings| + 1;
  }

  /** Whatever the table holds, createBooking brings no live booking that holds the start of an earlier live one of its
      schedule and date. */
  lemma TryBookHolds(bookings: map<Id, Booking>, q: BookingRequest, client: Id, row: ScheduleRow, now: int, id: Id,
                     own: Option<Id>)
    requires Numbered(bookings) && id !in bookings && q.numSlots >= 1
    ensures
      var after := TryBook(bookings, q, client, row, now, id, own).0;
      Numbered(after) && forall b, c :: Breach(after, b, c) <==> Breach(bookings, b, c)
  {
    var after := TryBook(bookings, q, client, row, now, id, own).0;
    if id in after {
      InsertedHolds(bookings, q, client, row, now, id);
      InsertBreaches(bookings, id, after[id]);
    }
  }

  // ---- changes of status -------------------------------------------------------------------------------------------

  /** No handler brings a booking back to awaiting payment. */
  predicate Comes(was: BookingStatus, now: BookingStatus) {
    now == PENDING_PAYMENT ==> was == PENDING_PAYMENT
  }

  /** A late confirmation: a booking that had expired or was cancelled is live again. */
  predicate Revives(was: BookingStatus, now: BookingStatus) {
    now == CONFIRMED && was != PENDING_PAYMENT && was != CONFIRMED
  }

  function Moved(bookings: map<Id, Booking>, b: Id, status: BookingStatus, stamp: nat): map<Id, Booking>
    requires b in bookings
  {
    bookings[b := bookings[b].(status := status, confirmed := stamp)]
  }

  /** Live again, b neither holds the start of an earlier live booking nor starts where a later one holds. */
  ghost predicate Fits(bookings: map<Id, Booking>, b: Id, but: set<Id>)
    requires b in bookings
  {
    forall c :: c in bookings && c !in but && SameDay(bookings[c], bookings[b]) && bookings[c].Live() ==>
      && (bookings[b].inserted < bookings[c].inserted ==> bookings[b].start !in bookings[c].held)
      && (bookings[c].inserted < bookings[b].inserted ==> bookings[c].start !in bookings[b].held)
  }

  lemma MovedNumbers(bookings: map<Id, Booking>, b: Id, status: BookingStatus, stamp: nat)
    requires Numbered(bookings) && b in bookings
    ensures Numbered(Moved(bookings, b, status, stamp))
  {
    var after := Moved(bookings, b, status, stamp);
    assert after.Keys == bookings.Keys;
    assert |after| == |bookings|;
    assert forall c :: c in bookings ==> after[c].inserted == bookings[c].inserted;
  }

  /** Only a late confirmation can bring a breach, and only of the booking it confirms. */
  lemma MovedBreaches(bookings: map<Id, Booking>, b: Id, status: BookingStatus, stamp: nat, c: Id, d: Id)
    requires b in bookings && Comes(bookings[b].status, status) && Breach(Moved(bookings, b, status, stamp), c, d)
    requires Revives(bookings[b].status, status) ==> b != c && b != d
    ensures Breach(bookings, c, d)
  {
  }

  /** A change of status keeps the holds if and only if it is no late confirmation, or one that fits. */
  lemma MovedHoldsExactly(bookings: map<Id, Booking>, b: Id, status: BookingStatus, stamp: nat, but: set<Id>)
    requires Holding(bookings, but) && b in bookings && Comes(bookings[b].status, status)
    ensures Holding(Moved(bookings, b, status, stamp), but)
      <==> (Revives(bookings[b].status, status) && b !in but ==> Fits(bookings, b, but))
  {
    var after := Moved(bookings, b, status, stamp);
    MovedNumbers(bookings, b, status, stamp);
    var revives := Revives(bookings[b].status, status);
    forall c, d | c !in but && d !in but && !(revives && (b == c || b == d))
      ensures !Breach(after, c, d)
    {
      if Breach(after, c, d) {
        MovedBreaches(bookings, b, status, stamp, c, d);
      }
    }
    if revives && b !in but {
      RevivedFits(bookings, b, stamp, but);
    }
  }

  lemma RevivedFits(bookings: map<Id, Booking>, b: Id, stamp: nat, but: set<Id>)
    requires b in bookings && Revives(bookings[b].status, CONFIRMED) && b !in but
    ensures Fits(bookings, b, but) <==>
      forall c :: c !in but ==>
        !Breach(Moved(bookings, b, CONFIRMED, stamp), b, c) && !Breach(Moved(bookings, b, CONFIRMED, stamp), c, b)
  {
    var after := Moved(bookings, b, CONFIRMED, stamp);
    forall c | c in bookings && c != b
      ensures after[c] == bookings[c]
      ensures SameDay(after[c], after[b]) <==> SameDay(bookings[c], bookings[b])
    {
    }
    if forall c :: c !in but ==> !Breach(after, b, c) && !Breach(after, c, b) {
      forall c | c in bookings && c !in but && SameDay(bookings[c], bookings[b]) && bookings[c].Live()
        ensures bookings[b].inserted < bookings[c].inserted ==> bookings[b].start !in bookings[c].held
        ensures bookings[c].inserted < bookings[b].inserted ==> bookings[c].start !in bookings[b].held
      {
        assert !Breach(after, b, c) && !Breach(after, c, b);
      }
    }
  }

  // ---- repeated requests -------------------------------------------------------------------------------------------

  /** A client who repeats a request while its booking b still awaits payment and has not expired gets b back, whatever
      row the lookup answers, if and only if no other row is pending for this client and request. */
  lemma RepeatResumesExactly(bookings: map<Id, Booking>, q: BookingRequest, client: Id, row: ScheduleRow, now: int,
                             id: Id, b: Id)
    requires id !in bookings && b in bookings && OwnPending(bookings[b], q, client) && now < bookings[b].expiresAt
    ensures (forall own :: OwnAnswer(bookings, q, client, own) ==>
               TryBook(bookings, q, client, row, now, id, own) == (bookings, Done(b)))
      <==> (forall c :: c in bookings && OwnPending(bookings[c], q, client) ==> c == b)
  {
    if c :| c in bookings && OwnPending(bookings[c], q, client) && c != b {
      assert OwnAnswer(bookings, q, client, Some(c));
      assert TryBook(bookings, q, client, row, now, id, Some(c)).1 != Done(b);
    }
  }

  /** That is always so where a field's bookings all lie on one schedule. */
  lemma RepeatResumes(bookings: map<Id, Booking>, q: BookingRequest, client: Id, row: ScheduleRow, now: int, id: Id,
                      own: Option<Id>, b: Id, but: set<Id>)
    requires Holding(bookings, but) && forall c :: c in but && c in bookings ==> bookings[c].status != PENDING_PAYMENT
    requires OwnAnswer(bookings, q, client, own)
    requires forall c :: c in bookings && bookings[c].field == q.field ==> bookings[c].schedule == q.schedule
    requires b in bookings && OwnPending(bookings[b], q, client) && now < bookings[b].expiresAt
    ensures TryBook(bookings, q, client, row, now, id, own) == (bookings, Done(b))
  {
    if own != Some(b) {
      LiveStartsDistinct(bookings, but, own.value, b);
    }
  }

  // ---- a repeated request that is refused --------------------------------------------------------------------------

  const FIRST := BookingRequest("field", "first", "2026-01-01", 600, 1)
  const SECOND := BookingRequest("field", "second", "2026-01-01", 600, 1)
  const ROW := ScheduleRow(60, 1000, None)

  /** Alice lets a booking lapse, and books the same time on the field's other schedule. */
  const LAPSED_THEN_BOOKED := [
    Book(FIRST, Some(true), Some(ROW), Some("alice"), 0, "A", None),
    Book(SECOND, Some(true), Some(ROW), Some("alice"), EXPIRY_MS, "B", Some("A"))]

  /** When she repeats the second request the lookup may answer the lapsed row, and she is told the slot is taken,
      although the booking that takes it is her own, pending and unexpired. */
  lemma RepeatCanBeRefused()
    ensures PossibleRun(map[], LAPSED_THEN_BOOKED)
    ensures
      var s := Run(map[], LAPSED_THEN_BOOKED);
      && "B" in s.bookings && OwnPending(s.bookings["B"], SECOND, "alice") && EXPIRY_MS < s.bookings["B"].expiresAt
      && OwnAnswer(s.bookings, SECOND, "alice", Some("A"))
      && CreateBooking(s, SECOND, Some(true), Some(ROW), Some("alice"), EXPIRY_MS, "C", Some("A"))
        == (s, Refused(SLOT_TAKEN))
  {
    var es := LAPSED_THEN_BOOKED;
    var ss := VisitedStates(map[], es);
    assert ss[1] == Step(map[], EMPTY, es[0]);
    assert ss[1].bookings == map["A" := Priced(FIRST, "alice", ROW, 0, 0)];
    assert ss[2] == Step(map[], ss[1], es[1]);
    LapsedIsPassed(ss[1], ss[2]);
    PossibleVisits(map[], es, ss);
  }

  lemma LapsedIsPassed(s1: State, s2: State)
    requires s1.bookings == map["A" := Priced(FIRST, "alice", ROW, 0, 0)]
    requires s2 == Step(map[], s1, LAPSED_THEN_BOOKED[1])
    ensures "A" in s2.bookings && "B" in s2.bookings && s2.bookings["A"] == s1.bookings["A"]
    ensures s2.bookings["B"] == Priced(SECOND, "alice", ROW, EXPIRY_MS, 1) && s2.payments == s1.payments
    ensures CreateBooking(s2, SECOND, Some(true), Some(ROW), Some("alice"), EXPIRY_MS, "C", Some("A"))
         == (s2, Refused(SLOT_TAKEN))
  {
    assert |s1.bookings| == 1;
    assert !Taken(s1.bookings, SECOND, 600);
    assert Holds(s2.bookings["B"], SECOND, 600);
    assert BookedMinutes(600, 60, 1)[0] == 600;
  }
}
