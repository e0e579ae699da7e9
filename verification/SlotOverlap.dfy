/** Bookings that overlap in time. createBooking compares the starts of a request's slots with the stored starts of
    other bookings: exactly which overlaps that lets through, in slots and in minutes. */
module SlotOverlap {
  import opened Wrappers
  import opened SlotTime
  import opened SlotGrid
  import opened Ledger
  import opened BookingModel
  import opened SlotHolds

  /** The booking holds one start every d minutes. */
  predicate Stepped(b: Booking, d: nat) {
    b.held == BookedMinutes(b.start, d, b.numSlots)
  }

  ghost predicate SharesSlot(b: Booking, c: Booking) {
    exists x :: x in b.held && x in c.held
  }

  /** A live booking of the request's field, schedule and date. */
  predicate Beside(b: Booking, q: BookingRequest) {
    b.field == q.field && b.schedule == q.schedule && b.date == q.date && b.Live()
  }

  lemma StepsBack(s: Minute, t: Minute, d: nat, i: nat, j: nat)
    requires i >= j && (s + i * d) % DAY == (t + j * d) % DAY
    ensures (s + (i - j) * d) % DAY == t
  {
    var k := (s + i * d) / DAY - (t + j * d) / DAY;
    assert (i - j) * d == i * d - j * d;
    assert s + (i - j) * d == t + k * DAY;
    SameModDay(s + (i - j) * d, t, k);
  }

  /** Two runs of equal steps round the clock meet only if one of them starts inside the other. */
  lemma RunsMeet(s: Minute, t: Minute, d: nat, m: nat, n: nat, x: Minute)
    requires x in BookedMinutes(s, d, m) && x in BookedMinutes(t, d, n)
    ensures t in BookedMinutes(s, d, m) || s in BookedMinutes(t, d, n)
  {
    var i :| 0 <= i < m && BookedMinutes(s, d, m)[i] == x;
    var j :| 0 <= j < n && BookedMinutes(t, d, n)[j] == x;
    if i >= j {
      StepsBack(s, t, d, i, j);
      assert BookedMinutes(s, d, m)[i - j] == t;
    } else {
      StepsBack(t, s, d, j, i);
      assert BookedMinutes(t, d, n)[j - i] == s;
    }
  }

  // ---- starts held by both -----------------------------------------------------------------------------------------

  /** A booking that createBooking inserts never holds the start of a live one of its schedule and date. It shares a
      slot with one, made when slots were d minutes long, if and only if it holds a later slot of that one; and if slots
      have kept their length, if and only if it starts inside that one. */
  lemma SharesSlotExactly(bookings: map<Id, Booking>, q: BookingRequest, client: Id, row: ScheduleRow, now: int, id: Id,
                          own: Option<Id>, b: Id, d: nat)
    requires id !in bookings && q.numSlots >= 1 && b in bookings && Beside(bookings[b], q)
    requires Stepped(bookings[b], d) && id in TryBook(bookings, q, client, row, now, id, own).0
    ensures
      var (was, bk) := (bookings[b], TryBook(bookings, q, client, row, now, id, own).0[id]);
      && was.start !in bk.held
      && (SharesSlot(was, bk) <==> exists i :: 1 <= i < |was.held| && was.held[i] in bk.held)
      && (d == row.duration ==> (SharesSlot(was, bk) <==> q.start in was.held))
  {
    var was, bk := bookings[b], TryBook(bookings, q, client, row, now, id, own).0[id];
    forall i | 0 <= i < |bk.held|
      ensures bk.held[i] != was.start
    {
      assert !Taken(bookings, q, bk.held[i]);
      assert !Holds(was, q, bk.held[i]);
    }
    if |was.held| > 0 {
      assert was.held[0] == (was.start + 0 * d) % DAY == was.start;
    }
    if x :| x in was.held && x in bk.held {
      var i :| 0 <= i < |was.held| && was.held[i] == x;
      assert i >= 1;
      if d == row.duration {
        RunsMeet(was.start, q.start, d, was.numSlots, q.numSlots, x);
      }
    }
    OwnStart(q.start, bk.end, row.duration, q.numSlots);
  }

  // ---- minutes covered by both -------------------------------------------------------------------------------------

  /** Minute x of the day is one of the `length` minutes from s on. */
  predicate Within(s: Minute, length: nat, x: Minute) {
    (x - s) % DAY < length
  }

  /** Two stretches of time share a minute if and only if one of them covers the start of the other. */
  lemma StretchesMeet(s: Minute, m: nat, t: Minute, n: nat)
    requires m >= 1 && n >= 1
    ensures (exists x: Minute :: Within(s, m, x) && Within(t, n, x)) <==> Within(s, m, t) || Within(t, n, s)
  {
    if x: Minute :| Within(s, m, x) && Within(t, n, x) {
      var a, b := (x - s) % DAY, (x - t) % DAY;
      if a >= b {
        assert (t - s) % DAY == a - b;
      } else {
        assert (s - t) % DAY == b - a;
      }
    }
    if Within(s, m, t) {
      assert Within(t, n, t);
    }
    if Within(t, n, s) {
      assert Within(s, m, s);
    }
  }

  /** The booking, of slots of d minutes, takes minute x of its day. */
  predicate Occupies(b: Booking, d: nat, x: Minute) {
    Within(b.start, b.numSlots * d, x)
  }

  ghost predicate SharesMinute(b: Booking, d: nat, c: Booking, e: nat) {
    exists x: Minute :: Occupies(b, d, x) && Occupies(c, e, x)
  }

  /** For a booking of a day at most, that is what its stored start and end say. */
  lemma OccupiesIsCovers(b: Booking, d: nat, x: Minute)
    requires b.end == EndMinute(b.start, d, b.numSlots) && 1 <= b.numSlots * d <= DAY
    ensures Occupies(b, d, x) <==> Covers(b.start, b.end, x)
  {
    CircleStretch(b.start, 0, b.numSlots * d, x);
    assert d * b.numSlots == b.numSlots * d;
  }

  /** A booking that createBooking inserts overlaps a live one of its schedule and date in time if and only if its start
      falls into that one, or that one's start into it; and never do they start together. */
  lemma OverlapsExactly(bookings: map<Id, Booking>, q: BookingRequest, client: Id, row: ScheduleRow, now: int, id: Id,
                        own: Option<Id>, b: Id, d: nat)
    requires id !in bookings && q.numSlots >= 1 && row.duration >= 1 && b in bookings && Beside(bookings[b], q)
    requires bookings[b].numSlots >= 1 && d >= 1 && Stepped(bookings[b], d)
    requires id in TryBook(bookings, q, client, row, now, id, own).0
    ensures
      var (was, bk) := (bookings[b], TryBook(bookings, q, client, row, now, id, own).0[id]);
      && q.start != was.start
      && (SharesMinute(was, d, bk, row.duration)
          <==> Occupies(was, d, q.start) || Occupies(bk, row.duration, was.start))
  {
    var was, bk := bookings[b], TryBook(bookings, q, client, row, now, id, own).0[id];
    SharesSlotExactly(bookings, q, client, row, now, id, own, b, d);
    OwnStart(q.start, bk.end, row.duration, q.numSlots);
    MulGrows(was.numSlots, d);
    MulGrows(q.numSlots, row.duration);
    BookingsMeet(was, d, bk, row.duration);
  }

  lemma BookingsMeet(b: Booking, d: nat, c: Booking, e: nat)
    requires b.numSlots * d >= 1 && c.numSlots * e >= 1
    ensures SharesMinute(b, d, c, e) <==> Occupies(b, d, c.start) || Occupies(c, e, b.start)
  {
    StretchesMeet(b.start, b.numSlots * d, c.start, c.numSlots * e);
    if SharesMinute(b, d, c, e) {
      var x: Minute :| Occupies(b, d, x) && Occupies(c, e, x);
      assert Within(b.start, b.numSlots * d, x) && Within(c.start, c.numSlots * e, x);
    }
    if x: Minute :| Within(b.start, b.numSlots * d, x) && Within(c.start, c.numSlots * e, x) {
      assert Occupies(b, d, x) && Occupies(c, e, x);
    }
  }

  // ---- on one grid -------------------------------------------------------------------------------------------------

  /** `count` slots of the field's grid from slot i on, starting at this minute. */
  predicate OnGrid(h: Hours, start: Minute, count: nat, i: nat)
    requires HoursOk(h)
  {
    i + count <= SlotCount(h) && start == TimeToMinutes(SlotStart(h, i))
  }

  lemma GridStart(h: Hours, i: nat)
    requires HoursOk(h)
    ensures TimeToMinutes(SlotStart(h, i)) == (TimeToMinutes(h.open) + i * h.duration) % DAY
  {
  }

  lemma GridFits(h: Hours, n: nat)
    requires HoursOk(h) && n <= SlotCount(h)
    ensures n * h.duration <= DAY
  {
    if n > 0 {
      LastSlotFits(h, n - 1);
      NextStep(n - 1, h.duration);
    }
  }

  lemma CircleWithin(open: Minute, a: nat, b: nat, length: nat)
    requires a + length <= DAY && b < DAY
    ensures Within((open + a) % DAY, length, (open + b) % DAY) <==> a <= b < a + length
  {
  }

  lemma StepOrder(d: nat, i: nat, j: nat)
    requires d >= 1
    ensures i <= j <==> i * d <= j * d
  {
    if i <= j {
      MulOrder(d, i, j);
    } else {
      MulGrows(i - j, d);
      assert i * d == j * d + (i - j) * d;
    }
  }

  /** A run of m slots from slot i covers the start of slot j if and only if j is one of them. */
  lemma GridWithin(h: Hours, s: Minute, m: nat, i: nat, t: Minute, j: nat)
    requires HoursOk(h) && OnGrid(h, s, m, i) && OnGrid(h, t, 1, j)
    ensures Within(s, m * h.duration, t) <==> i <= j < i + m
  {
    GridStart(h, i);
    GridStart(h, j);
    GridFits(h, i + m);
    GridFits(h, j + 1);
    GridRun(TimeToMinutes(h.open), h.duration, m, i, j);
  }

  lemma Distribute(i: nat, m: nat, d: nat)
    ensures (i + m) * d == i * d + m * d
  {
  }

  lemma GridRun(open: Minute, d: nat, m: nat, i: nat, j: nat)
    requires d >= 1 && (i + m) * d <= DAY && (j + 1) * d <= DAY
    ensures Within((open + i * d) % DAY, m * d, (open + j * d) % DAY) <==> i <= j < i + m
  {
    Distribute(i, m, d);
    Distribute(j, 1, d);
    StepOrder(d, i, j);
    StepOrder(d, i + m, j);
    CircleWithin(open, i * d, j * d, m * d);
  }

  /** Where both bookings lie on the grid of the field's slots, the new one overlaps the live one if and only if it
      starts at a later slot of it. */
  lemma OverlapsOnGridExactly(bookings: map<Id, Booking>, q: BookingRequest, client: Id, row: ScheduleRow, now: int,
                              id: Id, own: Option<Id>, b: Id, h: Hours, i: nat, j: nat)
    requires id !in bookings && q.numSlots >= 1 && b in bookings && Beside(bookings[b], q)
    requires HoursOk(h) && row.duration == h.duration && OnGrid(h, q.start, q.numSlots, j)
    requires bookings[b].numSlots >= 1 && Stepped(bookings[b], h.duration)
    requires OnGrid(h, bookings[b].start, bookings[b].numSlots, i)
    requires id in TryBook(bookings, q, client, row, now, id, own).0
    ensures SharesMinute(bookings[b], h.duration, TryBook(bookings, q, client, row, now, id, own).0[id], row.duration)
      <==> i < j < i + bookings[b].numSlots
  {
    var was := bookings[b];
    OverlapsExactly(bookings, q, client, row, now, id, own, b, h.duration);
    SharesSlotExactly(bookings, q, client, row, now, id, own, b, h.duration);
    GridWithin(h, was.start, was.numSlots, i, q.start, j);
    GridWithin(h, q.start, q.numSlots, j, was.start, i);
    if j <= i < j + q.numSlots {
      GridHeld(h, q.start, q.numSlots, j, i);
    }
  }

  lemma GridLength(h: Hours, start: Minute, count: nat, j: nat)
    requires HoursOk(h) && OnGrid(h, start, count, j)
    ensures count * h.duration <= DAY
  {
    GridFits(h, j + count);
    Distribute(j, count, h.duration);
    MulOrder(h.duration, 0, j);
  }

  lemma GridSlot(h: Hours, start: Minute, count: nat, j: nat, i: nat)
    requires HoursOk(h) && OnGrid(h, start, count, j) && j <= i
    ensures TimeToMinutes(SlotStart(h, i)) == (start + (i - j) * h.duration) % DAY
  {
    var d := h.duration;
    GridStart(h, i);
    GridStart(h, j);
    assert (i - j) * d == i * d - j * d;
    SameModDay(start + (i - j) * d, TimeToMinutes(h.open) + i * d, -((TimeToMinutes(h.open) + j * d) / DAY));
  }

  lemma GridHeld(h: Hours, start: Minute, count: nat, j: nat, i: nat)
    requires HoursOk(h) && OnGrid(h, start, count, j) && j <= i < j + count
    ensures TimeToMinutes(SlotStart(h, i)) in BookedMinutes(start, h.duration, count)
  {
    GridSlot(h, start, count, j, i);
    assert BookedMinutes(start, h.duration, count)[i - j] == TimeToMinutes(SlotStart(h, i));
  }

  /** So on the grid a new booking never overlaps a live single-slot one. */
  lemma SingleSlotsNeverOverlap(bookings: map<Id, Booking>, q: BookingRequest, client: Id, row: ScheduleRow, now: int,
                                id: Id, own: Option<Id>, b: Id, h: Hours, i: nat, j: nat)
    requires id !in bookings && q.numSlots >= 1 && b in bookings && Beside(bookings[b], q)
    requires HoursOk(h) && row.duration == h.duration && OnGrid(h, q.start, q.numSlots, j)
    requires bookings[b].numSlots == 1 && Stepped(bookings[b], h.duration) && OnGrid(h, bookings[b].start, 1, i)
    requires id in TryBook(bookings, q, client, row, now, id, own).0
    ensures !SharesMinute(bookings[b], h.duration, TryBook(bookings, q, client, row, now, id, own).0[id], row.duration)
  {
    OverlapsOnGridExactly(bookings, q, client, row, now, id, own, b, h, i, j);
  }

  // ---- two runs ----------------------------------------------------------------------------------------------------

  const TWO_SLOTS := BookingRequest("field", "schedule", "2026-01-01", 600, 2)
  const SECOND_SLOT := BookingRequest("field", "schedule", "2026-01-01", 660, 1)
  const ONE_SLOT := BookingRequest("field", "schedule", "2026-01-01", 600, 1)
  const HALF_PAST := BookingRequest("field", "schedule", "2026-01-01", 630, 1)
  const ROW := ScheduleRow(60, 1000, None)

  /** Alice books and pays a first request, then Bob a second one. */
  function BothPay(first: BookingRequest, second: BookingRequest, today: Today): seq<Event> {
    [Book(first, Some(true), Some(ROW), Some("alice"), 0, "A", None),
     Initiate("A", Ask(Some("alice"), None, "WAVE", None), 0, "p", Some("r1")),
     Webhook("A", true, "t1", today),
     Book(second, Some(true), Some(ROW), Some("bob"), 0, "B", None),
     Initiate("B", Ask(Some("bob"), None, "WAVE", None), 0, "q", Some("r2")),
     Webhook("B", true, "t2", today)]
  }

  /** Requests of one schedule and date, the second for a single slot at another time. */
  predicate Differ(first: BookingRequest, second: BookingRequest) {
    && second == first.(start := second.start, numSlots := 1) && second.start != first.start && first.numSlots >= 1
  }

  ghost predicate Row(s: State, b: Id, q: BookingRequest, client: Id, status: BookingStatus) {
    && b in s.bookings && s.bookings[b].status == status && s.bookings[b].client == client
    && s.bookings[b].field == q.field && s.bookings[b].date == q.date && s.bookings[b].start == q.start
    && s.bookings[b].numSlots == q.numSlots && s.bookings[b].held == BookedMinutes(q.start, 60, q.numSlots)
    && s.bookings[b].end == EndMinute(q.start, 60, q.numSlots) && s.bookings[b].expiresAt == EXPIRY_MS
  }

  lemma AlicePays(es: seq<Event>, ss: seq<State>, first: BookingRequest, second: BookingRequest, today: Today)
    requires Visits(map[], es, ss) && es == BothPay(first, second, today) && Differ(first, second)
    ensures ss[1].bookings.Keys == {"A"} && ss[1].payments == map[]
    ensures ss[2].bookings.Keys == {"A"} && ss[2].payments.Keys == {"A"} && ss[2].payments["A"].id == "p"
    ensures ss[3].bookings.Keys == {"A"} && ss[3].payments.Keys == {"A"} && ss[3].payments["A"].id == "p"
    ensures Row(ss[3], "A", first, "alice", CONFIRMED)
  {
    assert ss[1] == Step(map[], EMPTY, es[0]);
    assert ss[2] == Step(map[], ss[1], es[1]);
    assert Row(ss[2], "A", first, "alice", PENDING_PAYMENT) && ss[2].payments["A"].status == PENDING;
    assert ss[3] == Step(map[], ss[2], es[2]);
  }

  /** A single slot's own starts are its start alone. */
  lemma OneStart(b: Booking)
    requires b.numSlots == 1
    ensures forall x: Minute :: b.StartsAt(x) <==> x == b.start
  {
  }

  lemma BobBooks(es: seq<Event>, ss: seq<State>, first: BookingRequest, second: BookingRequest, today: Today)
    requires Visits(map[], es, ss) && es == BothPay(first, second, today) && Differ(first, second)
    requires ss[3].bookings.Keys == {"A"} && ss[3].payments.Keys == {"A"} && ss[3].payments["A"].id == "p"
    requires Row(ss[3], "A", first, "alice", CONFIRMED)
    ensures ss[4].bookings.Keys == {"A", "B"} && ss[4].payments == ss[3].payments
    ensures Row(ss[4], "A", first, "alice", CONFIRMED) && Row(ss[4], "B", second, "bob", PENDING_PAYMENT)
  {
    assert ss[4] == Step(map[], ss[3], es[3]);
    assert BookedMinutes(second.start, 60, 1)[0] == second.start;
  }

  lemma BobPays(es: seq<Event>, ss: seq<State>, first: BookingRequest, second: BookingRequest, today: Today)
    requires Visits(map[], es, ss) && es == BothPay(first, second, today) && Differ(first, second)
    requires ss[4].bookings.Keys == {"A", "B"} && ss[4].payments.Keys == {"A"}
    requires Row(ss[4], "A", first, "alice", CONFIRMED) && Row(ss[4], "B", second, "bob", PENDING_PAYMENT)
    ensures Row(ss[6], "A", first, "alice", CONFIRMED) && Row(ss[6], "B", second, "bob", CONFIRMED)
  {
    OneStart(ss[4].bookings["B"]);
    assert ss[5] == Step(map[], ss[4], es[4]);
    assert ss[5].bookings == ss[4].bookings && ss[5].payments["B"].status == PENDING;
    assert ss[6] == Step(map[], ss[5], es[5]);
  }

  lemma BothPossible(es: seq<Event>, ss: seq<State>, first: BookingRequest, second: BookingRequest, today: Today)
    requires es == BothPay(first, second, today) && Differ(first, second) && |ss| == 7 && ss[0] == EMPTY
    requires ss[3].bookings.Keys == {"A"} && ss[3].payments.Keys == {"A"} && ss[3].payments["A"].id == "p"
    requires Row(ss[3], "A", first, "alice", CONFIRMED)
    requires ss[1].bookings.Keys == {"A"} && ss[1].payments == map[]
    requires ss[4].bookings.Keys == {"A", "B"} && ss[4].payments == ss[3].payments
    ensures forall i :: 0 <= i < |es| ==> Possible(ss[i], es[i])
  {
  }

  /** Both are confirmed, whatever the requests, if they start at different times. */
  lemma BothConfirmed(first: BookingRequest, second: BookingRequest, today: Today)
    requires Differ(first, second)
    ensures PossibleRun(map[], BothPay(first, second, today))
    ensures
      var s := Run(map[], BothPay(first, second, today));
      Row(s, "A", first, "alice", CONFIRMED) && Row(s, "B", second, "bob", CONFIRMED)
  {
    var es := BothPay(first, second, today);
    var ss := VisitedStates(map[], es);
    AlicePays(es, ss, first, second, today);
    BobBooks(es, ss, first, second, today);
    BobPays(es, ss, first, second, today);
    BothPossible(es, ss, first, second, today);
    PossibleVisits(map[], es, ss);
  }

  /** A possible run, with no reconciliation in it, that ends with a slot confirmed twice: two slots from ten o'clock,
      and the second of them. */
  lemma SecondSlotCanBeSoldTwice(today: Today)
    ensures PossibleRun(map[], BothPay(TWO_SLOTS, SECOND_SLOT, today))
    ensures
      var bs := Run(map[], BothPay(TWO_SLOTS, SECOND_SLOT, today)).bookings;
      && "A" in bs && "B" in bs && bs["A"].status == CONFIRMED && bs["B"].status == CONFIRMED
      && SharesSlot(bs["A"], bs["B"]) && SharesMinute(bs["A"], 60, bs["B"], 60)
  {
    BothConfirmed(TWO_SLOTS, SECOND_SLOT, today);
    var s := Run(map[], BothPay(TWO_SLOTS, SECOND_SLOT, today));
    SecondHeld(s.bookings["A"], s.bookings["B"]);
  }

  lemma SecondHeld(a: Booking, b: Booking)
    requires a.start == 600 && a.numSlots == 2 && a.held == BookedMinutes(600, 60, 2)
    requires b.start == 660 && b.numSlots == 1 && b.held == BookedMinutes(660, 60, 1)
    ensures SharesSlot(a, b) && SharesMinute(a, 60, b, 60)
  {
    var x: Minute := 660;
    assert a.held[1] == x && b.held[0] == x;
    assert x in a.held && x in b.held;
    assert Occupies(a, 60, x) && Occupies(b, 60, x);
  }

  /** And one that ends with two confirmed single slots half an hour apart, an hour long each. */
  lemma HalfHoursCanOverlap(today: Today)
    ensures PossibleRun(map[], BothPay(ONE_SLOT, HALF_PAST, today))
    ensures
      var bs := Run(map[], BothPay(ONE_SLOT, HALF_PAST, today)).bookings;
      && "A" in bs && "B" in bs && bs["A"].status == CONFIRMED && bs["B"].status == CONFIRMED
      && !SharesSlot(bs["A"], bs["B"]) && SharesMinute(bs["A"], 60, bs["B"], 60)
  {
    BothConfirmed(ONE_SLOT, HALF_PAST, today);
    var s := Run(map[], BothPay(ONE_SLOT, HALF_PAST, today));
    HalfPastOverlaps(s.bookings["A"], s.bookings["B"]);
  }

  lemma HalfPastOverlaps(a: Booking, b: Booking)
    requires a.start == 600 && a.numSlots == 1 && a.held == BookedMinutes(600, 60, 1)
    requires b.start == 630 && b.numSlots == 1 && b.held == BookedMinutes(630, 60, 1)
    ensures !SharesSlot(a, b) && SharesMinute(a, 60, b, 60)
  {
    var x: Minute := 640;
    assert a.held == [600] && b.held == [630];
    assert Occupies(a, 60, x) && Occupies(b, 60, x);
  }
}
