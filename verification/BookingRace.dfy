/** createBooking with any number of clients at once. A client takes the schedule's row lock, looks for a booking of its
    own to resume, checks its slots one by one, then inserts and commits. Between any two of these other clients may
    move, and other handlers, which take no lock, may change the status of any booking. */
module BookingRace {
  import opened Wrappers
  import opened SlotTime
  import opened Ledger
  import opened BookingModel
  import opened SlotHolds

  datatype Task =
    | Waiting(q: BookingRequest, client: Id)
    | Locked(q: BookingRequest, client: Id, row: ScheduleRow)
    | Checking(q: BookingRequest, client: Id, row: ScheduleRow, done: nat, seen: int)
    | Finished(reply: Reply)

  datatype Race = Race(bookings: map<Id, Booking>, locks: map<Id, nat>, tasks: map<nat, Task>, clock: int)

  datatype Move =
    | Arrive(t: nat, q: BookingRequest, client: Id)
    | Lock(t: nat, row: ScheduleRow)
    | Look(t: nat, own: Option<Id>)
    | CheckSlot(t: nat)
    | Insert(t: nat, id: Id)
    | Change(b: Id, status: BookingStatus, stamp: nat)
    | Tick(ms: nat)

  function Starts(task: Task): seq<Minute>
    requires task.Checking?
  {
    BookedMinutes(task.q.start, task.row.duration, task.q.numSlots)
  }

  ghost predicate Enabled(r: Race, m: Move) {
    match m
    case Arrive(t, q, _) => t !in r.tasks && q.numSlots >= 1
    case Lock(t, _) => t in r.tasks && r.tasks[t].Waiting? && r.tasks[t].q.schedule !in r.locks
    case Look(t, own) =>
      t in r.tasks && r.tasks[t].Locked? && OwnAnswer(r.bookings, r.tasks[t].q, r.tasks[t].client, own)
    case CheckSlot(t) => t in r.tasks && r.tasks[t].Checking? && r.tasks[t].done < r.tasks[t].q.numSlots
    case Insert(t, id) =>
      t in r.tasks && r.tasks[t].Checking? && r.tasks[t].done == r.tasks[t].q.numSlots && id !in r.bookings
    case Change(b, status, _) => b in r.bookings && Comes(r.bookings[b].status, status)
    case Tick(_) => true
  }

  /** Commit or rollback: the lock is released with the client's reply. */
  function Release(r: Race, t: nat, reply: Reply): Race
    requires t in r.tasks && (r.tasks[t].Locked? || r.tasks[t].Checking?)
  {
    r.(locks := r.locks - {r.tasks[t].q.schedule}, tasks := r.tasks[t := Finished(reply)])
  }

  ghost function Next(r: Race, m: Move): Race
    requires Enabled(r, m)
  {
    match m
    case Arrive(t, q, client) => r.(tasks := r.tasks[t := Waiting(q, client)])
    case Lock(t, row) =>
      var task := r.tasks[t];
      r.(locks := r.locks[task.q.schedule := t], tasks := r.tasks[t := Locked(task.q, task.client, row)])
    case Look(t, own) =>
      var task := r.tasks[t];
      if own.Some? && r.clock < r.bookings[own.value].expiresAt then Release(r, t, Done(own.value))
      else r.(tasks := r.tasks[t := Checking(task.q, task.client, task.row, 0, r.clock)])
    case CheckSlot(t) =>
      var task := r.tasks[t];
      if Taken(r.bookings, task.q, Starts(task)[task.done]) then Release(r, t, Refused(SLOT_TAKEN))
      else r.(tasks := r.tasks[t := task.(done := task.done + 1)])
    case Insert(t, id) =>
      var task := r.tasks[t];
      Release(r, t, Done(id)).(
        bookings := r.bookings[id := Priced(task.q, task.client, task.row, r.clock, |r.bookings|)])
    case Change(b, status, stamp) => r.(bookings := Moved(r.bookings, b, status, stamp))
    case Tick(ms) => r.(clock := r.clock + ms)
  }

  // ---- what every step keeps -------------------------------------------------------------------------------------

  /** A start held by a live booking outside `but`. */
  predicate TakenBut(bookings: map<Id, Booking>, q: BookingRequest, x: Minute, but: set<Id>) {
    exists b :: b in bookings && b !in but && Holds(bookings[b], q, x)
  }

  /** A client past the lock holds it; what it has checked is still so, but for bookings in `but`. */
  ghost predicate TaskOk(r: Race, t: nat, but: set<Id>)
    requires t in r.tasks
  {
    var task := r.tasks[t];
    && (!task.Finished? ==> task.q.numSlots >= 1)
    && (task.Locked? || task.Checking? ==> task.q.schedule in r.locks && r.locks[task.q.schedule] == t)
    && (task.Checking? ==>
          && task.done <= task.q.numSlots
          && (forall i :: 0 <= i < task.done ==> !TakenBut(r.bookings, task.q, Starts(task)[i], but)))
  }

  /** Bookings that no longer await payment. */
  ghost predicate Past(bookings: map<Id, Booking>, but: set<Id>) {
    but <= bookings.Keys && forall b :: b in but ==> bookings[b].status != PENDING_PAYMENT
  }

  ghost predicate RaceOk(r: Race, but: set<Id>) {
    Past(r.bookings, but) && Holding(r.bookings, but) && TasksOk(r, but)
  }

  ghost predicate TasksOk(r: Race, but: set<Id>) {
    forall t :: t in r.tasks ==> TaskOk(r, t, but)
  }

  lemma ReleaseKeeps(r: Race, t: nat, reply: Reply, but: set<Id>)
    requires RaceOk(r, but) && t in r.tasks && (r.tasks[t].Locked? || r.tasks[t].Checking?)
    ensures RaceOk(Release(r, t, reply), but)
    ensures r.tasks[t].q.schedule !in Release(r, t, reply).locks
  {
    var r' := Release(r, t, reply);
    assert TaskOk(r, t, but);
    forall u | u in r'.tasks
      ensures TaskOk(r', u, but)
    {
      if u != t {
        assert TaskOk(r, u, but);
      }
    }
  }

  lemma ProceedKeeps(r: Race, t: nat, task: Task, but: set<Id>)
    requires RaceOk(r, but) && t in r.tasks && TaskOk(r.(tasks := r.tasks[t := task]), t, but)
    ensures RaceOk(r.(tasks := r.tasks[t := task]), but)
  {
    forall u | u in r.tasks && u != t
      ensures TaskOk(r.(tasks := r.tasks[t := task]), u, but)
    {
      assert TaskOk(r, u, but);
    }
  }

  lemma LookKeeps(r: Race, t: nat, own: Option<Id>, but: set<Id>)
    requires RaceOk(r, but) && Enabled(r, Look(t, own))
    ensures RaceOk(Next(r, Look(t, own)), but)
  {
    var task := r.tasks[t];
    assert TaskOk(r, t, but);
    if own.Some? && r.clock < r.bookings[own.value].expiresAt {
      ReleaseKeeps(r, t, Done(own.value), but);
    } else {
      ProceedKeeps(r, t, Checking(task.q, task.client, task.row, 0, r.clock), but);
    }
  }

  lemma CheckKeeps(r: Race, t: nat, but: set<Id>)
    requires RaceOk(r, but) && Enabled(r, CheckSlot(t))
    ensures RaceOk(Next(r, CheckSlot(t)), but)
  {
    var task := r.tasks[t];
    assert TaskOk(r, t, but);
    if Taken(r.bookings, task.q, Starts(task)[task.done]) {
      ReleaseKeeps(r, t, Refused(SLOT_TAKEN), but);
    } else {
      OneMoreChecked(r, t, but);
      ProceedKeeps(r, t, task.(done := task.done + 1), but);
    }
  }

  lemma OneMoreChecked(r: Race, t: nat, but: set<Id>)
    requires t in r.tasks && r.tasks[t].Checking? && TaskOk(r, t, but) && r.tasks[t].done < r.tasks[t].q.numSlots
    requires !Taken(r.bookings, r.tasks[t].q, Starts(r.tasks[t])[r.tasks[t].done])
    ensures TaskOk(r.(tasks := r.tasks[t := r.tasks[t].(done := r.tasks[t].done + 1)]), t, but)
  {
    var task := r.tasks[t];
    var task' := task.(done := task.done + 1);
    assert Starts(task') == Starts(task);
  }

  lemma InsertKeeps(r: Race, t: nat, id: Id, but: set<Id>)
    requires RaceOk(r, but) && Enabled(r, Insert(t, id))
    ensures RaceOk(Next(r, Insert(t, id)), but)
  {
    var task := r.tasks[t];
    assert TaskOk(r, t, but);
    var freed := Release(r, t, Done(id));
    ReleaseKeeps(r, t, Done(id), but);
    var bk := Priced(task.q, task.client, task.row, r.clock, |r.bookings|);
    CheckedHolds(r, t, bk, but);
    InsertTable(r.bookings, id, bk, but);
    InsertTasks(freed, bk, id, but);
  }

  lemma InsertTable(bookings: map<Id, Booking>, id: Id, bk: Booking, but: set<Id>)
    requires Past(bookings, but) && Holding(bookings, but) && id !in bookings && bk.inserted == |bookings|
    requires bk.start in bk.held
    requires forall b :: b in bookings && b !in but && SameDay(bookings[b], bk) && bookings[b].Live() ==>
               bookings[b].start !in bk.held
    ensures Past(bookings[id := bk], but) && Holding(bookings[id := bk], but)
  {
    InsertBreaches(bookings, id, bk);
  }

  lemma InsertTasks(freed: Race, bk: Booking, id: Id, but: set<Id>)
    requires TasksOk(freed, but) && id !in freed.bookings && bk.schedule !in freed.locks
    ensures TasksOk(freed.(bookings := freed.bookings[id := bk]), but)
  {
    forall u | u in freed.tasks
      ensures TaskOk(freed.(bookings := freed.bookings[id := bk]), u, but)
    {
      assert TaskOk(freed, u, but);
      InsertElsewhere(freed, bk, id, u, but);
    }
  }

  /** With every slot checked, the booking holds no start of a live one outside `but`. */
  lemma CheckedHolds(r: Race, t: nat, bk: Booking, but: set<Id>)
    requires t in r.tasks && TaskOk(r, t, but) && r.tasks[t].Checking? && r.tasks[t].done == r.tasks[t].q.numSlots
    requires bk == Priced(r.tasks[t].q, r.tasks[t].client, r.tasks[t].row, r.clock, |r.bookings|)
    ensures bk.start in bk.held
    ensures forall b :: b in r.bookings && b !in but && SameDay(r.bookings[b], bk) && r.bookings[b].Live() ==>
              r.bookings[b].start !in bk.held
  {
    var task := r.tasks[t];
    OwnStart(task.q.start, bk.end, task.row.duration, task.q.numSlots);
    assert bk.held == Starts(task);
    forall b, i | b in r.bookings && b !in but && SameDay(r.bookings[b], bk) && r.bookings[b].Live()
                  && 0 <= i < |bk.held|
      ensures bk.held[i] != r.bookings[b].start
    {
      assert !TakenBut(r.bookings, task.q, Starts(task)[i], but);
      assert !Holds(r.bookings[b], task.q, bk.held[i]);
    }
  }

  /** A client with another lock sees no difference when a booking of this schedule is inserted. */
  lemma InsertElsewhere(r: Race, bk: Booking, id: Id, u: nat, but: set<Id>)
    requires u in r.tasks && TaskOk(r, u, but) && id !in r.bookings
    requires r.tasks[u].Checking? ==> r.tasks[u].q.schedule != bk.schedule
    ensures TaskOk(r.(bookings := r.bookings[id := bk]), u, but)
  {
    if r.tasks[u].Checking? {
      var q := r.tasks[u].q;
      forall x | TakenBut(r.bookings[id := bk], q, x, but)
        ensures TakenBut(r.bookings, q, x, but)
      {
        var b :| b in r.bookings[id := bk] && b !in but && Holds(r.bookings[id := bk][b], q, x);
        assert b in r.bookings && Holds(r.bookings[b], q, x);
      }
    }
  }

  lemma QuietKeeps(r: Race, m: Move, but: set<Id>)
    requires RaceOk(r, but) && Enabled(r, m) && (m.Arrive? || m.Lock? || m.Tick?)
    ensures RaceOk(Next(r, m), but)
  {
    var r' := Next(r, m);
    forall u | u in r'.tasks
      ensures TaskOk(r', u, but)
    {
      if u in r.tasks {
        assert TaskOk(r, u, but);
      }
    }
  }

  // ---- changes by other handlers -----------------------------------------------------------------------------------

  ghost predicate Late(r: Race, m: Move)
    requires Enabled(r, m)
  {
    m.Change? && Revives(r.bookings[m.b].status, m.status)
  }

  /** Booking b starts at a slot that a client past the lock has already checked. */
  ghost predicate Checked(r: Race, b: Id, t: nat)
    requires b in r.bookings && t in r.tasks
  {
    var (bk, task) := (r.bookings[b], r.tasks[t]);
    && task.Checking? && bk.field == task.q.field && bk.schedule == task.q.schedule && bk.date == task.q.date
    && exists i :: 0 <= i < task.done && i < |Starts(task)| && Starts(task)[i] == bk.start
  }

  /** A late confirmation finds the start of its booking neither held nor checked, and holds no live start. */
  ghost predicate FitsIn(r: Race, m: Move, but: set<Id>)
    requires Enabled(r, m)
  {
    Late(r, m) && m.b !in but ==>
      Fits(r.bookings, m.b, but) && forall t :: t in r.tasks ==> !Checked(r, m.b, t)
  }

  /** What a change of status takes from a client: a checked start, if the booking is live again. */
  lemma ChangeTakes(r: Race, m: Move, t: nat, i: nat, but: set<Id>)
    requires m.Change? && Enabled(r, m) && t in r.tasks && r.tasks[t].Checking? && i < r.tasks[t].q.numSlots
    requires !TakenBut(r.bookings, r.tasks[t].q, Starts(r.tasks[t])[i], but)
    ensures
      var (bk, q, x) := (r.bookings[m.b], r.tasks[t].q, Starts(r.tasks[t])[i]);
      TakenBut(Next(r, m).bookings, q, x, but)
      <==> (Late(r, m) && m.b !in but && bk.field == q.field && bk.schedule == q.schedule && bk.date == q.date
            && bk.start == x)
  {
    var bk, q, x := r.bookings[m.b], r.tasks[t].q, Starts(r.tasks[t])[i];
    var after := Next(r, m).bookings;
    assert m.b !in but ==> !Holds(bk, q, x);
    forall b | b in after && b !in but && b != m.b
      ensures !Holds(after[b], q, x)
    {
      assert after[b] == r.bookings[b];
    }
    if Late(r, m) && bk.field == q.field && bk.schedule == q.schedule && bk.date == q.date && bk.start == x {
      assert Holds(after[m.b], q, x);
    }
  }

  lemma ChangeTask(r: Race, m: Move, t: nat, but: set<Id>)
    requires m.Change? && Enabled(r, m) && t in r.tasks && TaskOk(r, t, but)
    ensures TaskOk(Next(r, m), t, but) <==> (Late(r, m) && m.b !in but ==> !Checked(r, m.b, t))
  {
    var task := r.tasks[t];
    if task.Checking? {
      forall i | 0 <= i < task.done
        ensures TakenBut(Next(r, m).bookings, task.q, Starts(task)[i], but)
          <==> Late(r, m) && m.b !in but && r.bookings[m.b].field == task.q.field
               && r.bookings[m.b].schedule == task.q.schedule && r.bookings[m.b].date == task.q.date
               && r.bookings[m.b].start == Starts(task)[i]
      {
        ChangeTakes(r, m, t, i, but);
      }
    }
  }

  /** A change of status keeps everything true if and only if it is no late confirmation, or one that fits. */
  lemma ChangeKeepsExactly(r: Race, m: Move, but: set<Id>)
    requires m.Change? && RaceOk(r, but) && Enabled(r, m)
    ensures RaceOk(Next(r, m), but) <==> FitsIn(r, m, but)
  {
    MovedHoldsExactly(r.bookings, m.b, m.status, m.stamp, but);
    ChangePast(r, m, but);
    ChangeTasks(r, m, but);
  }

  lemma ChangePast(r: Race, m: Move, but: set<Id>)
    requires m.Change? && Enabled(r, m) && Past(r.bookings, but)
    ensures Past(Next(r, m).bookings, but) && (Late(r, m) ==> Past(Next(r, m).bookings, but + {m.b}))
  {
    assert Next(r, m).bookings.Keys == r.bookings.Keys;
  }

  lemma ChangeTasks(r: Race, m: Move, but: set<Id>)
    requires m.Change? && Enabled(r, m) && TasksOk(r, but)
    ensures TasksOk(Next(r, m), but)
      <==> (Late(r, m) && m.b !in but ==> forall t :: t in r.tasks ==> !Checked(r, m.b, t))
  {
    forall t | t in r.tasks
      ensures TaskOk(Next(r, m), t, but) <==> (Late(r, m) && m.b !in but ==> !Checked(r, m.b, t))
    {
      assert TaskOk(r, t, but);
      ChangeTask(r, m, t, but);
    }
  }

  /** Whatever a late confirmation does, it does to its own booking. */
  lemma LateWidens(r: Race, m: Move, but: set<Id>)
    requires RaceOk(r, but) && Enabled(r, m) && Late(r, m)
    ensures RaceOk(Next(r, m), but + {m.b})
  {
    ChangePast(r, m, but);
    LateHolds(r, m, but);
    forall t | t in r.tasks
      ensures TaskOk(Next(r, m), t, but + {m.b})
    {
      assert TaskOk(r, t, but);
      WiderTask(r, m, t, but);
    }
  }

  lemma LateHolds(r: Race, m: Move, but: set<Id>)
    requires m.Change? && Enabled(r, m) && Holding(r.bookings, but)
    ensures Holding(Next(r, m).bookings, but + {m.b})
  {
    MovedNumbers(r.bookings, m.b, m.status, m.stamp);
    forall c, d | c !in but + {m.b} && d !in but + {m.b}
      ensures !Breach(Next(r, m).bookings, c, d)
    {
      if Breach(Next(r, m).bookings, c, d) {
        MovedBreaches(r.bookings, m.b, m.status, m.stamp, c, d);
      }
    }
  }

  lemma WiderTask(r: Race, m: Move, t: nat, but: set<Id>)
    requires m.Change? && Enabled(r, m) && t in r.tasks && TaskOk(r, t, but)
    ensures TaskOk(Next(r, m), t, but + {m.b})
  {
    var task, after := r.tasks[t], Next(r, m).bookings;
    if task.Checking? {
      forall i | 0 <= i < task.done
        ensures !TakenBut(after, task.q, Starts(task)[i], but + {m.b})
      {
        assert !TakenBut(r.bookings, task.q, Starts(task)[i], but);
        assert forall b :: b in after && b !in but + {m.b} ==> after[b] == r.bookings[b];
      }
    }
  }

  lemma ClientKeeps(r: Race, m: Move, but: set<Id>)
    requires RaceOk(r, but) && Enabled(r, m) && !m.Change?
    ensures RaceOk(Next(r, m), but)
  {
    match m
    case Look(t, own) => LookKeeps(r, t, own, but);
    case CheckSlot(t) => CheckKeeps(r, t, but);
    case Insert(t, id) => InsertKeeps(r, t, id, but);
    case _ => QuietKeeps(r, m, but);
  }

  /** Every move keeps what was checked under the lock true, and the holds of the table, if and only if it is not a late
      confirmation of a booking that does not fit. */
  lemma MoveKeeps(r: Race, m: Move, but: set<Id>)
    requires RaceOk(r, but) && Enabled(r, m)
    ensures RaceOk(Next(r, m), but) <==> FitsIn(r, m, but)
  {
    if m.Change? {
      ChangeKeepsExactly(r, m, but);
    } else {
      ClientKeeps(r, m, but);
    }
  }

  lemma InTimeKeeps(r: Race, m: Move, but: set<Id>)
    requires RaceOk(r, but) && Enabled(r, m) && !Late(r, m)
    ensures RaceOk(Next(r, m), but)
  {
    assert FitsIn(r, m, but);
    MoveKeeps(r, m, but);
  }

  /** `but`, and the booking that the move confirms late. */
  ghost function Wider(r: Race, m: Move, but: set<Id>): set<Id>
    requires Enabled(r, m)
  {
    if Late(r, m) then but + {m.b} else but
  }

  lemma MoveWidens(r: Race, m: Move, but: set<Id>)
    requires RaceOk(r, but) && Enabled(r, m)
    ensures RaceOk(Next(r, m), Wider(r, m, but))
  {
    if Late(r, m) {
      LateWidens(r, m, but);
    } else {
      InTimeKeeps(r, m, but);
    }
  }

  // ---- whole runs ------------------------------------------------------------------------------------------------

  const START := Race(map[], map[], map[], 0)

  /** States visited one after another by enabled moves, from empty tables. */
  ghost predicate Trace(states: seq<Race>, moves: seq<Move>) {
    && |states| == |moves| + 1 && states[0] == START.(clock := states[0].clock)
    && forall i :: 0 <= i < |moves| ==> Enabled(states[i], moves[i]) && states[i + 1] == Next(states[i], moves[i])
  }

  /** The bookings confirmed late by the first n moves. */
  ghost function RevivedBy(states: seq<Race>, moves: seq<Move>, n: nat): set<Id>
    requires Trace(states, moves) && n <= |moves|
  {
    if n == 0 then {} else Wider(states[n - 1], moves[n - 1], RevivedBy(states, moves, n - 1))
  }

  /** However many clients race, on however many schedules, and whatever other handlers do in between: at every moment,
      of the bookings never confirmed late no live one holds the start of an earlier live one of its schedule and date,
      and what clients have checked under the lock is free of them. */
  lemma {:induction false} RaceHolds(states: seq<Race>, moves: seq<Move>, i: nat)
    requires Trace(states, moves) && i < |states|
    ensures RaceOk(states[i], RevivedBy(states, moves, i))
  {
    if i > 0 {
      RaceHolds(states, moves, i - 1);
      MoveWidens(states[i - 1], moves[i - 1], RevivedBy(states, moves, i - 1));
    }
  }

  /** Every late confirmation among the first n moves fits. */
  ghost predicate Fitting(states: seq<Race>, moves: seq<Move>, n: nat)
    requires Trace(states, moves) && n <= |moves|
  {
    forall k :: 0 <= k < n ==> FitsIn(states[k], moves[k], {})
  }

  /** So long as every late confirmation fits, that is so of all bookings. */
  lemma {:induction false} FittingRaceHolds(states: seq<Race>, moves: seq<Move>, i: nat)
    requires Trace(states, moves) && i < |states| && Fitting(states, moves, i)
    ensures RaceOk(states[i], {})
  {
    if i > 0 {
      FittingRaceHolds(states, moves, i - 1);
      MoveKeeps(states[i - 1], moves[i - 1], {});
    }
  }

  // ---- replies -----------------------------------------------------------------------------------------------------

  lemma SomeAnswer(bookings: map<Id, Booking>, q: BookingRequest, client: Id) returns (own: Option<Id>)
    ensures OwnAnswer(bookings, q, client, own)
  {
    if b :| b in bookings && OwnPending(bookings[b], q, client) {
      own := Some(b);
    } else {
      own := None;
    }
  }

  predicate Finishes(r: Race, r': Race, t: nat) {
    t in r.tasks && t in r'.tasks && (r.tasks[t].Locked? || r.tasks[t].Checking?) && r'.tasks[t].Finished?
  }

  /** The reply, and the table with it, that createBooking gives when it runs alone on the table as it now is. */
  ghost predicate AsIfAlone(r: Race, r': Race, t: nat, id: Id)
    requires Finishes(r, r', t)
  {
    var task := r.tasks[t];
    exists own :: OwnAnswer(r.bookings, task.q, task.client, own)
      && TryBook(r.bookings, task.q, task.client, task.row, r.clock, id, own) == (r'.bookings, r'.tasks[t].reply)
  }

  function NewId(m: Move): Id {
    if m.Insert? then m.id else ""
  }

  /** The client has a pending booking for the request, and all such are unexpired: alone, it could only resume. */
  ghost predicate OnlyResumes(r: Race, q: BookingRequest, client: Id) {
    && (exists b :: b in r.bookings && OwnPending(r.bookings[b], q, client))
    && (forall b :: b in r.bookings && OwnPending(r.bookings[b], q, client) ==> r.clock < r.bookings[b].expiresAt)
  }

  /** No slot of the request is taken. */
  ghost predicate AllFree(r: Race, t: nat)
    requires t in r.tasks && r.tasks[t].Checking?
  {
    forall i :: 0 <= i < r.tasks[t].q.numSlots ==> !Taken(r.bookings, r.tasks[t].q, Starts(r.tasks[t])[i])
  }

  /** A reply is the one createBooking would give alone at that moment, and changes the table just as it would then, if
      and only if no booking to resume has turned up since the client looked, and a client who inserts would still find
      its slots free. */
  lemma ReplyAloneExactly(r: Race, m: Move, t: nat)
    requires Enabled(r, m)
    ensures Finishes(r, Next(r, m), t) ==>
      (AsIfAlone(r, Next(r, m), t, NewId(m))
       <==> (m.Look? || (!OnlyResumes(r, r.tasks[t].q, r.tasks[t].client) && (m.Insert? ==> AllFree(r, t)))))
  {
    if Finishes(r, Next(r, m), t) {
      var task := r.tasks[t];
      if m.Look? {
        assert TryBook(r.bookings, task.q, task.client, task.row, r.clock, "", m.own)
            == (Next(r, m).bookings, Next(r, m).tasks[t].reply);
      } else if OnlyResumes(r, task.q, task.client) {
        ResumesInstead(r, m, t);
      } else if m.Insert? && !AllFree(r, t) {
        RefusesInstead(r, m, t);
      } else {
        var own := LapsedAnswer(r, task.q, task.client);
        RepliesBy(r, m, t, own);
      }
    }
  }

  /** Alone, a client whose slot was taken meanwhile would not insert. */
  lemma RefusesInstead(r: Race, m: Move, t: nat)
    requires Enabled(r, m) && Finishes(r, Next(r, m), t) && m.Insert? && !AllFree(r, t)
    ensures !AsIfAlone(r, Next(r, m), t, NewId(m))
  {
    var task := r.tasks[t];
    var i :| 0 <= i < task.q.numSlots && Taken(r.bookings, task.q, Starts(task)[i]);
    assert Taken(r.bookings, task.q, BookedMinutes(task.q.start, task.row.duration, task.q.numSlots)[i]);
    forall own | OwnAnswer(r.bookings, task.q, task.client, own)
      ensures TryBook(r.bookings, task.q, task.client, task.row, r.clock, NewId(m), own).0 == r.bookings
    {
    }
    assert m.id in Next(r, m).bookings;
  }

  /** Some answer of the lookup that leads past the resume check. */
  lemma LapsedAnswer(r: Race, q: BookingRequest, client: Id) returns (own: Option<Id>)
    requires !OnlyResumes(r, q, client)
    ensures OwnAnswer(r.bookings, q, client, own)
    ensures own.Some? ==> r.bookings[own.value].expiresAt <= r.clock
  {
    if b :| b in r.bookings && OwnPending(r.bookings[b], q, client) && r.bookings[b].expiresAt <= r.clock {
      own := Some(b);
    } else {
      own := SomeAnswer(r.bookings, q, client);
    }
  }

  lemma RepliesBy(r: Race, m: Move, t: nat, own: Option<Id>)
    requires Enabled(r, m) && Finishes(r, Next(r, m), t) && !m.Look? && (m.Insert? ==> AllFree(r, t))
    requires OwnAnswer(r.bookings, r.tasks[t].q, r.tasks[t].client, own)
    requires own.Some? ==> r.bookings[own.value].expiresAt <= r.clock
    ensures AsIfAlone(r, Next(r, m), t, NewId(m))
  {
    var task, r' := r.tasks[t], Next(r, m);
    if m.Insert? {
      assert Starts(task) == BookedMinutes(task.q.start, task.row.duration, task.q.numSlots);
      assert TryBook(r.bookings, task.q, task.client, task.row, r.clock, m.id, own) == (r'.bookings, Done(m.id));
    } else {
      assert TryBook(r.bookings, task.q, task.client, task.row, r.clock, "", own) == (r.bookings, Refused(SLOT_TAKEN));
    }
  }

  lemma ResumesInstead(r: Race, m: Move, t: nat)
    requires Enabled(r, m) && Finishes(r, Next(r, m), t) && !m.Look?
    requires OnlyResumes(r, r.tasks[t].q, r.tasks[t].client)
    ensures !AsIfAlone(r, Next(r, m), t, NewId(m))
  {
    var task, r' := r.tasks[t], Next(r, m);
    forall own | OwnAnswer(r.bookings, task.q, task.client, own)
      ensures TryBook(r.bookings, task.q, task.client, task.row, r.clock, NewId(m), own)
           != (r'.bookings, r'.tasks[t].reply)
    {
      assert own.Some? && own.value in r.bookings && r.clock < r.bookings[own.value].expiresAt;
    }
  }

  // ---- one schedule for each field ---------------------------------------------------------------------------------

  /** `home` gives the one schedule of each field. */
  predicate AtHome(home: Id -> Id, m: Move) {
    m.Arrive? ==> m.q.schedule == home(m.q.field)
  }

  /** What a client saw when it looked for a booking to resume is still so. */
  ghost predicate LookStands(r: Race, t: nat)
    requires t in r.tasks
  {
    var task := r.tasks[t];
    task.Checking? ==>
      && task.seen <= r.clock
      && forall b :: b in r.bookings && OwnPending(r.bookings[b], task.q, task.client) ==>
        r.bookings[b].expiresAt <= task.seen
  }

  ghost predicate LooksStand(home: Id -> Id, r: Race) {
    && (forall b :: b in r.bookings ==> r.bookings[b].schedule == home(r.bookings[b].field))
    && (forall t :: t in r.tasks && !r.tasks[t].Finished? ==> r.tasks[t].q.schedule == home(r.tasks[t].q.field))
    && (forall t :: t in r.tasks ==> LookStands(r, t))
  }

  lemma LookFinds(home: Id -> Id, r: Race, t: nat, own: Option<Id>, but: set<Id>)
    requires RaceOk(r, but) && Enabled(r, Look(t, own)) && LooksStand(home, r)
    ensures LooksStand(home, Next(r, Look(t, own)))
  {
    var task := r.tasks[t];
    if own.None? || r.bookings[own.value].expiresAt <= r.clock {
      forall b | b in r.bookings && OwnPending(r.bookings[b], task.q, task.client)
        ensures r.bookings[b].expiresAt <= r.clock
      {
        if own != Some(b) {
          LiveStartsDistinct(r.bookings, but, own.value, b);
        }
      }
    }
    var r' := Next(r, Look(t, own));
    forall u | u in r'.tasks && u != t
      ensures LookStands(r', u)
    {
      assert LookStands(r, u);
    }
  }

  lemma InsertHides(home: Id -> Id, r: Race, t: nat, id: Id, but: set<Id>)
    requires RaceOk(r, but) && Enabled(r, Insert(t, id)) && LooksStand(home, r)
    ensures LooksStand(home, Next(r, Insert(t, id)))
  {
    var r' := Next(r, Insert(t, id));
    assert TaskOk(r, t, but);
    forall u | u in r'.tasks && r'.tasks[u].Checking?
      ensures LookStands(r', u)
    {
      assert TaskOk(r, u, but) && LookStands(r, u);
      assert r'.bookings[id].schedule != r.tasks[u].q.schedule;
    }
  }

  lemma LooksStay(home: Id -> Id, r: Race, m: Move, but: set<Id>)
    requires RaceOk(r, but) && Enabled(r, m) && AtHome(home, m) && LooksStand(home, r)
    ensures LooksStand(home, Next(r, m))
  {
    match m
    case Look(t, own) => LookFinds(home, r, t, own, but);
    case Insert(t, id) => InsertHides(home, r, t, id, but);
    case Change(_, _, _) => ChangeLeavesLooks(home, r, m);
    case _ => QuietLooks(home, r, m);
  }

  lemma ChangeLeavesLooks(home: Id -> Id, r: Race, m: Move)
    requires m.Change? && Enabled(r, m) && LooksStand(home, r)
    ensures LooksStand(home, Next(r, m))
  {
    var r' := Next(r, m);
    forall u | u in r'.tasks
      ensures LookStands(r', u)
    {
      assert LookStands(r, u);
    }
  }

  lemma QuietLooks(home: Id -> Id, r: Race, m: Move)
    requires Enabled(r, m) && AtHome(home, m) && LooksStand(home, r)
    requires m.Arrive? || m.Lock? || m.CheckSlot? || m.Tick?
    ensures LooksStand(home, Next(r, m))
  {
    var r' := Next(r, m);
    forall u | u in r'.tasks
      ensures LookStands(r', u)
    {
      assert u in r.tasks ==> LookStands(r, u);
    }
  }

  lemma {:induction false} LooksAlwaysStand(home: Id -> Id, states: seq<Race>, moves: seq<Move>, i: nat)
    requires Trace(states, moves) && i < |states|
    requires forall k :: 0 <= k < |moves| ==> AtHome(home, moves[k])
    ensures LooksStand(home, states[i])
  {
    if i > 0 {
      LooksAlwaysStand(home, states, moves, i - 1);
      RaceHolds(states, moves, i - 1);
      LooksStay(home, states[i - 1], moves[i - 1], RevivedBy(states, moves, i - 1));
    }
  }

  /** Where each field has one schedule, over every run, whatever other handlers do: a reply is the one createBooking
      would give alone at that moment, and the table changes just as it would then, unless a client inserts although a
      slot of its was taken after it was checked; and only a replying client, or a change of status, writes to the
      table. */
  lemma RepliesAsIfAlone(home: Id -> Id, states: seq<Race>, moves: seq<Move>, i: nat)
    requires Trace(states, moves) && i < |moves|
    requires forall k :: 0 <= k < |moves| ==> AtHome(home, moves[k])
    ensures
      var (r, r', m) := (states[i], states[i + 1], moves[i]);
      && (forall t :: Finishes(r, r', t) ==> (AsIfAlone(r, r', t, NewId(m)) <==> (m.Insert? ==> AllFree(r, t))))
      && (r'.bookings != r.bookings ==> m.Change? || exists t :: Finishes(r, r', t))
  {
    var (r, r', m) := (states[i], states[i + 1], moves[i]);
    LooksAlwaysStand(home, states, moves, i);
    forall t | Finishes(r, r', t)
      ensures AsIfAlone(r, r', t, NewId(m)) <==> (m.Insert? ==> AllFree(r, t))
    {
      assert LookStands(r, t);
      ReplyAloneExactly(r, m, t);
    }
    if m.Insert? {
      assert Finishes(r, r', m.t);
    }
  }

  /** So long as every late confirmation fits, there createBooking is atomic. */
  lemma FittingRepliesAlone(home: Id -> Id, states: seq<Race>, moves: seq<Move>, i: nat, t: nat)
    requires Trace(states, moves) && i < |moves| && Fitting(states, moves, i)
    requires forall k :: 0 <= k < |moves| ==> AtHome(home, moves[k])
    requires Finishes(states[i], states[i + 1], t)
    ensures AsIfAlone(states[i], states[i + 1], t, NewId(moves[i]))
  {
    var (r, m) := (states[i], moves[i]);
    RepliesAsIfAlone(home, states, moves, i);
    FittingRaceHolds(states, moves, i);
    if m.Insert? {
      CheckedFree(r, t);
    }
  }

  lemma CheckedFree(r: Race, t: nat)
    requires TasksOk(r, {}) && t in r.tasks && r.tasks[t].Checking? && r.tasks[t].done == r.tasks[t].q.numSlots
    ensures AllFree(r, t)
  {
    assert TaskOk(r, t, {});
    assert forall x :: Taken(r.bookings, r.tasks[t].q, x) ==> TakenBut(r.bookings, r.tasks[t].q, x, {});
  }
}
