/** Two interleavings with createBooking in which a client gets a reply it would not have got alone: on two schedules of
    one field, and when another handler confirms an expired booking late. */
module RaceRuns {
  import opened Wrappers
  import opened SlotTime
  import opened Ledger
  import opened BookingModel
  import opened SlotHolds
  import opened BookingRace

  ghost predicate Steps(r: Race, m: Move, r': Race) {
    Enabled(r, m) && r' == Next(r, m)
  }

  lemma OneMoveMore(states: seq<Race>, moves: seq<Move>, n: nat, r: Race)
    requires n < |moves| && Trace(states, moves[..n]) && Steps(states[n], moves[n], r)
    ensures Trace(states + [r], moves[..n + 1])
  {
    var longer := states + [r];
    forall i | 0 <= i < n + 1
      ensures Enabled(longer[i], moves[..n + 1][i]) && longer[i + 1] == Next(longer[i], moves[..n + 1][i])
    {
      if i < n {
        assert moves[..n][i] == moves[i] && longer[i] == states[i] && longer[i + 1] == states[i + 1];
      }
    }
  }

  /** States with a step between each and the next. */
  lemma {:induction false} StepsTrace(ss: seq<Race>, moves: seq<Move>, n: nat)
    requires |ss| == |moves| + 1 && ss[0] == START && n <= |moves|
    requires forall i :: 0 <= i < |moves| ==> Steps(ss[i], moves[i], ss[i + 1])
    ensures Trace(ss[..n + 1], moves[..n])
  {
    if n > 0 {
      StepsTrace(ss, moves, n - 1);
      OneMoveMore(ss[..n], moves, n - 1, ss[n]);
      assert ss[..n] + [ss[n]] == ss[..n + 1];
    }
  }

  // ---- two schedules of one field ----------------------------------------------------------------------------------

  const MORNING := BookingRequest("field", "morning", "2026-01-01", 600, 1)
  const ALL_DAY := BookingRequest("field", "all day", "2026-01-01", 600, 1)
  const ROW := ScheduleRow(60, 1000, None)

  /** One client asks for the same time on two schedules of one field at once. */
  function TwoTabs(): seq<Move> {
    [Arrive(1, MORNING, "alice"), Arrive(2, ALL_DAY, "alice"), Lock(1, ROW), Look(1, None), Lock(2, ROW), Look(2, None),
     CheckSlot(2), Insert(2, "B"), CheckSlot(1), Insert(1, "A")]
  }

  /** After both clients have looked. */
  const LOOKED := START.(
    locks := map["morning" := 1, "all day" := 2],
    tasks := map[1 := Checking(MORNING, "alice", ROW, 0, 0), 2 := Checking(ALL_DAY, "alice", ROW, 0, 0)])

  lemma FirstLooks() returns (s1: Race, s2: Race, s3: Race, s4: Race)
    ensures Steps(START, TwoTabs()[0], s1) && Steps(s1, TwoTabs()[1], s2) && Steps(s2, TwoTabs()[2], s3)
    ensures Steps(s3, TwoTabs()[3], s4)
    ensures s4 == START.(
      locks := map["morning" := 1],
      tasks := map[1 := Checking(MORNING, "alice", ROW, 0, 0), 2 := Waiting(ALL_DAY, "alice")])
  {
    s1 := START.(tasks := map[1 := Waiting(MORNING, "alice")]);
    s2 := s1.(tasks := map[1 := Waiting(MORNING, "alice"), 2 := Waiting(ALL_DAY, "alice")]);
    s3 := s2.(locks := map["morning" := 1], tasks := s2.tasks[1 := Locked(MORNING, "alice", ROW)]);
    s4 := s3.(tasks := s3.tasks[1 := Checking(MORNING, "alice", ROW, 0, 0)]);
  }

  lemma SecondLooks(s4: Race) returns (s5: Race)
    requires s4 == START.(
      locks := map["morning" := 1],
      tasks := map[1 := Checking(MORNING, "alice", ROW, 0, 0), 2 := Waiting(ALL_DAY, "alice")])
    ensures Steps(s4, TwoTabs()[4], s5) && Steps(s5, TwoTabs()[5], LOOKED)
  {
    s5 := s4.(locks := s4.locks["all day" := 2], tasks := s4.tasks[2 := Locked(ALL_DAY, "alice", ROW)]);
  }

  lemma SecondBooks() returns (s7: Race, s8: Race)
    ensures Steps(LOOKED, TwoTabs()[6], s7) && Steps(s7, TwoTabs()[7], s8)
    ensures s8.bookings == map["B" := Priced(ALL_DAY, "alice", ROW, 0, 0)] && s8.clock == 0
    ensures 1 in s8.tasks && s8.tasks[1] == Checking(MORNING, "alice", ROW, 0, 0)
  {
    s7 := SecondChecks();
    s8 := SecondInserts(s7);
  }

  lemma SecondChecks() returns (s7: Race)
    ensures Steps(LOOKED, TwoTabs()[6], s7)
    ensures s7 == LOOKED.(tasks := LOOKED.tasks[2 := Checking(ALL_DAY, "alice", ROW, 1, 0)])
  {
    assert LOOKED.tasks[2] == Checking(ALL_DAY, "alice", ROW, 0, 0);
    s7 := Next(LOOKED, CheckSlot(2));
  }

  lemma SecondInserts(s7: Race) returns (s8: Race)
    requires s7 == LOOKED.(tasks := LOOKED.tasks[2 := Checking(ALL_DAY, "alice", ROW, 1, 0)])
    ensures Steps(s7, TwoTabs()[7], s8)
    ensures s8.bookings == map["B" := Priced(ALL_DAY, "alice", ROW, 0, 0)] && s8.clock == 0
    ensures 1 in s8.tasks && s8.tasks[1] == Checking(MORNING, "alice", ROW, 0, 0)
  {
    assert |s7.bookings| == 0;
    s8 := Next(s7, Insert(2, "B"));
  }

  lemma FirstBooks(s8: Race) returns (s9: Race, s10: Race)
    requires s8.bookings == map["B" := Priced(ALL_DAY, "alice", ROW, 0, 0)] && s8.clock == 0
    requires 1 in s8.tasks && s8.tasks[1] == Checking(MORNING, "alice", ROW, 0, 0)
    ensures Steps(s8, TwoTabs()[8], s9) && Steps(s9, TwoTabs()[9], s10)
    ensures s9.bookings == s8.bookings && s9.clock == 0
    ensures 1 in s9.tasks && s9.tasks[1] == Checking(MORNING, "alice", ROW, 1, 0)
    ensures
      var bs := s10.bookings;
      "A" in bs && "B" in bs && OwnPending(bs["A"], MORNING, "alice") && OwnPending(bs["B"], MORNING, "alice")
  {
    s9 := s8.(tasks := s8.tasks[1 := Checking(MORNING, "alice", ROW, 1, 0)]);
    s10 := Next(s9, Insert(1, "A"));
  }

  lemma NotAlone(s9: Race, s10: Race)
    requires "B" in s9.bookings && s9.bookings["B"] == Priced(ALL_DAY, "alice", ROW, 0, 0) && s9.bookings.Keys == {"B"}
    requires s9.clock == 0 && 1 in s9.tasks && s9.tasks[1] == Checking(MORNING, "alice", ROW, 1, 0)
    requires Steps(s9, Insert(1, "A"), s10)
    ensures Finishes(s9, s10, 1) && !AsIfAlone(s9, s10, 1, "A")
  {
    assert OwnPending(s9.bookings["B"], MORNING, "alice");
    ResumesInstead(s9, Insert(1, "A"), 1);
  }

  lemma TwoTabsStates() returns (ss: seq<Race>)
    ensures |ss| == 11 && ss[0] == START
    ensures forall i :: 0 <= i < 10 ==> Steps(ss[i], TwoTabs()[i], ss[i + 1])
    ensures ss[9].bookings == map["B" := Priced(ALL_DAY, "alice", ROW, 0, 0)] && ss[9].clock == 0
    ensures 1 in ss[9].tasks && ss[9].tasks[1] == Checking(MORNING, "alice", ROW, 1, 0)
    ensures
      var bs := ss[10].bookings;
      "A" in bs && "B" in bs && OwnPending(bs["A"], MORNING, "alice") && OwnPending(bs["B"], MORNING, "alice")
  {
    var s1, s2, s3, s4 := FirstLooks();
    var s5 := SecondLooks(s4);
    var s7, s8 := SecondBooks();
    var s9, s10 := FirstBooks(s8);
    ss := [START, s1, s2, s3, s4, s5, LOOKED, s7, s8, s9, s10];
  }

  /** Both bookings are inserted: the second reply is not what createBooking would have given alone, and the client has
      two pending bookings for one request. */
  lemma TwoTabsBookTwice() returns (states: seq<Race>)
    ensures Trace(states, TwoTabs())
    ensures Finishes(states[9], states[10], 1) && !AsIfAlone(states[9], states[10], 1, "A")
    ensures
      var bs := states[10].bookings;
      "A" in bs && "B" in bs && OwnPending(bs["A"], MORNING, "alice") && OwnPending(bs["B"], MORNING, "alice")
  {
    states := TwoTabsStates();
    StepsTrace(states, TwoTabs(), 10);
    assert states[..11] == states && TwoTabs()[..10] == TwoTabs();
    NotAlone(states[9], states[10]);
  }

  // ---- a late confirmation -----------------------------------------------------------------------------------------

  function AliceMoves(): seq<Move> {
    [Arrive(1, MORNING, "alice"), Lock(1, ROW), Look(1, None), CheckSlot(1), Insert(1, "A"), Change("A", EXPIRED, 0)]
  }

  function BobMoves(): seq<Move> {
    [Arrive(2, MORNING, "bob"), Lock(2, ROW), Look(2, None), CheckSlot(2), Change("A", CONFIRMED, 1), Insert(2, "B")]
  }

  /** Alice's booking expires unpaid. Bob asks for the slot and finds it free; then Alice's payment is reported and her
      booking confirmed; then Bob's booking is inserted. */
  function Revival(): seq<Move> {
    AliceMoves() + BobMoves()
  }

  /** A client finds the one slot of the request free. */
  lemma FindsFree(r: Race, t: nat, client: Id) returns (s1: Race, s2: Race, s3: Race, s4: Race)
    requires r.locks == map[] && t !in r.tasks && !Taken(r.bookings, MORNING, 600)
    requires forall b :: b in r.bookings ==> !OwnPending(r.bookings[b], MORNING, client)
    ensures Steps(r, Arrive(t, MORNING, client), s1) && Steps(s1, Lock(t, ROW), s2) && Steps(s2, Look(t, None), s3)
    ensures Steps(s3, CheckSlot(t), s4)
    ensures s4 == r.(locks := map["morning" := t], tasks := r.tasks[t := Checking(MORNING, client, ROW, 1, r.clock)])
  {
    s1 := r.(tasks := r.tasks[t := Waiting(MORNING, client)]);
    s2 := r.(locks := map["morning" := t], tasks := r.tasks[t := Locked(MORNING, client, ROW)]);
    s3 := r.(locks := map["morning" := t], tasks := r.tasks[t := Checking(MORNING, client, ROW, 0, r.clock)]);
    s4 := r.(locks := map["morning" := t], tasks := r.tasks[t := Checking(MORNING, client, ROW, 1, r.clock)]);
    assert s2.tasks == s1.tasks[t := Locked(MORNING, client, ROW)];
    assert s3.tasks == s2.tasks[t := Checking(MORNING, client, ROW, 0, r.clock)];
    assert s4.tasks == s3.tasks[t := Checking(MORNING, client, ROW, 1, r.clock)];
    assert Starts(s3.tasks[t])[0] == 600;
  }

  function Alices(status: BookingStatus, stamp: nat): Booking {
    Priced(MORNING, "alice", ROW, 0, 0).(status := status, confirmed := stamp)
  }

  lemma AliceLapses(s4: Race) returns (s5: Race, s6: Race)
    requires s4 == START.(locks := map["morning" := 1], tasks := map[1 := Checking(MORNING, "alice", ROW, 1, 0)])
    ensures Steps(s4, Insert(1, "A"), s5) && Steps(s5, Change("A", EXPIRED, 0), s6)
    ensures s6 == Race(map["A" := Alices(EXPIRED, 0)], map[], map[1 := Finished(Done("A"))], 0)
  {
    assert |s4.bookings| == 0;
    s5 := Race(map["A" := Alices(PENDING_PAYMENT, 0)], map[], map[1 := Finished(Done("A"))], 0);
    assert s5 == Next(s4, Insert(1, "A"));
    s6 := Next(s5, Change("A", EXPIRED, 0));
  }

  lemma AliceRevived(s10: Race) returns (s11: Race)
    requires s10.bookings == map["A" := Alices(EXPIRED, 0)]
    requires 2 in s10.tasks && s10.tasks[2] == Checking(MORNING, "bob", ROW, 1, 0)
    ensures Steps(s10, Change("A", CONFIRMED, 1), s11) && !FitsIn(s10, Change("A", CONFIRMED, 1), {})
    ensures s11 == s10.(bookings := map["A" := Alices(CONFIRMED, 1)])
  {
    s11 := Next(s10, Change("A", CONFIRMED, 1));
    assert Starts(s10.tasks[2])[0] == 600;
    assert Checked(s10, "A", 2);
  }

  lemma BobInserts(s11: Race) returns (s12: Race)
    requires s11.bookings == map["A" := Alices(CONFIRMED, 1)] && s11.clock == 0
    requires 2 in s11.tasks && s11.tasks[2] == Checking(MORNING, "bob", ROW, 1, 0)
    ensures Steps(s11, Insert(2, "B"), s12) && Finishes(s11, s12, 2) && Breach(s12.bookings, "A", "B")
  {
    assert |s11.bookings| == 1;
    s12 := Next(s11, Insert(2, "B"));
    assert s12.bookings["B"] == Priced(MORNING, "bob", ROW, 0, 1) && s12.bookings["A"] == Alices(CONFIRMED, 1);
    StartHeld();
  }

  lemma StartHeld()
    ensures MORNING.start in Priced(MORNING, "bob", ROW, 0, 1).held
  {
    assert BookedMinutes(600, 60, 1)[0] == 600;
  }

  lemma BobNotAlone(s11: Race, s12: Race)
    requires s11.bookings == map["A" := Alices(CONFIRMED, 1)] && 2 in s11.tasks
    requires s11.tasks[2] == Checking(MORNING, "bob", ROW, 1, 0) && Steps(s11, Insert(2, "B"), s12)
    requires Finishes(s11, s12, 2)
    ensures !AsIfAlone(s11, s12, 2, "B")
  {
    assert Holds(s11.bookings["A"], MORNING, 600) && Starts(s11.tasks[2])[0] == 600;
    ReplyAloneExactly(s11, Insert(2, "B"), 2);
  }

  lemma FirstHalf() returns (ss: seq<Race>)
    ensures |ss| == 7 && ss[0] == START && forall i :: 0 <= i < 6 ==> Steps(ss[i], AliceMoves()[i], ss[i + 1])
    ensures ss[6] == Race(map["A" := Alices(EXPIRED, 0)], map[], map[1 := Finished(Done("A"))], 0)
  {
    var s1, s2, s3, s4 := FindsFree(START, 1, "alice");
    var s5, s6 := AliceLapses(s4);
    ss := [START, s1, s2, s3, s4, s5, s6];
  }

  lemma SecondHalf(s6: Race) returns (ss: seq<Race>)
    requires s6 == Race(map["A" := Alices(EXPIRED, 0)], map[], map[1 := Finished(Done("A"))], 0)
    ensures |ss| == 7 && ss[0] == s6 && forall i :: 0 <= i < 6 ==> Steps(ss[i], BobMoves()[i], ss[i + 1])
    ensures Steps(ss[4], BobMoves()[4], ss[5]) && !FitsIn(ss[4], BobMoves()[4], {})
    ensures Finishes(ss[5], ss[6], 2) && Breach(ss[6].bookings, "A", "B")
    ensures ss[5].bookings == map["A" := Alices(CONFIRMED, 1)] && 2 in ss[5].tasks
    ensures ss[5].tasks[2] == Checking(MORNING, "bob", ROW, 1, 0)
  {
    assert !Taken(s6.bookings, MORNING, 600);
    var s7, s8, s9, s10 := FindsFree(s6, 2, "bob");
    var s11 := AliceRevived(s10);
    var s12 := BobInserts(s11);
    ss := [s6, s7, s8, s9, s10, s11, s12];
  }

  lemma Join(m: seq<Move>, n: seq<Move>, a: seq<Race>, b: seq<Race>) returns (ss: seq<Race>)
    requires |m| == 6 && |n| == 6 && |a| == 7 && |b| == 7 && a[6] == b[0]
    requires forall i :: 0 <= i < 6 ==> Steps(a[i], m[i], a[i + 1])
    requires forall i :: 0 <= i < 6 ==> Steps(b[i], n[i], b[i + 1])
    ensures |ss| == 13 && ss[0] == a[0] && forall i :: 6 <= i < 13 ==> ss[i] == b[i - 6]
    ensures forall i :: 0 <= i < 12 ==> Steps(ss[i], (m + n)[i], ss[i + 1])
  {
    ss := a + b[1..];
    forall i | 0 <= i < 12
      ensures Steps(ss[i], (m + n)[i], ss[i + 1])
    {
      if i >= 6 {
        assert Steps(b[i - 6], n[i - 6], b[i - 6 + 1]);
      } else {
        assert Steps(a[i], m[i], a[i + 1]);
      }
    }
  }

  /** Both bookings are live and start together: Bob's reply is not what createBooking would have given alone. */
  lemma LateConfirmationDoubleBooks() returns (states: seq<Race>)
    ensures Trace(states, Revival()) && !FitsIn(states[10], Revival()[10], {})
    ensures Breach(states[12].bookings, "A", "B")
    ensures Finishes(states[11], states[12], 2) && !AsIfAlone(states[11], states[12], 2, "B")
  {
    var first := FirstHalf();
    var second := SecondHalf(first[6]);
    states := Join(AliceMoves(), BobMoves(), first, second);
    assert Revival()[10] == BobMoves()[4] && Revival()[11] == BobMoves()[5];
    StepsTrace(states, Revival(), 12);
    assert states[..13] == states && Revival()[..12] == Revival();
    BobNotAlone(states[11], states[12]);
  }
}
