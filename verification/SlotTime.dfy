/** HH:MM clock texts, and the slot starts of a booking: the ones createBooking checks, and the ones getSlotStarts
    rebuilds from the stored start, end and count. */
module SlotTime {
  import opened Digits

  const DAY := 1440

  /** The shape the request DTOs demand: two digits below 24, a colon, two digits below 60. */
  predicate IsClock(s: string) {
    && |s| == 5 && s[2] == ':'
    && AllDigits(s[..2]) && AllDigits(s[3..])
    && Value(s[..2]) < 24 && Value(s[3..]) < 60
  }

  /** `timeToMinutes` */
  function TimeToMinutes(time: string): (m: nat)
    requires IsClock(time)
    ensures m < DAY
  {
    Value(time[..2]) * 60 + Value(time[3..])
  }

  /** `minutesToTime` */
  function MinutesToTime(m: nat): string {
    PadStart(Decimal(m / 60), 2) + ":" + PadStart(Decimal(m % 60), 2)
  }

  /** Printing a minute of the day and reading it back gives the minute. */
  lemma PrintThenParse(m: nat)
    requires m < DAY
    ensures IsClock(MinutesToTime(m)) && TimeToMinutes(MinutesToTime(m)) == m
  {
    var h, n := PadStart(Decimal(m / 60), 2), PadStart(Decimal(m % 60), 2);
    assert Power10(2) == 10 * Power10(1) == 100;
    PaddedWidth(m / 60, 2);
    PaddedWidth(m % 60, 2);
    PaddedRoundTrip(m / 60, 2);
    PaddedRoundTrip(m % 60, 2);
    var s := MinutesToTime(m);
    assert s[..2] == h && s[3..] == n;
  }

  /** Reading a clock text and printing it back gives the text. */
  lemma ParseThenPrint(s: string)
    requires IsClock(s)
    ensures MinutesToTime(TimeToMinutes(s)) == s
  {
    var h, n := Value(s[..2]), Value(s[3..]);
    PrintsBack(s[..2]);
    PrintsBack(s[3..]);
    DivMod(TimeToMinutes(s), 60, h, n);
    assert s == s[..2] + ":" + s[3..];
  }

  lemma SameMinutes(a: nat, b: nat)
    requires a < DAY && b < DAY
    ensures MinutesToTime(a) == MinutesToTime(b) <==> a == b
  {
    PrintThenParse(a);
    PrintThenParse(b);
  }

  /** `addMinutes` of both services, for a whole number of minutes. */
  function AddMinutes(time: string, minutes: nat): (r: string)
    requires IsClock(time)
    ensures IsClock(r) && TimeToMinutes(r) == (TimeToMinutes(time) + minutes) % DAY
    ensures minutes == 0 ==> r == time
  {
    var m := OnClock(TimeToMinutes(time) + minutes);
    ParseThenPrint(time);
    PrintThenParse(m);
    MinutesToTime(m)
  }

  /** The minute of the day that t minutes from midnight come to. */
  function OnClock(t: nat): (m: nat)
    ensures m < DAY && (t < DAY ==> m == t)
  {
    t % DAY
  }


  /** What `addMinutes` prints: a minute of the day, and whether it is a whole minute. When it is not, JavaScript
      prints a decimal point after the minutes, and the text is no clock text; the digits after the point are not
      modelled. */
  datatype Mark = Mark(minute: nat, whole: bool)

  function PrintMark(m: Mark): string {
    MinutesToTime(m.minute) + if m.whole then "" else "."
  }

  lemma MarkText(m: Mark, n: nat)
    requires m.minute < DAY && n < DAY
    ensures PrintMark(m) == MinutesToTime(n) <==> m == Mark(n, true)
  {
    SameMinutes(m.minute, n);
    PrintThenParse(m.minute);
    PrintThenParse(n);
  }

  /** The starts createBooking checks: one every `duration` minutes. */
  function BookedStarts(start: string, duration: nat, count: nat): seq<string>
    requires IsClock(start)
  {
    seq(count, i requires 0 <= i => AddMinutes(start, i * duration))
  }

  function SlotEnd(start: string, duration: nat, count: nat): (r: string)
    requires IsClock(start)
    ensures IsClock(r)
  {
    AddMinutes(start, duration * count)
  }

  /** Minutes from start to end, a range that ends where it began counting as a whole day. */
  function RangeMinutes(start: string, end: string): (t: nat)
    requires IsClock(start) && IsClock(end)
    ensures 1 <= t <= DAY
  {
    var t := TimeToMinutes(end) - TimeToMinutes(start);
    if t <= 0 then t + DAY else t
  }

  /** The starts getSlotStarts rebuilds: the range cut in `count` equal parts. */
  function SlotStarts(start: string, end: string, count: nat): seq<string>
    requires IsClock(start) && IsClock(end)
  {
    if count <= 1 then [start] else CutRange(start, RangeMinutes(start, end), count)
  }

  function CutRange(start: string, range: nat, count: nat): (starts: seq<string>)
    requires IsClock(start) && count >= 1
    ensures |starts| == count
  {
    seq(count, i requires 0 <= i => PrintMark(CutMark(TimeToMinutes(start), range, count, i)))
  }

  /** `addMinutes(t, i * (range / count))` over exact rationals. */
  function CutMark(t: nat, range: nat, count: nat, i: nat): (m: Mark)
    requires count >= 1
    ensures m.minute < DAY
  {
    Mark((t * count + i * range) / count % DAY, (t * count + i * range) % count == 0)
  }

  lemma FirstMark(t: nat, range: nat, count: nat)
    requires count >= 1 && t < DAY
    ensures CutMark(t, range, count, 0) == Mark(t, true)
  {
    DivMod(t * count + 0 * range, count, t, 0);
  }

  // ---- loops of the source -------------------------------------------------------------------------------------

  /** The loop of createBooking. */
  method CollectBookedStarts(start: string, duration: nat, count: nat) returns (starts: seq<string>)
    requires IsClock(start)
    ensures starts == BookedStarts(start, duration, count)
  {
    starts := [];
    for i := 0 to count
      invariant |starts| == i
      invariant forall k :: 0 <= k < i ==> starts[k] == AddMinutes(start, k * duration)
    {
      starts := starts + [AddMinutes(start, i * duration)];
    }
  }

  /** The loop of getSlotStarts. */
  method GetSlotStarts(start: string, end: string, count: nat) returns (starts: seq<string>)
    requires IsClock(start) && IsClock(end)
    ensures starts == SlotStarts(start, end, count)
  {
    if count <= 1 {
      return [start];
    }
    var totalMin := TimeToMinutes(end) - TimeToMinutes(start);
    if totalMin <= 0 {
      totalMin := totalMin + DAY;
    }
    assert totalMin == RangeMinutes(start, end);
    starts := [];
    for i := 0 to count
      invariant |starts| == i
      invariant forall k :: 0 <= k < i ==> starts[k] == PrintMark(CutMark(TimeToMinutes(start), totalMin, count, k))
    {
      starts := starts + [PrintMark(CutMark(TimeToMinutes(start), totalMin, count, i))];
    }
    assert starts == CutRange(start, totalMin, count);
  }

  // ---- recovering the checked starts ---------------------------------------------------------------------------

  lemma MulGrows(k: int, n: int)
    requires k >= 1 && n >= 0
    ensures k * n >= n && (-k) * n <= -n
  {
    assert k * n == n + (k - 1) * n;
    assert (-k) * n == -(k * n);
  }

  lemma DivMod(x: int, n: int, q: int, r: int)
    requires n >= 1 && 0 <= r < n && x == q * n + r
    ensures x / n == q && x % n == r
  {
    var d := x / n - q;
    assert d * n == r - x % n by {
      assert x == x / n * n + x % n;
      assert d * n == x / n * n - q * n;
    }
    if d >= 1 {
      MulGrows(d, n);
    }
    if d <= -1 {
      MulGrows(-d, n);
    }
  }

  /** The slot length as a clock sees it, in 1..1440. */
  function ClockLength(duration: nat): (d: nat)
    requires duration >= 1
    ensures 1 <= d <= DAY
  {
    (duration - 1) % DAY + 1
  }

  lemma WholeDays(duration: nat) returns (k: nat)
    requires duration >= 1
    ensures duration == ClockLength(duration) + k * DAY
  {
    k := (duration - 1) / DAY;
  }

  /** The range of `count` slots is their clock length times the count, less whole days. */
  lemma RangeOfSlots(start: string, duration: nat, count: nat)
    requires IsClock(start) && duration >= 1 && count >= 1
    ensures count * ClockLength(duration) >= 1
    ensures RangeMinutes(start, SlotEnd(start, duration, count)) == ClockLength(count * ClockLength(duration))
  {
    var d := ClockLength(duration);
    var k := WholeDays(duration);
    MulGrows(count, d);
    assert duration * count == count * d + (count * k) * DAY;
    RangeModDay(TimeToMinutes(start), duration * count, count * d, count * k);
  }

  lemma RangeModDay(t: nat, x: nat, y: nat, k: nat)
    requires t < DAY && x == y + k * DAY && y >= 1
    ensures var end := (t + x) % DAY; ClockLength(y) == if end - t <= 0 then end - t + DAY else end - t
  {
    assert (t + x) % DAY == (t + y) % DAY;
  }

  /** On minutes: the i-th cut of the range is the i-th slot for every i exactly when the slots fit in a day. */
  lemma Regroup(t: nat, count: nat, i: nat, d: nat)
    ensures t * count + i * (count * d) == (t + i * d) * count
  {
  }

  lemma WholeSteps(i: nat, d: nat, k: nat)
    ensures i * (d + k * DAY) == i * d + (i * k) * DAY
  {
    assert i * (k * DAY) == (i * k) * DAY;
  }

  lemma CutsAreSlots(t: nat, duration: nat, count: nat, i: nat)
    requires t < DAY && duration >= 1 && 1 <= count && count * ClockLength(duration) <= DAY
    ensures CutMark(t, count * ClockLength(duration), count, i) == Mark((t + i * duration) % DAY, true)
  {
    var d := ClockLength(duration);
    var k := WholeDays(duration);
    var steps := i * d;
    Regroup(t, count, i, d);
    DivMod(t * count + i * (count * d), count, t + steps, 0);
    WholeSteps(i, d, k);
    assert (t + i * duration) % DAY == (t + steps) % DAY by { SameModDay(t + i * duration, t + steps, i * k); }
  }

  lemma SameModDay(x: int, y: int, k: int)
    requires x == y + k * DAY
    ensures x % DAY == y % DAY
  {
  }

  lemma ShorterCut(t: nat, q: nat, d: nat)
    requires 1 <= q < d <= DAY
    ensures (t + q) % DAY != (t + d) % DAY
  {
  }

  lemma ProductOrder(n: nat, a: nat, b: nat)
    requires a * n < b * n
    ensures a < b
  {
    if a >= b {
      MulOrder(n, b, a);
    }
  }

  lemma SecondCutDiffers(t: nat, duration: nat, count: nat, range: nat)
    requires t < DAY && duration >= 1 && count >= 2 && 1 <= range < count * ClockLength(duration) && range <= DAY
    ensures CutMark(t, range, count, 1) != Mark((t + 1 * duration) % DAY, true)
  {
    var d := ClockLength(duration);
    var k := WholeDays(duration);
    var q, r := range / count, range % count;
    assert range == q * count + r;
    DivMod(t * count + range, count, t + q, r);
    assert CutMark(t, range, count, 1) == Mark((t + q) % DAY, r == 0);
    if r == 0 {
      ProductOrder(count, q, d);
      ShorterCut(t, q, d);
      SameModDay(t + duration, t + d, k);
    }
  }

  lemma MulOrder(n: nat, a: nat, b: nat)
    requires a <= b
    ensures n * a <= n * b
  {
    assert n * b == n * a + n * (b - a);
  }

  /** getSlotStarts rebuilds exactly the starts createBooking checked, if and only if the booking has one slot or
      its slots, as the clock sees them, fit in one day. */
  lemma RecoversBookedStarts(start: string, duration: nat, count: nat)
    requires IsClock(start) && duration >= 1 && count >= 1
    ensures SlotStarts(start, SlotEnd(start, duration, count), count) == BookedStarts(start, duration, count)
      <==> count == 1 || count * ClockLength(duration) <= DAY
  {
    if count == 1 {
      OneStart(start, duration);
    } else {
      RangeOfSlots(start, duration, count);
      CutsDecide(start, duration, count, count * ClockLength(duration));
    }
  }

  /** Eight slots of four hours are one input, at any start: 480 minutes are left of the range, and the second start
      rebuilt is one hour on, where the second one checked was four. */
  lemma EightLongSlots(start: string)
    requires IsClock(start)
    ensures SlotStarts(start, SlotEnd(start, 240, 8), 8) != BookedStarts(start, 240, 8)
    ensures RangeMinutes(start, SlotEnd(start, 240, 8)) == 480
    ensures CutMark(TimeToMinutes(start), 480, 8, 1) == Mark((TimeToMinutes(start) + 60) % DAY, true)
  {
    ClockLengths();
    RecoversBookedStarts(start, 240, 8);
    RangeOfSlots(start, 240, 8);
    EighthOf480(TimeToMinutes(start));
  }

  lemma ClockLengths()
    ensures ClockLength(240) == 240 && 8 * ClockLength(240) == 1920 > DAY && ClockLength(1920) == 480
  {
  }

  lemma EighthOf480(t: nat)
    ensures CutMark(t, 480, 8, 1) == Mark((t + 60) % DAY, true)
  {
    DivMod(t * 8 + 480, 8, t + 60, 0);
  }

  lemma ShortLength(length: nat)
    requires 1 <= length
    ensures ClockLength(length) == length <==> length <= DAY
    ensures length > DAY ==> ClockLength(length) < length
  {
  }

  lemma CutsDecide(start: string, duration: nat, count: nat, length: nat)
    requires IsClock(start) && duration >= 1 && count >= 2 && 1 <= length == count * ClockLength(duration)
    ensures CutRange(start, ClockLength(length), count) == BookedStarts(start, duration, count) <==> length <= DAY
  {
    if length <= DAY {
      ShortLength(length);
      CutsMatch(start, duration, count);
    } else {
      ShortLength(length);
      CutsDiffer(start, duration, count, ClockLength(length));
    }
  }

  lemma OneStart(start: string, duration: nat)
    requires IsClock(start)
    ensures BookedStarts(start, duration, 1) == [start]
  {
    assert BookedStarts(start, duration, 1)[0] == AddMinutes(start, 0 * duration) == AddMinutes(start, 0);
  }

  lemma CutsMatch(start: string, duration: nat, count: nat)
    requires IsClock(start) && duration >= 1 && count >= 1 && count * ClockLength(duration) <= DAY
    ensures CutRange(start, count * ClockLength(duration), count) == BookedStarts(start, duration, count)
  {
    var len := count * ClockLength(duration);
    forall i | 0 <= i < count
      ensures CutRange(start, len, count)[i] == BookedStarts(start, duration, count)[i]
    {
      CutsAreSlots(TimeToMinutes(start), duration, count, i);
      SlotText(start, i * duration);
    }
  }

  lemma CutsDiffer(start: string, duration: nat, count: nat, range: nat)
    requires IsClock(start) && duration >= 1 && count >= 2 && 1 <= range <= DAY && range < count * ClockLength(duration)
    ensures CutRange(start, range, count) != BookedStarts(start, duration, count)
  {
    var t := TimeToMinutes(start);
    SecondCutDiffers(t, duration, count, range);
    MarkText(CutMark(t, range, count, 1), (t + 1 * duration) % DAY);
    SlotText(start, 1 * duration);
    assert CutRange(start, range, count)[1] != BookedStarts(start, duration, count)[1];
  }

  lemma SlotText(start: string, minutes: nat)
    requires IsClock(start)
    ensures AddMinutes(start, minutes) == PrintMark(Mark((TimeToMinutes(start) + minutes) % DAY, true))
  {
    var s := MinutesToTime((TimeToMinutes(start) + minutes) % DAY);
    assert s + "" == s;
  }

  // ---- the same on minutes of the day --------------------------------------------------------------------------

  /** A clock text and the minute it prints determine each other, so rows store the minute. */
  type Minute = m: nat | m < DAY

  /** The starts createBooking checks, as minutes. */
  function BookedMinutes(start: Minute, duration: nat, count: nat): seq<Minute> {
    seq(count, i requires 0 <= i => (start + i * duration) % DAY)
  }

  function EndMinute(start: Minute, duration: nat, count: nat): Minute {
    (start + duration * count) % DAY
  }

  /** Whether the clock text of x is among the starts getSlotStarts rebuilds. */
  predicate AmongStarts(x: Minute, start: Minute, end: Minute, count: nat) {
    if count <= 1 then x == start else AmongCuts(x, start, RangeBetween(start, end), count)
  }

  function RangeBetween(start: Minute, end: Minute): nat {
    if end <= start then end + DAY - start else end - start
  }

  predicate AmongCuts(x: Minute, start: Minute, range: nat, count: nat)
    requires count >= 1
  {
    exists i :: 0 <= i < count && CutMark(start, range, count, i) == Mark(x, true)
  }

  /** The minute form says the same as the text form of getSlotStarts. */
  lemma AmongStartsIsText(x: Minute, start: Minute, end: Minute, count: nat)
    ensures IsClock(MinutesToTime(start)) && IsClock(MinutesToTime(end))
    ensures AmongStarts(x, start, end, count)
      <==> MinutesToTime(x) in SlotStarts(MinutesToTime(start), MinutesToTime(end), count)
  {
    PrintThenParse(start);
    PrintThenParse(end);
    if count <= 1 {
      SameMinutes(x, start);
    } else {
      CutTexts(x, start, RangeBetween(start, end), count);
      assert RangeMinutes(MinutesToTime(start), MinutesToTime(end)) == RangeBetween(start, end);
    }
  }

  lemma CutTexts(x: Minute, start: Minute, range: nat, count: nat)
    requires count >= 1 && IsClock(MinutesToTime(start)) && TimeToMinutes(MinutesToTime(start)) == start
    ensures AmongCuts(x, start, range, count)
      <==> MinutesToTime(x) in CutRange(MinutesToTime(start), range, count)
  {
    var cut := CutRange(MinutesToTime(start), range, count);
    forall i | 0 <= i < count
      ensures cut[i] == MinutesToTime(x) <==> CutMark(start, range, count, i) == Mark(x, true)
    {
      MarkText(CutMark(start, range, count, i), x);
    }
  }

  /** The minute form says the same as the text form of createBooking. */
  lemma BookedMinutesAreText(start: Minute, duration: nat, count: nat, i: nat)
    requires i < count
    ensures IsClock(MinutesToTime(start))
    ensures BookedStarts(MinutesToTime(start), duration, count)[i]
         == MinutesToTime(BookedMinutes(start, duration, count)[i])
  {
    PrintThenParse(start);
  }

  lemma RangeOfSlotMinutes(start: Minute, length: nat)
    requires 1 <= length <= DAY
    ensures RangeBetween(start, (start + length) % DAY) == length
  {
  }

  /** Every slot of a booking that is no longer than a day is among the starts rebuilt. */
  lemma SlotsAmongStarts(start: Minute, duration: nat, count: nat, k: nat)
    requires k < count && duration >= 1 && count * duration <= DAY
    ensures AmongStarts((start + k * duration) % DAY, start, EndMinute(start, duration, count), count)
  {
    MulGrows(count, duration);
    assert ClockLength(duration) == duration && duration * count == count * duration;
    if count > 1 {
      RangeOfSlotMinutes(start, count * duration);
      CutsAreSlots(start, duration, count, k);
      assert CutMark(start, RangeBetween(start, EndMinute(start, duration, count)), count, k)
          == Mark((start + k * duration) % DAY, true);
    }
  }

  lemma OwnStart(start: Minute, end: Minute, duration: nat, count: nat)
    requires count >= 1
    ensures start in BookedMinutes(start, duration, count)
    ensures AmongStarts(start, start, end, count)
  {
    assert BookedMinutes(start, duration, count)[0] == (start + 0 * duration) % DAY == start;
    if count > 1 {
      FirstMark(start, RangeBetween(start, end), count);
    }
  }
}
