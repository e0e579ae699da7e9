/** The day's slots of a field (api/src/modules/fields/fields.service.ts, generateSlots). */
module SlotGrid {
  import opened Wrappers
  import opened SlotTime

  datatype Slot = Slot(start: string, end: string, available: bool, blocked: bool, price: int, deposit: Option<int>)

  /** Opening hours and slot length of a schedule. */
  datatype Hours = Hours(open: string, close: string, duration: nat)

  predicate HoursOk(h: Hours) {
    IsClock(h.open) && IsClock(h.close) && h.duration >= 1
  }

  /** Minutes the field stays open; closing at or before the opening time means the next day. */
  function OpenMinutes(h: Hours): (m: nat)
    requires HoursOk(h)
    ensures 1 <= m <= DAY
  {
    RangeMinutes(h.open, h.close)
  }

  function Quotient(m: nat, d: nat): nat
    requires d >= 1
  {
    m / d
  }

  /** How many whole slots fit in the opening hours. */
  function SlotCount(h: Hours): nat
    requires HoursOk(h)
  {
    Quotient(OpenMinutes(h), h.duration)
  }

  function SlotStart(h: Hours, i: nat): (s: string)
    requires HoursOk(h)
    ensures IsClock(s)
  {
    AddMinutes(h.open, i * h.duration)
  }

  /** Past means: a day's time is given, and the slot starts before it on that day (a slot after midnight does not). */
  predicate Past(h: Hours, i: nat, now: Option<nat>)
    requires HoursOk(h)
  {
    var current := TimeToMinutes(h.open) + i * h.duration;
    now.Some? && current < DAY && current < now.value
  }

  /** What generateSlots is told about the day. */
  datatype Day = Day(booked: set<string>, blocked: set<string>, now: Option<nat>, dayBlocked: bool)

  /** Slot i runs from its grid time to the next one, and is available exactly when it is neither past, blocked nor
      booked. */
  ghost predicate IsSlot(h: Hours, day: Day, i: nat, slot: Slot)
    requires HoursOk(h)
  {
    && slot.start == SlotStart(h, i) && slot.end == SlotStart(h, i + 1)
    && slot.blocked == (day.dayBlocked || slot.start in day.blocked)
    && (slot.available <==> !Past(h, i, day.now) && !slot.blocked && slot.start !in day.booked)
  }

  ghost predicate AreSlots(h: Hours, price: int, deposit: Option<int>, day: Day, slots: seq<Slot>)
    requires HoursOk(h)
  {
    forall i :: 0 <= i < |slots| ==>
      IsSlot(h, day, i, slots[i]) && slots[i].price == price && slots[i].deposit == deposit
  }

  lemma OneSlotMore(h: Hours, price: int, deposit: Option<int>, day: Day, slots: seq<Slot>, current: nat, slot: Slot)
    requires HoursOk(h) && AreSlots(h, price, deposit, day, slots)
    requires current == TimeToMinutes(h.open) + |slots| * h.duration
    requires slot.start == MinutesToTime(current % DAY) && slot.end == MinutesToTime((current + h.duration) % DAY)
    requires slot.blocked == (day.dayBlocked || slot.start in day.blocked)
    requires slot.available
         <==> !(day.now.Some? && current < DAY && current < day.now.value) && !slot.blocked && slot.start !in day.booked
    requires slot.price == price && slot.deposit == deposit
    ensures AreSlots(h, price, deposit, day, slots + [slot])
  {
    IsNextSlot(h, day, |slots|, current, slot);
    var longer := slots + [slot];
    forall i | 0 <= i < |longer|
      ensures IsSlot(h, day, i, longer[i]) && longer[i].price == price && longer[i].deposit == deposit
    {
      assert i < |slots| ==> IsSlot(h, day, i, slots[i]) && longer[i] == slots[i];
    }
  }

  lemma IsNextSlot(h: Hours, day: Day, n: nat, current: nat, slot: Slot)
    requires HoursOk(h) && current == TimeToMinutes(h.open) + n * h.duration
    requires slot.start == MinutesToTime(current % DAY) && slot.end == MinutesToTime((current + h.duration) % DAY)
    requires slot.blocked == (day.dayBlocked || slot.start in day.blocked)
    requires slot.available
         <==> !(day.now.Some? && current < DAY && current < day.now.value) && !slot.blocked && slot.start !in day.booked
    ensures IsSlot(h, day, n, slot)
  {
    NextStep(n, h.duration);
    assert slot.start == SlotStart(h, n) && slot.end == SlotStart(h, n + 1);
  }

  method GenerateSlots(h: Hours, price: int, deposit: Option<int>, day: Day) returns (slots: seq<Slot>)
    requires HoursOk(h)
    ensures |slots| == SlotCount(h)
    ensures forall i :: 0 <= i < |slots| ==>
      IsSlot(h, day, i, slots[i]) && slots[i].price == price && slots[i].deposit == deposit
  {
    slots := [];
    var current := TimeToMinutes(h.open);
    var end := TimeToMinutes(h.close);
    if end <= current {
      end := end + DAY;
    }
    assert end == TimeToMinutes(h.open) + OpenMinutes(h);
    while current + h.duration <= end
      invariant current == TimeToMinutes(h.open) + |slots| * h.duration <= end
      invariant AreSlots(h, price, deposit, day, slots)
      decreases end - current
    {
      var startStr := MinutesToTime(current % DAY);
      var endStr := MinutesToTime((current + h.duration) % DAY);
      var isPast := day.now.Some? && current < DAY && current < day.now.value;
      var isBlocked := day.dayBlocked || startStr in day.blocked;
      var isBooked := startStr in day.booked;
      var slot := Slot(startStr, endStr, !isPast && !isBlocked && !isBooked, isBlocked, price, deposit);
      OneSlotMore(h, price, deposit, day, slots, current, slot);
      NextStep(|slots|, h.duration);
      slots := slots + [slot];
      current := current + h.duration;
    }
    CountIsQuotient(OpenMinutes(h), h.duration, |slots|);
  }

  lemma NextStep(n: nat, d: nat)
    ensures (n + 1) * d == n * d + d
  {
  }

  lemma CountIsQuotient(m: nat, d: nat, n: nat)
    requires d >= 1 && n * d <= m < n * d + d
    ensures n == m / d
  {
    DivMod(m, d, n, m - n * d);
  }

  /** Whether minute x of the day lies in the half-open interval from start to end on the 24-hour circle. */
  predicate Covers(start: Minute, end: Minute, x: nat) {
    if start < end then start <= x < end else start <= x || x < end
  }

  predicate SlotHas(h: Hours, i: nat, x: nat)
    requires HoursOk(h)
  {
    Covers(TimeToMinutes(SlotStart(h, i)), TimeToMinutes(SlotStart(h, i + 1)), x)
  }

  /** Minutes from opening time forward to minute x. */
  function SinceOpen(h: Hours, x: nat): nat
    requires HoursOk(h)
  {
    (x - TimeToMinutes(h.open)) % DAY
  }

  /** Slot i covers exactly the minutes whose distance from opening time falls in its own stretch. */
  lemma SlotCovers(h: Hours, i: nat, x: nat)
    requires HoursOk(h) && i < SlotCount(h) && x < DAY
    ensures SlotHas(h, i, x) <==> SinceOpen(h, x) / h.duration == i
  {
    var d := h.duration;
    NextStep(i, d);
    LastSlotFits(h, i);
    CircleStretch(TimeToMinutes(h.open), i * d, i * d + d, x);
    QuotientStretch(SinceOpen(h, x), d, i);
  }

  lemma QuotientStretch(off: nat, d: nat, i: nat)
    requires d >= 1
    ensures i * d <= off < i * d + d <==> off / d == i
  {
    if i * d <= off < i * d + d {
      CountIsQuotient(off, d, i);
    }
  }

  lemma LastSlotFits(h: Hours, i: nat)
    requires HoursOk(h) && i < SlotCount(h)
    ensures i * h.duration + h.duration <= OpenMinutes(h) <= DAY
  {
    QuotientBelow(OpenMinutes(h), h.duration, i + 1);
    NextStep(i, h.duration);
  }

  lemma QuotientBelow(m: nat, d: nat, n: nat)
    requires d >= 1
    ensures m / d < n <==> m < n * d
  {
    QuotientStretch(m, d, m / d);
    if m / d < n {
      MulOrder(d, m / d + 1, n);
      NextStep(m / d, d);
    } else {
      MulOrder(d, n, m / d);
    }
  }

  lemma CircleStretch(open: nat, lo: nat, hi: nat, x: nat)
    requires open < DAY && x < DAY && lo < hi <= DAY
    ensures
      Covers((open + lo) % DAY, (open + hi) % DAY, x) <==> lo <= (x - open) % DAY < hi
  {
  }

  /** The slots of a day start at distinct times and share no minute, across midnight too. */
  lemma SlotsDisjoint(h: Hours, i: nat, j: nat)
    requires HoursOk(h) && i < SlotCount(h) && j < SlotCount(h) && i != j
    ensures SlotStart(h, i) != SlotStart(h, j)
    ensures forall x: nat :: x < DAY ==> !(SlotHas(h, i, x) && SlotHas(h, j, x))
  {
    forall x: nat | x < DAY && SlotHas(h, i, x)
      ensures !SlotHas(h, j, x)
    {
      SlotCovers(h, i, x);
      SlotCovers(h, j, x);
    }
    StartInside(h, i);
    StartInside(h, j);
  }

  lemma StartInside(h: Hours, i: nat)
    requires HoursOk(h)
    ensures SlotHas(h, i, TimeToMinutes(SlotStart(h, i)))
  {
  }

  /** A minute of the day is in some slot exactly when it comes before the end of the last whole slot: the slots
      leave no gap between them. */
  lemma SlotsLeaveNoGap(h: Hours, x: nat)
    requires HoursOk(h) && x < DAY
    ensures (exists i: nat :: i < SlotCount(h) && SlotHas(h, i, x)) <==> SinceOpen(h, x) < SlotCount(h) * h.duration
  {
    var i: nat := SinceOpen(h, x) / h.duration;
    QuotientBelow(SinceOpen(h, x), h.duration, SlotCount(h));
    forall j: nat | j < SlotCount(h)
      ensures SlotHas(h, j, x) <==> j == i
    {
      SlotCovers(h, j, x);
    }
    if i < SlotCount(h) {
      assert SlotHas(h, i, x);
    }
  }
}
