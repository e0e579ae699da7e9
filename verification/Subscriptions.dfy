/** Subscriptions paid in installments: the daily reminders and suspensions, and what a webhook does to them. */
module Subscriptions {

  type Id = string

  datatype InstallmentStatus = PENDING | PAID | FAILED | OVERDUE
  datatype SubscriptionStatus = PENDING | ACTIVE | SUSPENDED | EXPIRED

  datatype Installment = Installment(subscription: Id, due: int, status: InstallmentStatus)

  datatype Plans = Plans(installments: map<Id, Installment>, subscriptions: map<Id, SubscriptionStatus>)

  /** Three days. */
  const GRACE_MS := 3 * 24 * 60 * 60 * 1000

  /** The window of phase 1. */
  predicate ToRemind(i: Installment, now: int) {
    i.status == InstallmentStatus.PENDING && i.due <= now && i.due > now - GRACE_MS
  }

  /** The window of phase 2. */
  predicate InDefault(i: Installment, now: int) {
    i.status == InstallmentStatus.PENDING && i.due <= now - GRACE_MS
  }

  predicate OfActive(p: Plans, i: Id) {
    && i in p.installments && p.installments[i].subscription in p.subscriptions
    && p.subscriptions[p.installments[i].subscription] == ACTIVE
  }

  ghost predicate Distinct(found: seq<Id>) {
    forall j, k :: 0 <= j < k < |found| ==> found[j] != found[k]
  }

  /** A query answers each row of its window once, in any order. */
  ghost predicate ReminderRows(p: Plans, now: int, found: seq<Id>) {
    Distinct(found) && forall i :: i in found <==> i in p.installments && ToRemind(p.installments[i], now)
  }

  ghost predicate DefaultRows(p: Plans, now: int, found: seq<Id>) {
    Distinct(found) && forall i :: i in found <==> i in p.installments && InDefault(p.installments[i], now)
  }

  /** The active subscriptions among the rows. */
  function Struck(p: Plans, found: seq<Id>): set<Id> {
    set i | i in found && OfActive(p, i) :: p.installments[i].subscription
  }

  /** The k-th row is the first of its active subscription. */
  predicate Leads(p: Plans, found: seq<Id>, k: nat)
    requires k < |found|
  {
    OfActive(p, found[k]) && p.installments[found[k]].subscription !in Struck(p, found[..k])
  }

  function Marked(p: Plans, found: seq<Id>): set<Id> {
    set k | 0 <= k < |found| && Leads(p, found, k) :: found[k]
  }

  /** What a suspension pass over the rows leaves, for each installment and subscription at once. */
  function Suspend(p: Plans, found: seq<Id>): Plans {
    Plans(map i | i in p.installments ::
            if i in Marked(p, found) then p.installments[i].(status := OVERDUE) else p.installments[i],
          map s | s in p.subscriptions ::
            if s in Struck(p, found) then SUSPENDED else p.subscriptions[s])
  }

  /** The rows of phase 1 that a reminder is sent for. */
  function Reminded(p: Plans, found: seq<Id>, reachable: set<Id>): seq<Id> {
    if found == [] then []
    else
      var before, i := Reminded(p, found[..|found| - 1], reachable), found[|found| - 1];
      if OfActive(p, i) && p.installments[i].subscription in reachable then before + [i] else before
  }

  lemma NextRow(p: Plans, found: seq<Id>, k: nat)
    requires k < |found|
    ensures Struck(p, found[..k + 1])
         == Struck(p, found[..k]) + if OfActive(p, found[k]) then {p.installments[found[k]].subscription} else {}
    ensures Marked(p, found[..k + 1]) == Marked(p, found[..k]) + if Leads(p, found, k) then {found[k]} else {}
  {
    assert found[..k + 1] == found[..k] + [found[k]];
    forall j | 0 <= j <= k
      ensures Leads(p, found[..k + 1], j) <==> Leads(p, found, j)
      ensures j < k ==> (Leads(p, found[..k], j) <==> Leads(p, found, j))
    {
      assert found[..k + 1][..j] == found[..j];
      assert j < k ==> found[..k][..j] == found[..j];
    }
    assert found[..k + 1][k] == found[k];
    forall i | i in Marked(p, found[..k])
      ensures i in Marked(p, found[..k + 1])
    {
      var j :| 0 <= j < k && Leads(p, found[..k], j) && found[j] == i;
      assert Leads(p, found[..k + 1], j) && found[..k + 1][j] == i;
    }
  }

  /** The pass over one row more. */
  lemma NextSuspend(p: Plans, found: seq<Id>, k: nat)
    requires k < |found|
    ensures
      var before, after := Suspend(p, found[..k]), Suspend(p, found[..k + 1]);
      if Leads(p, found, k) then
        var i, s := found[k], p.installments[found[k]].subscription;
        && after == Plans(before.installments[i := p.installments[i].(status := OVERDUE)],
                          before.subscriptions[s := SUSPENDED])
        && Struck(p, found[..k + 1]) == Struck(p, found[..k]) + {s} && s !in Struck(p, found[..k])
      else after == before && Struck(p, found[..k + 1]) == Struck(p, found[..k])
  {
    NextRow(p, found, k);
    var before, after := Suspend(p, found[..k]), Suspend(p, found[..k + 1]);
    var struck, marked := Struck(p, found[..k]), Marked(p, found[..k]);
    if Leads(p, found, k) {
      var i, s := found[k], p.installments[found[k]].subscription;
      assert after.installments == before.installments[i := p.installments[i].(status := OVERDUE)];
      assert after.subscriptions == before.subscriptions[s := SUSPENDED];
    } else {
      assert Struck(p, found[..k + 1]) == struck && Marked(p, found[..k + 1]) == marked;
    }
  }

  class SubscriptionReconciliation {
    var installments: map<Id, Installment>
    var subscriptions: map<Id, SubscriptionStatus>

    ghost function Tables(): Plans
      reads this
    {
      Plans(installments, subscriptions)
    }

    constructor (plans: Plans)
      ensures Tables() == plans
    {
      installments, subscriptions := plans.installments, plans.subscriptions;
    }

    /** `phase1Relance`: the installments a reminder is sent for; `reachable` has the subscriptions whose client has a
        phone. The tables do not change. */
    method Phase1Relance(found: seq<Id>, reachable: set<Id>) returns (reminded: seq<Id>)
      ensures reminded == Reminded(Tables(), found, reachable)
    {
      reminded := [];
      for k := 0 to |found|
        invariant reminded == Reminded(Tables(), found[..k], reachable)
      {
        assert found[..k + 1][..k] == found[..k];
        var i := found[k];
        if i in installments && installments[i].subscription in subscriptions
           && subscriptions[installments[i].subscription] == ACTIVE && installments[i].subscription in reachable
        {
          reminded := reminded + [i];
        }
      }
      assert found[..|found|] == found;
    }

    /** `phase2Suspension` over the rows its query found, when nothing throws. The rows carry their subscription's
        status as it was when they were read. */
    method Phase2Suspension(found: seq<Id>) returns (suspended: nat)
      modifies this
      ensures Tables() == Suspend(old(Tables()), found)
      ensures suspended == |Struck(old(Tables()), found)|
    {
      ghost var before := Tables();
      var read, statuses := installments, subscriptions;
      var processed: set<Id> := {};
      suspended := 0;
      assert Tables() == Suspend(before, found[..0]);
      for k := 0 to |found|
        invariant Tables() == Suspend(before, found[..k])
        invariant processed == Struck(before, found[..k]) && suspended == |processed|
      {
        NextSuspend(before, found, k);
        var i := found[k];
        if i in read && read[i].subscription in statuses && statuses[read[i].subscription] == ACTIVE
           && read[i].subscription !in processed
        {
          var s := read[i].subscription;
          processed := processed + {s};
          installments := installments[i := read[i].(status := OVERDUE)];
          subscriptions := subscriptions[s := SUSPENDED];
          suspended := suspended + 1;
        }
      }
      assert found[..|found|] == found;
    }
  }

  // ---- what a pass achieves ----------------------------------------------------------------------------------------

  lemma {:induction false} SomeRowLeads(p: Plans, found: seq<Id>, s: Id) returns (k: nat)
    requires s in Struck(p, found)
    ensures k < |found| && Leads(p, found, k) && p.installments[found[k]].subscription == s
  {
    var last := |found| - 1;
    NextRow(p, found, last);
    assert found[..last + 1] == found;
    if s in Struck(p, found[..last]) {
      k := SomeRowLeads(p, found[..last], s);
      assert found[..last][..k] == found[..k];
    } else {
      k := last;
    }
  }

  /** Nobody active is left with an installment in default. */
  lemma NoDefaultLeft(p: Plans, now: int, found: seq<Id>, i: Id)
    requires DefaultRows(p, now, found)
    requires i in p.installments && InDefault(Suspend(p, found).installments[i], now)
    ensures !OfActive(Suspend(p, found), i)
  {
    assert InDefault(p.installments[i], now) && i in found;
    if OfActive(p, i) {
      assert p.installments[i].subscription in Struck(p, found);
    }
  }

  /** The pass suspends exactly the active subscriptions with an installment in default. */
  lemma SuspendsDefaulters(p: Plans, now: int, found: seq<Id>, s: Id)
    requires DefaultRows(p, now, found) && s in p.subscriptions
    ensures
      var after := Suspend(p, found).subscriptions[s];
      && (after != p.subscriptions[s] <==> DefaultsOn(p, now, s))
      && (after != p.subscriptions[s] ==> p.subscriptions[s] == ACTIVE && after == SUSPENDED)
  {
    if i :| i in found && OfActive(p, i) && p.installments[i].subscription == s {
      assert InDefault(p.installments[i], now);
    }
    if DefaultsOn(p, now, s) {
      var i :| i in p.installments && p.installments[i].subscription == s && InDefault(p.installments[i], now);
      assert i in found && OfActive(p, i);
    }
  }

  predicate DefaultsOn(p: Plans, now: int, s: Id) {
    && s in p.subscriptions && p.subscriptions[s] == ACTIVE
    && exists i :: i in p.installments && p.installments[i].subscription == s && InDefault(p.installments[i], now)
  }

  /** The installments of a subscription that the pass changed. */
  function Changed(p: Plans, found: seq<Id>, s: Id): set<Id> {
    var after := Suspend(p, found).installments;
    set i | i in p.installments && p.installments[i].subscription == s && after[i] != p.installments[i]
  }

  /** Of each subscription it suspends the pass marks one installment, of any other none. */
  lemma OneOverdueEach(p: Plans, now: int, found: seq<Id>, s: Id)
    requires DefaultRows(p, now, found) && s in p.subscriptions
    ensures |Changed(p, found, s)| == if Suspend(p, found).subscriptions[s] != p.subscriptions[s] then 1 else 0
    ensures forall i :: i in Changed(p, found, s) ==>
      InDefault(p.installments[i], now) && Suspend(p, found).installments[i] == p.installments[i].(status := OVERDUE)
  {
    SuspendsDefaulters(p, now, found, s);
    var changed := Changed(p, found, s);
    if s in Struck(p, found) {
      var k := SomeRowLeads(p, found, s);
      forall i | i in changed
        ensures i == found[k]
      {
        var j :| 0 <= j < |found| && Leads(p, found, j) && found[j] == i;
      }
      assert found[k] in Marked(p, found);
      assert changed == {found[k]};
    } else {
      forall i | i in p.installments && i in Marked(p, found)
        ensures p.installments[i].subscription != s
      {
        var j :| 0 <= j < |found| && Leads(p, found, j) && found[j] == i;
      }
      assert changed == {};
    }
  }

  /** A second pass at the same time finds nothing to do. */
  lemma SecondPassIdle(p: Plans, now: int, found: seq<Id>, again: seq<Id>)
    requires DefaultRows(p, now, found) && DefaultRows(Suspend(p, found), now, again)
    ensures Suspend(Suspend(p, found), again) == Suspend(p, found)
  {
    var after := Suspend(p, found);
    forall i | i in again
      ensures !OfActive(after, i)
    {
      NoDefaultLeft(p, now, found, i);
    }
    assert Struck(after, again) == {} && Marked(after, again) == {};
  }

  /** The two windows share no row, and between them hold every pending installment that is due. */
  lemma WindowsPartition(p: Plans, now: int, reminders: seq<Id>, defaults: seq<Id>, i: Id)
    requires ReminderRows(p, now, reminders) && DefaultRows(p, now, defaults) && i in p.installments
    ensures !(i in reminders && i in defaults)
    ensures i in reminders || i in defaults <==>
      p.installments[i].status == InstallmentStatus.PENDING && p.installments[i].due <= now
  {
  }

  lemma {:induction false} RemindedExactly(p: Plans, found: seq<Id>, reachable: set<Id>, i: Id)
    ensures i in Reminded(p, found, reachable) <==>
      i in found && OfActive(p, i) && p.installments[i].subscription in reachable
  {
    if found != [] {
      RemindedExactly(p, found[..|found| - 1], reachable, i);
    }
  }

  /** The daily run: an installment that is due and still pending, of an active subscription whose client can be
      reached, is reminded of, or its subscription is suspended. */
  lemma RemindedOrSuspended(p: Plans, now: int, reminders: seq<Id>, defaults: seq<Id>, reachable: set<Id>, i: Id)
    requires ReminderRows(p, now, reminders) && DefaultRows(p, now, defaults)
    requires OfActive(p, i) && p.installments[i].subscription in reachable
    requires p.installments[i].status == InstallmentStatus.PENDING && p.installments[i].due <= now
    ensures
      || i in Reminded(p, reminders, reachable)
      || Suspend(p, defaults).subscriptions[p.installments[i].subscription] == SUSPENDED
  {
    RemindedExactly(p, reminders, reachable, i);
    if i in defaults {
      assert p.installments[i].subscription in Struck(p, defaults);
    }
  }

  /** In milliseconds: a pass suspends the active subscriptions with an installment pending for 259200000, three days,
      or more, and the day's reminders are for those that are due for less. */
  lemma ThreeDays(p: Plans, now: int, reminders: seq<Id>, defaults: seq<Id>, reachable: set<Id>, s: Id, i: Id)
    requires ReminderRows(p, now, reminders) && DefaultRows(p, now, defaults) && s in p.subscriptions
    ensures (Suspend(p, defaults).subscriptions[s] == SUSPENDED)
      <==> (p.subscriptions[s] == SUSPENDED
            || (p.subscriptions[s] == ACTIVE
                && exists j :: PendingFor(p, j, s) && now - p.installments[j].due >= 259_200_000))
    ensures i in Reminded(p, reminders, reachable)
      <==> (i in p.installments && p.installments[i].subscription in p.subscriptions
            && PendingFor(p, i, p.installments[i].subscription)
            && p.subscriptions[p.installments[i].subscription] == ACTIVE && p.installments[i].subscription in reachable
            && 0 <= now - p.installments[i].due < 259_200_000)
  {
    SuspendsDefaulters(p, now, defaults, s);
    RemindedExactly(p, reminders, reachable, i);
    if j :| PendingFor(p, j, s) && now - p.installments[j].due >= 259_200_000 {
      assert InDefault(p.installments[j], now);
    }
    if DefaultsOn(p, now, s) {
      var j :| j in p.installments && p.installments[j].subscription == s && InDefault(p.installments[j], now);
      assert PendingFor(p, j, s);
    }
  }

  predicate PendingFor(p: Plans, i: Id, s: Id) {
    i in p.installments && p.installments[i].subscription == s && p.installments[i].status == InstallmentStatus.PENDING
  }

  // ---- runs --------------------------------------------------------------------------------------------------------

  /** The installment part of handleWebhook. */
  function SettleInstallment(p: Plans, i: Id, success: bool): Plans
    requires i in p.installments
  {
    var row := p.installments[i];
    if row.status != InstallmentStatus.PENDING then p
    else if success then
      var s := row.subscription;
      Plans(p.installments[i := row.(status := PAID)],
            if s in p.subscriptions && p.subscriptions[s] == SubscriptionStatus.PENDING
            then p.subscriptions[s := ACTIVE] else p.subscriptions)
    else p.(installments := p.installments[i := row.(status := FAILED)])
  }

  /** An open installment becomes PAID on success, and starts a subscription that was still PENDING; it becomes FAILED
      otherwise. A settled one changes nothing. */
  lemma InstallmentOutcome(p: Plans, i: Id, success: bool)
    requires i in p.installments
    ensures
      var p', row := SettleInstallment(p, i, success), p.installments[i];
      if row.status != InstallmentStatus.PENDING then p' == p
      else
        && p'.installments == p.installments[i := row.(status := if success then PAID else FAILED)]
        && p'.subscriptions.Keys == p.subscriptions.Keys
        && forall s :: s in p.subscriptions ==>
          p'.subscriptions[s]
            == if success && s == row.subscription && p.subscriptions[s] == SubscriptionStatus.PENDING then ACTIVE
               else p.subscriptions[s]
  {
  }

  /** `schedule` gives the due dates of a new subscription's installments. */
  datatype Event =
    | Subscribe(s: Id, schedule: map<Id, int>)
    | Webhook(i: Id, success: bool)
    | Pass(now: int, found: seq<Id>)

  ghost predicate Possible(p: Plans, e: Event) {
    match e
    case Subscribe(s, schedule) => s !in p.subscriptions && schedule.Keys !! p.installments.Keys
    case Webhook(i, _) => i in p.installments
    case Pass(now, found) => DefaultRows(p, now, found)
  }

  ghost function Step(p: Plans, e: Event): Plans
    requires Possible(p, e)
  {
    match e
    case Subscribe(s, schedule) =>
      Plans(p.installments + map i | i in schedule :: Installment(s, schedule[i], InstallmentStatus.PENDING),
            p.subscriptions[s := SubscriptionStatus.PENDING])
    case Webhook(i, success) => SettleInstallment(p, i, success)
    case Pass(_, found) => Suspend(p, found)
  }

  /** The tables before, between and after the events of a run. */
  ghost predicate Visits(es: seq<Event>, tables: seq<Plans>) {
    && |tables| == |es| + 1
    && forall k :: 0 <= k < |es| ==> Possible(tables[k], es[k]) && tables[k + 1] == Step(tables[k], es[k])
  }

  /** No event takes a subscription out of SUSPENDED, or an installment out of PAID, FAILED or OVERDUE: a client who is
      suspended stays so, whatever is paid afterwards. */
  lemma {:induction false} SuspensionIsFinal(es: seq<Event>, tables: seq<Plans>, k: nat)
    requires Visits(es, tables) && k <= |es|
    ensures forall s :: s in tables[0].subscriptions && tables[0].subscriptions[s] == SUSPENDED ==>
      s in tables[k].subscriptions && tables[k].subscriptions[s] == SUSPENDED
    ensures forall i :: i in tables[0].installments && tables[0].installments[i].status != InstallmentStatus.PENDING ==>
      i in tables[k].installments && tables[k].installments[i] == tables[0].installments[i]
  {
    if k > 0 {
      SuspensionIsFinal(es, tables, k - 1);
      assert tables[k] == Step(tables[k - 1], es[k - 1]);
      SettledStays(tables[k - 1], es[k - 1]);
    }
  }

  lemma SettledStays(p: Plans, e: Event)
    requires Possible(p, e)
    ensures forall s :: s in p.subscriptions && p.subscriptions[s] == SUSPENDED ==>
      s in Step(p, e).subscriptions && Step(p, e).subscriptions[s] == SUSPENDED
    ensures forall i :: i in p.installments && p.installments[i].status != InstallmentStatus.PENDING ==>
      i in Step(p, e).installments && Step(p, e).installments[i] == p.installments[i]
  {
    if e.Pass? {
      forall i | i in Marked(p, e.found)
        ensures i in p.installments && p.installments[i].status == InstallmentStatus.PENDING
      {
        var k :| 0 <= k < |e.found| && Leads(p, e.found, k) && e.found[k] == i;
      }
    }
  }

  // ---- a run -------------------------------------------------------------------------------------------------------

  const DAY_MS := 24 * 60 * 60 * 1000

  /** A client subscribes in two installments, pays the first, is suspended for the second, and pays it. */
  const LATE_PAYER := [Subscribe("s", map["first" := 0, "second" := DAY_MS]), Webhook("first", true),
                       Pass(4 * DAY_MS, ["second"]), Webhook("second", true)]

  /** The payment changes nothing: the subscription stays suspended, the installment overdue. */
  lemma PaidButSuspended() returns (tables: seq<Plans>)
    ensures Visits(LATE_PAYER, tables) && tables[0] == Plans(map[], map[])
    ensures "second" in tables[3].installments && tables[3].installments["second"].status == OVERDUE
    ensures tables[3].subscriptions == map["s" := SUSPENDED] && tables[4] == tables[3]
  {
    var p0 := Plans(map[], map[]);
    var p1, p2 := FirstPaid();
    SecondInDefault(p2);
    var p3 := Suspend(p2, ["second"]);
    tables := [p0, p1, p2, p3, SettleInstallment(p3, "second", true)];
  }

  lemma FirstPaid() returns (p1: Plans, p2: Plans)
    ensures p1 == Step(Plans(map[], map[]), LATE_PAYER[0]) && p2 == Step(p1, LATE_PAYER[1])
    ensures p2.subscriptions == map["s" := ACTIVE]
    ensures p2.installments.Keys == {"first", "second"} && p2.installments["first"].status == PAID
    ensures p2.installments["second"] == Installment("s", DAY_MS, InstallmentStatus.PENDING)
  {
    var first := Installment("s", 0, InstallmentStatus.PENDING);
    var second := Installment("s", DAY_MS, InstallmentStatus.PENDING);
    p1 := Plans(map["first" := first, "second" := second], map["s" := SubscriptionStatus.PENDING]);
    p2 := SettleInstallment(p1, "first", true);
    assert p2.installments == map["first" := first.(status := PAID), "second" := second];
  }

  lemma SecondInDefault(p: Plans)
    requires p.subscriptions == map["s" := ACTIVE]
    requires p.installments.Keys == {"first", "second"} && p.installments["first"].status == PAID
    requires p.installments["second"] == Installment("s", DAY_MS, InstallmentStatus.PENDING)
    ensures DefaultRows(p, 4 * DAY_MS, ["second"])
    ensures Suspend(p, ["second"]).subscriptions == map["s" := SUSPENDED]
    ensures Suspend(p, ["second"]).installments.Keys == {"first", "second"}
    ensures Suspend(p, ["second"]).installments["second"].status == OVERDUE
  {
    var found := ["second"];
    assert OfActive(p, found[0]) && "s" in Struck(p, found);
    assert Struck(p, found[..0]) == {};
    assert Leads(p, found, 0) && found[0] in Marked(p, found);
  }
}
