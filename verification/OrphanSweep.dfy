/** A pass of reconcilePendingPayments over the orphan bookings its query found. */
module OrphanSweep {
  import opened Wrappers
  import opened Ledger
  import opened BookingModel
  import ExactlyOnce
  import OwnerBooks

  // ---- the verdict on one orphan -----------------------------------------------------------------------------------

  /** What the provider may be asked about an orphan: the id of its payment or failing that its own, and the external
      reference. */
  function References(s: State, b: Id): set<string> {
    if b !in s.payments then {b}
    else
      var external := s.payments[b].externalRef;
      {s.payments[b].id} + if external.Some? && external.value != "" then {external.value} else {}
  }

  /** The reference asked first: the payment's id, or the booking's own. */
  function FirstReference(s: State, b: Id): string {
    if b in s.payments then s.payments[b].id else b
  }

  /** While the provider answers, an orphan is confirmed if and only if it reports some reference of it paid, and is
      cancelled or expired only if it reports none paid and says so of the first. An exception settles nothing, unless
      the first reference was already reported paid; and what settles nothing else is the first one's word. */
  lemma VerdictDecides(s: State, b: Id, ask: string -> Verdict)
    ensures
      var refs, v := References(s, b), OrphanVerdict(s, b, ask);
      && ((forall r :: r in refs ==> ask(r) != Threw) ==> (v == Paid <==> exists r :: r in refs && ask(r) == Paid))
      && (v == Unpaid || v == Lapsed ==>
            (forall r :: r in refs ==> ask(r) != Paid && ask(r) != Threw) && exists r :: r in refs && ask(r) == v)
      && (v == Paid ==> exists r :: r in refs && ask(r) == Paid)
      && (v == Threw ==> exists r :: r in refs && ask(r) == Threw)
      && (ask(FirstReference(s, b)) in {Paid, Threw} ==> v == ask(FirstReference(s, b)))
      && (v !in {Paid, Threw} ==> v == ask(FirstReference(s, b)))
  {
    var first := if b in s.payments then s.payments[b].id else b;
    assert first in References(s, b);
    if b in s.payments && s.payments[b].externalRef.Some? && s.payments[b].externalRef.value != "" {
      assert s.payments[b].externalRef.value in References(s, b);
    }
  }

  // ---- a pass ------------------------------------------------------------------------------------------------------

  /** The tables after the bookings of `found` were settled one after another, each by what the provider says of it when
      its turn comes, `ask(b)`. */
  function Sweep(owners: map<Id, Id>, s: State, found: seq<Id>, ask: Id -> string -> Verdict, today: Today): State {
    if found == [] then s
    else
      var before, b := Sweep(owners, s, found[..|found| - 1], ask, today), found[|found| - 1];
      if b in before.bookings then SettleOrphan(owners, before, b, OrphanVerdict(before, b, ask(b)), today) else before
  }

  /** The query's answer: every orphan once, and nothing else. */
  ghost predicate Found(s: State, found: seq<Id>, threshold: int) {
    && (forall b :: b in found <==> Orphan(s, b, threshold))
    && Distinct(found)
  }

  ghost predicate Distinct(ids: seq<Id>) {
    forall i, j :: 0 <= i < j < |ids| ==> ids[i] != ids[j]
  }

  function StatusBy(verdict: Verdict): BookingStatus {
    match verdict
    case Paid => CONFIRMED
    case Unpaid => CANCELLED
    case Lapsed => EXPIRED
    case Open => PENDING_PAYMENT
    case Threw => PENDING_PAYMENT
  }

  ghost predicate Untouched(s: State, s': State, b: Id) {
    && (b in s.bookings <==> b in s'.bookings) && (b in s.bookings ==> s'.bookings[b] == s.bookings[b])
    && (b in s.payments <==> b in s'.payments) && (b in s.payments ==> s'.payments[b] == s.payments[b])
  }

  ghost predicate Awaiting(s: State, found: seq<Id>) {
    Distinct(found) && forall b :: b in found ==> b in s.bookings && s.bookings[b].status == PENDING_PAYMENT
  }

  /** The payment of b, if it has one, is SUCCESS when the provider said paid, FAILED when it said unpaid or lapsed, and
      else as it was. */
  ghost predicate PaidBy(s: State, s': State, b: Id, verdict: Verdict) {
    && (b in s'.payments <==> b in s.payments)
    && (b in s.payments ==>
          s'.payments[b]
            == if verdict == Paid then s.payments[b].(status := SUCCESS)
               else if verdict == Unpaid || verdict == Lapsed then s.payments[b].(status := FAILED)
               else s.payments[b])
  }

  /** Every booking of `found` has the status of its own verdict, taken on the tables before the pass, and so has its
      payment; no other booking or payment changed. */
  ghost predicate SettledBy(s: State, s': State, found: seq<Id>, ask: Id -> string -> Verdict) {
    && (forall b :: b !in found ==> Untouched(s, s', b))
    && (forall b :: b in found ==>
          && b in s'.bookings && s'.bookings[b].status == StatusBy(OrphanVerdict(s, b, ask(b)))
          && PaidBy(s, s', b, OrphanVerdict(s, b, ask(b))))
  }

  /** A pass settles each orphan by its own verdict, whatever the order of the rows, and keeps the invariants. */
  lemma {:induction false} SweepByVerdict(owners: map<Id, Id>, s: State, found: seq<Id>, ask: Id -> string -> Verdict,
                                          today: Today)
    requires ExactlyOnce.Valid(owners, s) && OwnerBooks.Books(s) && Awaiting(s, found)
    ensures ExactlyOnce.Valid(owners, Sweep(owners, s, found, ask, today))
    ensures OwnerBooks.Books(Sweep(owners, s, found, ask, today))
    ensures SettledBy(s, Sweep(owners, s, found, ask, today), found, ask)
  {
    if found != [] {
      var n := |found| - 1;
      var head, b := found[..n], found[n];
      SweepByVerdict(owners, s, head, ask, today);
      var before := Sweep(owners, s, head, ask, today);
      NextOrphan(s, before, found, ask);
      var verdict := OrphanVerdict(s, b, ask(b));
      ExactlyOnce.OrphanKeeps(owners, before, b, verdict, today);
      OwnerBooks.OrphanKeeps(owners, before, b, verdict, today);
      SettleTouches(owners, before, b, verdict, today);
      OneMore(s, before, SettleOrphan(owners, before, b, verdict, today), found, ask);
    }
  }

  /** The last row of `found` is still as the pass found it when its turn comes. */
  lemma NextOrphan(s: State, before: State, found: seq<Id>, ask: Id -> string -> Verdict)
    requires found != [] && Awaiting(s, found) && SettledBy(s, before, found[..|found| - 1], ask)
    ensures
      var b := found[|found| - 1];
      && b in before.bookings && before.bookings[b] == s.bookings[b] && Untouched(s, before, b)
      && OrphanVerdict(before, b, ask(b)) == OrphanVerdict(s, b, ask(b))
  {
    assert found[|found| - 1] !in found[..|found| - 1];
  }

  lemma OneMore(s: State, before: State, after: State, found: seq<Id>, ask: Id -> string -> Verdict)
    requires found != [] && SettledBy(s, before, found[..|found| - 1], ask)
    requires
      var b := found[|found| - 1];
      && (forall c :: c != b ==> Untouched(before, after, c))
      && b in after.bookings && after.bookings[b].status == StatusBy(OrphanVerdict(s, b, ask(b)))
      && PaidBy(s, after, b, OrphanVerdict(s, b, ask(b)))
    ensures SettledBy(s, after, found, ask)
  {
    var head, b := found[..|found| - 1], found[|found| - 1];
    assert found == head + [b];
    forall c | c in found
      ensures c in after.bookings && after.bookings[c].status == StatusBy(OrphanVerdict(s, c, ask(c)))
      ensures PaidBy(s, after, c, OrphanVerdict(s, c, ask(c)))
    {
      if c != b {
        assert c in head && Untouched(before, after, c);
        assert PaidBy(s, before, c, OrphanVerdict(s, c, ask(c)));
      }
    }
    forall c | c !in found
      ensures Untouched(s, after, c)
    {
      assert Untouched(s, before, c) && Untouched(before, after, c);
    }
  }

  lemma SettleTouches(owners: map<Id, Id>, s: State, b: Id, verdict: Verdict, today: Today)
    requires b in s.bookings && s.bookings[b].status == PENDING_PAYMENT
    ensures
      var s' := SettleOrphan(owners, s, b, verdict, today);
      && (forall c :: c != b ==> Untouched(s, s', c))
      && b in s'.bookings && s'.bookings[b].status == StatusBy(verdict) && PaidBy(s, s', b, verdict)
  {
  }

  // ---- after a pass ------------------------------------------------------------------------------------------------

  /** The tables after more webhooks. */
  function Delivered(owners: map<Id, Id>, s: State, es: seq<Event>): State {
    if es == [] then s else Step(owners, Delivered(owners, s, es[..|es| - 1]), es[|es| - 1])
  }

  lemma WebhookLeaves(owners: map<Id, Id>, s: State, e: Event, b: Id)
    requires e.Webhook? && b in s.bookings && (b in s.payments ==> s.payments[b].status != PENDING)
    ensures Untouched(s, Step(owners, s, e), b)
  {
  }

  lemma {:induction false} WebhooksLeave(owners: map<Id, Id>, s: State, es: seq<Event>, b: Id)
    requires b in s.bookings && (b in s.payments ==> s.payments[b].status != PENDING)
    requires forall i :: 0 <= i < |es| ==> es[i].Webhook?
    ensures Untouched(s, Delivered(owners, s, es), b)
  {
    if es != [] {
      WebhooksLeave(owners, s, es[..|es| - 1], b);
      WebhookLeaves(owners, Delivered(owners, s, es[..|es| - 1]), es[|es| - 1], b);
    }
  }

  /** A booking that a pass cancels or expires is freed for good: no later webhook, of any status and for any payment,
      changes it or its payment. */
  lemma FreedForGood(owners: map<Id, Id>, s: State, found: seq<Id>, ask: Id -> string -> Verdict, today: Today, b: Id,
                     es: seq<Event>)
    requires ExactlyOnce.Valid(owners, s) && OwnerBooks.Books(s) && Awaiting(s, found) && b in found
    requires OrphanVerdict(s, b, ask(b)) == Unpaid || OrphanVerdict(s, b, ask(b)) == Lapsed
    requires forall i :: 0 <= i < |es| ==> es[i].Webhook?
    ensures
      var s' := Delivered(owners, Sweep(owners, s, found, ask, today), es);
      && b in s'.bookings
      && s'.bookings[b].status == (if OrphanVerdict(s, b, ask(b)) == Unpaid then CANCELLED else EXPIRED)
      && (b in s'.payments <==> b in s.payments) && (b in s'.payments ==> s'.payments[b].status == FAILED)
  {
    SweepByVerdict(owners, s, found, ask, today);
    WebhooksLeave(owners, Sweep(owners, s, found, ask, today), es, b);
  }

  /** How many of `found` a pass confirms, or cancels. */
  function CountBy(s: State, found: seq<Id>, ask: Id -> string -> Verdict, confirmed: bool): nat {
    if found == [] then 0
    else
      var v := OrphanVerdict(s, found[|found| - 1], ask(found[|found| - 1]));
      CountBy(s, found[..|found| - 1], ask, confirmed)
      + if confirmed then (if v == Paid then 1 else 0) else (if v == Unpaid || v == Lapsed then 1 else 0)
  }

  predicate Counts(verdict: Verdict, confirmed: bool) {
    if confirmed then verdict == Paid else verdict == Unpaid || verdict == Lapsed
  }

  /** The places of `found` whose verdict confirms, or cancels. */
  function Places(s: State, found: seq<Id>, ask: Id -> string -> Verdict, confirmed: bool): set<nat> {
    set i: nat | i < |found| && Counts(OrphanVerdict(s, found[i], ask(found[i])), confirmed)
  }

  /** The two counters of a pass count the rows that were reported paid, and those reported unpaid or lapsed. */
  lemma {:induction false} CountsRows(s: State, found: seq<Id>, ask: Id -> string -> Verdict, confirmed: bool)
    ensures CountBy(s, found, ask, confirmed) == |Places(s, found, ask, confirmed)|
  {
    if found != [] {
      CountsRows(s, found[..|found| - 1], ask, confirmed);
      NextPlace(s, found, ask, confirmed);
    }
  }

  lemma NextPlace(s: State, found: seq<Id>, ask: Id -> string -> Verdict, confirmed: bool)
    requires found != []
    ensures
      var n := |found| - 1;
      var before := Places(s, found[..n], ask, confirmed);
      && n !in before
      && Places(s, found, ask, confirmed)
        == if Counts(OrphanVerdict(s, found[n], ask(found[n])), confirmed) then before + {n} else before
  {
    var n := |found| - 1;
    assert forall i :: 0 <= i < n ==> found[..n][i] == found[i];
  }

  /** The (i + 1)-th turn of a pass. */
  lemma Turn(owners: map<Id, Id>, s: State, found: seq<Id>, i: nat, ask: Id -> string -> Verdict, today: Today)
    requires ExactlyOnce.Valid(owners, s) && OwnerBooks.Books(s) && Awaiting(s, found) && i < |found|
    ensures
      var before := Sweep(owners, s, found[..i], ask, today);
      var verdict := OrphanVerdict(before, found[i], ask(found[i]));
      && found[i] in before.bookings && verdict == OrphanVerdict(s, found[i], ask(found[i]))
      && Sweep(owners, s, found[..i + 1], ask, today) == SettleOrphan(owners, before, found[i], verdict, today)
  {
    var head, upTo := found[..i], found[..i + 1];
    assert upTo[..|upTo| - 1] == head && upTo[|upTo| - 1] == found[i];
    assert Awaiting(s, head) && Awaiting(s, upTo);
    SweepByVerdict(owners, s, head, ask, today);
    NextOrphan(s, Sweep(owners, s, head, ask, today), upTo, ask);
  }

  lemma CountTurn(s: State, found: seq<Id>, i: nat, ask: Id -> string -> Verdict)
    requires i < |found|
    ensures
      var verdict := OrphanVerdict(s, found[i], ask(found[i]));
      && CountBy(s, found[..i + 1], ask, true) == CountBy(s, found[..i], ask, true) + (if verdict == Paid then 1 else 0)
      && CountBy(s, found[..i + 1], ask, false)
        == CountBy(s, found[..i], ask, false) + (if verdict == Unpaid || verdict == Lapsed then 1 else 0)
  {
    assert found[..i + 1][..i] == found[..i];
  }
}
