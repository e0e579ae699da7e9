/** Where bookings come from, over every run: each was made by one createBooking of the run, with its request, its
    schedule's price and its time, and that is what its owner is paid for. */
module CreatedBookings {
  import opened Wrappers
  import opened SlotTime
  import opened Ledger
  import opened BookingModel
  import opened BookingOutcomes
  import Finance
  import PaidAmounts
  import RefundCredit
  import LiveSlots
  import SlotHolds

  /** The i-th event is the createBooking that made this booking: it found the field open, the schedule and the
      client. */
  predicate MadeBy(es: seq<Event>, i: nat, b: Id, bk: Booking) {
    && i < |es| && es[i].Book? && es[i].id == b && es[i].available == Some(true)
    && es[i].row.Some? && es[i].client.Some?
    && MadeFrom(bk, es[i].q, es[i].client.value, es[i].row.value, es[i].now)
  }

  ghost predicate AllMade(es: seq<Event>, bookings: map<Id, Booking>) {
    forall b :: b in bookings ==> exists i: nat :: MadeBy(es, i, b, bookings[b])
  }

  lemma LaterToo(prefix: seq<Event>, e: Event, i: nat, b: Id, bk: Booking, bk': Booking)
    requires MadeBy(prefix, i, b, bk) && bk' == bk.(status := bk'.status, confirmed := bk'.confirmed)
    ensures MadeBy(prefix + [e], i, b, bk')
  {
  }

  lemma BookMakes(owners: map<Id, Id>, prefix: seq<Event>, s: State, e: Event)
    requires e.Book? && Possible(s, e) && AllMade(prefix, s.bookings)
    ensures AllMade(prefix + [e], Step(owners, s, e).bookings)
  {
    var s' := Step(owners, s, e);
    CreateOutcome(s, e.q, e.available, e.row, e.client, e.now, e.id, e.own);
    forall b | b in s'.bookings
      ensures exists i: nat :: MadeBy(prefix + [e], i, b, s'.bookings[b])
    {
      if b in s.bookings {
        var i: nat :| MadeBy(prefix, i, b, s.bookings[b]);
        LaterToo(prefix, e, i, b, s.bookings[b], s'.bookings[b]);
      } else {
        assert MadeBy(prefix + [e], |prefix|, b, s'.bookings[b]);
      }
    }
  }

  lemma OthersKeepMade(owners: map<Id, Id>, prefix: seq<Event>, s: State, e: Event)
    requires !e.Book? && AllMade(prefix, s.bookings)
    ensures AllMade(prefix + [e], Step(owners, s, e).bookings)
  {
    var after := Step(owners, s, e).bookings;
    var moved := LiveSlots.HandlerMoves(owners, s, e);
    forall b | b in after
      ensures exists i: nat :: MadeBy(prefix + [e], i, b, after[b])
    {
      var i: nat :| MadeBy(prefix, i, b, s.bookings[b]);
      LaterToo(prefix, e, i, b, s.bookings[b], after[b]);
    }
  }

  /** After every run each booking was made by a createBooking of the run. Its total is that call's price times its
      slots, its deposit the deposit times the slots, it expires 24 hours after the call, and it is of the client,
      field, schedule, date and start of the call. */
  lemma {:induction false} EachWasMade(owners: map<Id, Id>, es: seq<Event>)
    requires PossibleRun(owners, es)
    ensures AllMade(es, Run(owners, es).bookings)
  {
    if es != [] {
      var prefix, e := es[..|es| - 1], es[|es| - 1];
      LastEvent(owners, es);
      EachWasMade(owners, prefix);
      if e.Book? {
        BookMakes(owners, prefix, Run(owners, prefix), e);
      } else {
        OthersKeepMade(owners, prefix, Run(owners, prefix), e);
      }
      assert prefix + [e] == es;
    }
  }

  /** So over every run, a booking credited by a payment in full or by reconciliation has been credited the schedule's
      price times its slots. */
  lemma FullPriceCredited(owners: map<Id, Id>, es: seq<Event>, i: nat, b: Id)
    requires PossibleRun(owners, es) && RefundCredit.CreditedBy(owners, es, i, b)
    ensures
      var s := Run(owners, es);
      && b in s.bookings
      && (es[i].Reconcile? || (b in s.payments && s.payments[b].amount == s.bookings[b].total + s.bookings[b].fee) ==>
            exists k: nat :: MadeBy(es, k, b, s.bookings[b])
                        && RefundCredit.TermsOf(s, b).credit == es[k].row.value.price * es[k].q.numSlots)
  {
    var s := Run(owners, es);
    RefundCredit.CreditLasts(owners, es, i, b);
    EachWasMade(owners, es);
    PaidAmounts.RunFair(owners, es);
    var k: nat :| MadeBy(es, k, b, s.bookings[b]);
    if es[i].Webhook? && s.payments[b].amount == s.bookings[b].total + s.bookings[b].fee {
      assert PaidAmounts.PayOk(s.bookings[b], s.payments[b]);
      FullIsTotal(s.bookings[b], s.payments[b]);
    }
  }

  lemma FullIsTotal(bk: Booking, pay: Payment)
    requires PaidAmounts.PayOk(bk, pay) && pay.amount == bk.total + bk.fee
    requires bk.fee == Finance.ComputePlatformFee(bk.total).commission
    ensures PaidAmounts.Net(pay) == bk.total
  {
    Finance.SplitUndoesFee(bk.total);
  }

}
