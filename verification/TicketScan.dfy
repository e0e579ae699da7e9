/** Event tickets at the gate, one ticket with any number of scanners and confirmations at once. A scanner reads the
    ticket, checks the token, then updates the row on condition that it is still VALID; anything may run between two of
    these. A confirmation reads the ticket, asks the provider, then writes VALID without a condition; the webhook reads
    the ticket and writes its verdict without one. */
module TicketScan {

  type Id = string

  datatype TicketStatus = PENDING_PAYMENT | VALID | SCANNED | FAILED | CANCELLED

  datatype Scan = Seen | Checked | Accepted | TurnedAway

  /** A handler that has read the unpaid ticket and has yet to write, or is done with it. */
  datatype Settling = Asking | Answered

  /** `left` is history: how often a late write took the ticket out of SCANNED. */
  datatype Gate = Gate(status: TicketStatus, scans: map<nat, Scan>, confirmations: map<nat, Settling>,
                       deliveries: map<nat, Settling>, left: nat)

  function Closed(status: TicketStatus): Gate {
    Gate(status, map[], map[], map[], 0)
  }

  /** Webhook and Confirm are a read and its write with nothing in between. */
  datatype Event =
    | Read(v: nat)
    | CheckToken(v: nat, valid: bool)
    | Update(v: nat)
    | WebhookRead(w: nat)
    | WebhookWrite(w: nat, success: bool)
    | ConfirmRead(c: nat)
    | ConfirmWrite(c: nat, paid: bool)
    | Webhook(success: bool)
    | Confirm(paid: bool)

  /** The ticket part of handleWebhook. */
  function Settled(status: TicketStatus, success: bool): TicketStatus {
    if status != PENDING_PAYMENT then status else if success then VALID else FAILED
  }

  /** `confirmTicketPayment` in one step. */
  function Confirmed(status: TicketStatus, paid: bool): TicketStatus {
    if status == PENDING_PAYMENT && paid then VALID else status
  }

  /** The write of a webhook, or of a confirmation that found the ticket paid, after either had read it unpaid. */
  predicate Writes(g: Gate, e: Event) {
    || (e.WebhookWrite? && e.w in g.deliveries && g.deliveries[e.w] == Asking)
    || (e.ConfirmWrite? && e.paid && e.c in g.confirmations && g.confirmations[e.c] == Asking)
  }

  /** An update without a condition. */
  function Write(g: Gate, status: TicketStatus): Gate
    requires status != SCANNED
  {
    g.(status := status, left := g.left + if g.status == SCANNED then 1 else 0)
  }

  function Ask(status: TicketStatus): Settling {
    if status == PENDING_PAYMENT then Asking else Answered
  }

  function Step(g: Gate, e: Event): Gate {
    match e
    case Read(v) =>
      if v in g.scans then g
      else g.(scans := g.scans[v := if g.status == VALID then Seen else TurnedAway])
    case CheckToken(v, valid) =>
      if v !in g.scans || g.scans[v] != Seen then g
      else g.(scans := g.scans[v := if valid then Checked else TurnedAway])
    case Update(v) =>
      if v !in g.scans || g.scans[v] != Checked then g
      else if g.status == VALID then g.(status := SCANNED, scans := g.scans[v := Accepted])
      else g.(scans := g.scans[v := TurnedAway])
    case WebhookRead(w) => if w in g.deliveries then g else g.(deliveries := g.deliveries[w := Ask(g.status)])
    case WebhookWrite(w, success) =>
      if w !in g.deliveries || g.deliveries[w] != Asking then g
      else Write(g.(deliveries := g.deliveries[w := Answered]), if success then VALID else FAILED)
    case ConfirmRead(c) => if c in g.confirmations then g else g.(confirmations := g.confirmations[c := Ask(g.status)])
    case ConfirmWrite(c, paid) =>
      if c !in g.confirmations || g.confirmations[c] != Asking then g
      else
        var answered := g.(confirmations := g.confirmations[c := Answered]);
        if paid then Write(answered, VALID) else answered
    case Webhook(success) => g.(status := Settled(g.status, success))
    case Confirm(paid) => g.(status := Confirmed(g.status, paid))
  }

  function Run(g: Gate, es: seq<Event>): Gate {
    if es == [] then g else Step(Run(g, es[..|es| - 1]), es[|es| - 1])
  }

  function AcceptedScans(g: Gate): set<nat> {
    set v | v in g.scans && g.scans[v] == Accepted
  }

  /** A read and its write back to back do what the one-step event does. */
  lemma BackToBack(g: Gate, k: nat, ok: bool)
    requires k !in g.deliveries && k !in g.confirmations
    ensures
      var delivered := Step(Step(g, WebhookRead(k)), WebhookWrite(k, ok));
      delivered.(deliveries := g.deliveries) == Step(g, Webhook(ok))
    ensures
      var confirmed := Step(Step(g, ConfirmRead(k)), ConfirmWrite(k, ok));
      confirmed.(confirmations := g.confirmations) == Step(g, Confirm(ok))
  {
  }

  // ---- validations -------------------------------------------------------------------------------------------------

  /** As many validations succeeded as the ticket was scanned and left SCANNED again. */
  ghost predicate Counted(g: Gate) {
    |AcceptedScans(g)| == g.left + if g.status == SCANNED then 1 else 0
  }

  lemma StepCounted(g: Gate, e: Event)
    requires Counted(g)
    ensures Counted(Step(g, e))
  {
    AcceptedAfter(g, e);
  }

  predicate Accepts(g: Gate, e: Event) {
    e.Update? && e.v in g.scans && g.scans[e.v] == Checked && g.status == VALID
  }

  lemma AcceptedAfter(g: Gate, e: Event)
    ensures AcceptedScans(Step(g, e)) == AcceptedScans(g) + if Accepts(g, e) then {e.v} else {}
    ensures Accepts(g, e) ==> e.v !in AcceptedScans(g)
  {
    assert forall v :: v in AcceptedScans(Step(g, e)) <==> v in AcceptedScans(g) || (Accepts(g, e) && v == e.v);
  }

  lemma {:induction false} RunCounted(status: TicketStatus, es: seq<Event>)
    requires status != SCANNED
    ensures Counted(Run(Closed(status), es))
  {
    if es == [] {
      assert AcceptedScans(Closed(status)) == {};
    } else {
      RunCounted(status, es[..|es| - 1]);
      StepCounted(Run(Closed(status), es[..|es| - 1]), es[|es| - 1]);
    }
  }

  /** SCANNED is final, except exactly for the write of a webhook or a confirmation that read the ticket before it was
      paid. */
  lemma ScannedIsFinalExactly(g: Gate, e: Event)
    requires g.status == SCANNED
    ensures Step(g, e).status == SCANNED <==> !Writes(g, e)
    ensures Step(g, e).left == g.left <==> !Writes(g, e)
  {
  }

  /** No webhook and no confirmation is split. */
  ghost predicate Atomic(es: seq<Event>) {
    forall i :: 0 <= i < |es| ==> !es[i].ConfirmRead? && !es[i].WebhookRead?
  }

  lemma {:induction false} AtomicNeverLeaves(status: TicketStatus, es: seq<Event>)
    requires Atomic(es)
    ensures
      var g := Run(Closed(status), es);
      g.left == 0 && g.confirmations == map[] && g.deliveries == map[]
  {
    if es != [] {
      AtomicNeverLeaves(status, es[..|es| - 1]);
    }
  }

  /** When webhooks and confirmations run in one step, at most one validation of a ticket succeeds, however scanners,
      webhooks and confirmations are interleaved, and once one has, the ticket stays SCANNED. */
  lemma AtMostOneValidation(status: TicketStatus, es: seq<Event>)
    requires status != SCANNED && Atomic(es)
    ensures
      var g := Run(Closed(status), es);
      && (forall v, w :: v in AcceptedScans(g) && w in AcceptedScans(g) ==> v == w)
      && (AcceptedScans(g) != {} <==> g.status == SCANNED)
  {
    RunCounted(status, es);
    AtomicNeverLeaves(status, es);
    var g := Run(Closed(status), es);
    forall v, w | v in AcceptedScans(g) && w in AcceptedScans(g)
      ensures v == w
    {
      if v != w {
        AtLeastTwo(AcceptedScans(g), v, w);
      }
    }
  }

  lemma AtLeastTwo(s: set<nat>, v: nat, w: nat)
    requires v in s && w in s && v != w
    ensures |s| >= 2
  {
    var rest := s - {v};
    assert w in rest && s == rest + {v};
  }

  /** In general a ticket is validated again only after a late write took it out of SCANNED, and if that write made it
      VALID, the next scanner with a good token is let in. */
  lemma ValidatedAgainOnlyReopened(status: TicketStatus, es: seq<Event>, v: nat)
    requires status != SCANNED
    ensures
      var g := Run(Closed(status), es);
      && (|AcceptedScans(g)| >= 2 ==> g.left >= 1)
      && (g.left >= 1 && g.status == VALID && v !in g.scans ==>
            |AcceptedScans(Step(Step(Step(g, Read(v)), CheckToken(v, true)), Update(v)))| >= 2)
  {
    RunCounted(status, es);
    var g := Run(Closed(status), es);
    StepCounted(g, Read(v));
    StepCounted(Step(g, Read(v)), CheckToken(v, true));
    StepCounted(Step(Step(g, Read(v)), CheckToken(v, true)), Update(v));
  }

  // ---- two interleavings with two validations ----------------------------------------------------------------------

  /** Scanner v, from reading to its update. */
  function ScanBy(v: nat): seq<Event> {
    [Read(v), CheckToken(v, true), Update(v)]
  }

  /** A confirmation reads the unpaid ticket; the webhook pays it and a scanner validates it; then the confirmation
      writes VALID, and a second scanner validates it again. */
  function LateConfirmation(): seq<Event> {
    [ConfirmRead(0), Webhook(true)] + ScanBy(0) + [ConfirmWrite(0, true)] + ScanBy(1)
  }

  /** The webhook is delivered twice at once and both read the unpaid ticket; one writes VALID, a scanner validates the
      ticket, then the other writes VALID too, and a second scanner validates it again. */
  function DuplicateDelivery(): seq<Event> {
    [WebhookRead(0), WebhookRead(1), WebhookWrite(0, true)] + ScanBy(0) + [WebhookWrite(1, true)] + ScanBy(1)
  }

  lemma LateConfirmationRescans()
    ensures AcceptedScans(Run(Closed(PENDING_PAYMENT), LateConfirmation())) == {0, 1}
  {
    var g, es := Closed(PENDING_PAYMENT), [ConfirmRead(0), Webhook(true)];
    RunAppend(g, [], ConfirmRead(0));
    RunAppend(g, [ConfirmRead(0)], Webhook(true));
    assert [] + [ConfirmRead(0)] == [ConfirmRead(0)] && [ConfirmRead(0)] + [Webhook(true)] == es;
    RunScan(g, es, 0);
    RunAppend(g, es + ScanBy(0), ConfirmWrite(0, true));
    RunScan(g, es + ScanBy(0) + [ConfirmWrite(0, true)], 1);
  }

  lemma DuplicateDeliveryRescans()
    ensures AcceptedScans(Run(Closed(PENDING_PAYMENT), DuplicateDelivery())) == {0, 1}
  {
    var g, es := Closed(PENDING_PAYMENT), [WebhookRead(0), WebhookRead(1), WebhookWrite(0, true)];
    RunThree(g, [], WebhookRead(0), WebhookRead(1), WebhookWrite(0, true));
    assert [] + es == es;
    RunScan(g, es, 0);
    RunAppend(g, es + ScanBy(0), WebhookWrite(1, true));
    RunScan(g, es + ScanBy(0) + [WebhookWrite(1, true)], 1);
  }

  /** A new scanner at a VALID ticket is let in. */
  lemma RunScan(g: Gate, es: seq<Event>, v: nat)
    ensures
      var before, after := Run(g, es), Run(g, es + ScanBy(v));
      v !in before.scans && before.status == VALID ==>
        after == before.(status := SCANNED, scans := before.scans[v := Accepted])
  {
    RunThree(g, es, Read(v), CheckToken(v, true), Update(v));
    var before := Run(g, es);
    if v !in before.scans && before.status == VALID {
      assert before.scans[v := Seen][v := Checked][v := Accepted] == before.scans[v := Accepted];
    }
  }

  lemma RunThree(g: Gate, es: seq<Event>, e1: Event, e2: Event, e3: Event)
    ensures Run(g, es + [e1, e2, e3]) == Step(Step(Step(Run(g, es), e1), e2), e3)
  {
    OneByOne(es, e1, e2, e3);
    RunAppend(g, es, e1);
    RunAppend(g, es + [e1], e2);
    RunAppend(g, es + [e1] + [e2], e3);
  }

  lemma OneByOne(es: seq<Event>, e1: Event, e2: Event, e3: Event)
    ensures es + [e1, e2, e3] == es + [e1] + [e2] + [e3]
  {
  }

  lemma RunAppend(g: Gate, es: seq<Event>, e: Event)
    ensures Run(g, es + [e]) == Step(Run(g, es), e)
  {
    assert (es + [e])[..|es|] == es;
  }

  // ---- one handler at a time ---------------------------------------------------------------------------------------

  datatype Ticket = Ticket(client: Id, status: TicketStatus, hasSecret: bool)

  datatype Reply =
    | Ok | NotFound | Forbidden | AlreadyScanned | NotValid | OldFormat | BadToken | NotConfirmable | NotPaid

  class TicketDesk {
    var tickets: map<Id, Ticket>

    constructor (tickets: map<Id, Ticket>)
      ensures this.tickets == tickets
    {
      this.tickets := tickets;
    }

    /** UPDATE ... SET status = 'SCANNED' WHERE id = :id AND status = 'VALID' */
    method UpdateIfValid(id: Id) returns (affected: nat)
      modifies this
      ensures affected == if id in old(tickets) && old(tickets)[id].status == VALID then 1 else 0
      ensures tickets
           == if affected == 1 then old(tickets)[id := old(tickets)[id].(status := SCANNED)] else old(tickets)
    {
      affected := 0;
      if id in tickets && tickets[id].status == VALID {
        tickets := tickets[id := tickets[id].(status := SCANNED)];
        affected := 1;
      }
    }

    /** `validateTicket`; `allowed` is the outcome of the checks on who scans, `tokenValid` of verifyToken. A scan that
        is not interleaved with anything goes as the three steps of one scanner. */
    method ValidateTicket(id: Id, allowed: bool, tokenValid: bool) returns (reply: Reply)
      modifies this
      ensures reply == Ok ==>
        && id in old(tickets) && allowed && old(tickets)[id].hasSecret && tokenValid
        && tickets == old(tickets)[id := old(tickets)[id].(status := SCANNED)]
      ensures reply != Ok ==> tickets == old(tickets)
      ensures reply == NotFound <==> id !in old(tickets)
      ensures id in old(tickets) ==>
        var ticket := old(tickets)[id];
        reply == if !allowed then Forbidden
                 else if ticket.status == SCANNED then AlreadyScanned
                 else if ticket.status != VALID then NotValid
                 else if !ticket.hasSecret then OldFormat
                 else if !tokenValid then BadToken
                 else Ok
      ensures id in old(tickets) && allowed && old(tickets)[id].hasSecret ==>
        var g := Run(Closed(old(tickets)[id].status), [Read(0), CheckToken(0, tokenValid), Update(0)]);
        (reply == Ok <==> 0 in AcceptedScans(g)) && tickets[id].status == g.status
    {
      ghost var steps := [Read(0), CheckToken(0, tokenValid), Update(0)];
      if id !in tickets {
        return NotFound;
      }
      var ticket := tickets[id];
      ghost var g := Closed(ticket.status);
      RunThree(g, [], Read(0), CheckToken(0, tokenValid), Update(0));
      assert [] + steps == steps;
      if !allowed {
        return Forbidden;
      }
      if ticket.status == SCANNED {
        return AlreadyScanned;
      }
      if ticket.status != VALID {
        return NotValid;
      }
      if !ticket.hasSecret {
        return OldFormat;
      }
      if !tokenValid {
        return BadToken;
      }
      var affected := UpdateIfValid(id);
      if affected == 0 {
        return AlreadyScanned;
      }
      return Ok;
    }

    /** `confirmTicketPayment`; `paid` is whether verifyTransaction answers SUCCESS. */
    method ConfirmTicketPayment(id: Id, client: Id, paid: bool) returns (reply: Reply)
      modifies this
      ensures reply == NotFound <==> id !in old(tickets) || old(tickets)[id].client != client
      ensures reply == NotFound ==> tickets == old(tickets)
      ensures reply != NotFound ==>
        reply == match old(tickets)[id].status
                 case VALID => Ok
                 case SCANNED => Ok
                 case PENDING_PAYMENT => if paid then Ok else NotPaid
                 case _ => NotConfirmable
      ensures reply != NotFound ==>
        && tickets == old(tickets)[id := old(tickets)[id].(status := Confirmed(old(tickets)[id].status, paid))]
        && (reply == Ok <==> tickets[id].status in {VALID, SCANNED})
    {
      if id !in tickets || tickets[id].client != client {
        return NotFound;
      }
      if tickets[id].status == VALID || tickets[id].status == SCANNED {
        return Ok;
      }
      if tickets[id].status != PENDING_PAYMENT {
        return NotConfirmable;
      }
      if !paid {
        return NotPaid;
      }
      tickets := tickets[id := tickets[id].(status := VALID)];
      return Ok;
    }
  }
}
