/**
 * Payment reconciliation as a pure state transition on the quote
 * repository, and what a run of payments against one quote does.
 * TicketDistribution.TicketDistributionService.GenerateTicket is proved
 * to perform exactly the transition Reconcile describes.
 */
module Reconciliation {
  import opened Wrappers
  import opened TicketModel

  /** The PriceInformation for a stored quote, priced at `price`. */
  function GetPriceInformation(id: TicketId, details: TicketPriceDetails,
                               directions: JourneyDirections, price: Money): PriceInformation
  {
    PriceInformation(directions, details.ticketType, price, id)
  }

  /** The journey a stored quote is for. */
  function DirectionsOf(details: TicketPriceDetails): JourneyDirections
  {
    JourneyDirections(details.fromDirection, details.to)
  }

  /** The repository after one payment, and what the payment returned. */
  datatype Step = Step(repository: Repository, result: Result<Outcome, ServiceError>)

  /** One payment against the repository. */
  function Reconcile(repository: Repository, payment: TicketPayment): (s: Step)
    // An unknown identifier fails and changes nothing.
    ensures payment.ticketId !in repository ==>
      s == Step(repository, Failure(TicketReferenceNotFound(payment.ticketId)))
    // No other quote is touched, whatever happens.
    ensures s.repository - {payment.ticketId} == repository - {payment.ticketId}
    // Underpayment: the quote stays, now owing what is left; that is restated.
    ensures payment.ticketId in repository
            && repository[payment.ticketId].price > payment.paymentAmount ==>
      var id := payment.ticketId;
      var d := repository[id];
      var left := d.price - payment.paymentAmount;
      && left > 0.0
      && id in s.repository
      && s.repository[id] == TicketPriceDetails(left, d.ticketType, d.to, d.fromDirection)
      && s.result == Success(PriceInfo(PriceInformation(
           JourneyDirections(d.fromDirection, d.to), d.ticketType, left, id)))
    // Exact or overpayment: the quote is removed and a ticket issued,
    // with change exactly when the payment exceeds the amount owed.
    ensures payment.ticketId in repository
            && repository[payment.ticketId].price <= payment.paymentAmount ==>
      var id := payment.ticketId;
      var d := repository[id];
      && id !in s.repository
      && s.result.Success? && s.result.value.TicketIssued?
      && var t := s.result.value.ticket;
      && t.paidAmount == payment.paymentAmount
      && t.journeyDirections == JourneyDirections(d.fromDirection, d.to)
      && t.ticketType == d.ticketType
      && (t.change.Some? <==> payment.paymentAmount != d.price)
      && (t.change.Some? ==> t.change.value == payment.paymentAmount - d.price && t.change.value > 0.0)
  {
    var id := payment.ticketId;
    if id !in repository then
      Step(repository, Failure(TicketReferenceNotFound(id)))
    else
      var details := repository[id];
      var expectedPayment := details.price;
      var paidAmount := payment.paymentAmount;
      var changeRequired := paidAmount - expectedPayment;
      if expectedPayment > paidAmount then
        var leftToPay := expectedPayment - paidAmount;
        var updated := details.(price := leftToPay);
        Step(repository[id := updated],
             Success(PriceInfo(GetPriceInformation(id, updated, DirectionsOf(details), leftToPay))))
      else
        var ticket := Ticket(paidAmount, DirectionsOf(details), details.ticketType,
                             if changeRequired != 0.0 then Some(changeRequired) else None);
        Step(repository - {id}, Success(TicketIssued(ticket)))
  }

  /** Once a payment has settled a quote, any further payment on it fails. */
  lemma SettledQuoteIsGone(repository: Repository, payment: TicketPayment, again: Money)
    requires payment.ticketId in repository
    requires repository[payment.ticketId].price <= payment.paymentAmount
    ensures var after := Reconcile(repository, payment).repository;
      Reconcile(after, TicketPayment(payment.ticketId, again))
        == Step(after, Failure(TicketReferenceNotFound(payment.ticketId)))
  {
  }

  /** The sum of a run of payment amounts. */
  function Sum(amounts: seq<Money>): Money
  {
    if amounts == [] then 0.0 else amounts[0] + Sum(amounts[1..])
  }

  lemma {:induction false} SumAppend(amounts: seq<Money>, last: Money)
    ensures Sum(amounts + [last]) == Sum(amounts) + last
  {
    if amounts == [] {
      assert amounts + [last] == [last];
    } else {
      assert (amounts + [last])[1..] == amounts[1..] + [last];
      SumAppend(amounts[1..], last);
    }
  }

  /** The repository after a run of payments against one quote, and what each returned. */
  datatype Trace = Trace(repository: Repository, results: seq<Result<Outcome, ServiceError>>)

  /** Payments of `amounts`, in order, each against quote `id`. */
  function Replay(repository: Repository, id: TicketId, amounts: seq<Money>): (t: Trace)
    ensures |t.results| == |amounts|
    ensures t.repository - {id} == repository - {id}
    decreases |amounts|
  {
    if amounts == [] then Trace(repository, [])
    else
      var step := Reconcile(repository, TicketPayment(id, amounts[0]));
      var rest := Replay(step.repository, id, amounts[1..]);
      Trace(rest.repository, [step.result] + rest.results)
  }

  /** Running two runs one after the other is running their concatenation. */
  lemma {:induction false} ReplayAppend(repository: Repository, id: TicketId, first: seq<Money>, second: seq<Money>)
    ensures var a := Replay(repository, id, first);
            var b := Replay(a.repository, id, second);
            Replay(repository, id, first + second) == Trace(b.repository, a.results + b.results)
  {
    if first != [] {
      assert (first + second)[0] == first[0];
      assert (first + second)[1..] == first[1..] + second;
      var step := Reconcile(repository, TicketPayment(id, first[0]));
      ReplayAppend(step.repository, id, first[1..], second);
    } else {
      assert first + second == second;
    }
  }

  /**
   * Partial payments: as long as the running total stays below the
   * quoted price P, the quote stays open, owing P minus the total, and
   * each payment restates the quote at P minus the total so far.
   */
  lemma {:induction false} PartialPaymentsKeepQuoteOpen(repository: Repository, id: TicketId, amounts: seq<Money>)
    requires id in repository
    requires forall k :: 1 <= k <= |amounts| ==> Sum(amounts[..k]) < repository[id].price
    ensures var t := Replay(repository, id, amounts);
      var d := repository[id];
      && id in t.repository
      && t.repository[id] == TicketPriceDetails(d.price - Sum(amounts), d.ticketType, d.to, d.fromDirection)
      && forall i :: 0 <= i < |amounts| ==>
           t.results[i] == Success(PriceInfo(PriceInformation(
             JourneyDirections(d.fromDirection, d.to), d.ticketType, d.price - Sum(amounts[..i + 1]), id)))
  {
    var d := repository[id];
    if amounts != [] {
      var p := amounts[0];
      var rest := amounts[1..];
      assert amounts[..1] == [p];
      assert Sum(amounts[..1]) == p;
      var step := Reconcile(repository, TicketPayment(id, p));
      var d' := step.repository[id];
      assert d' == d.(price := d.price - p);
      forall k | 0 <= k <= |rest|
        ensures Sum(amounts[..k + 1]) == p + Sum(rest[..k])
      {
        assert amounts[..k + 1][1..] == rest[..k];
      }
      PartialPaymentsKeepQuoteOpen(step.repository, id, rest);
      assert amounts[..|amounts|] == amounts;
      assert rest[..|rest|] == rest;
    } else {
      assert d.(price := d.price - 0.0) == d;
    }
  }

  /**
   * The payment that first brings the running total to at least P closes
   * the quote: it is removed, no other quote has changed, and the ticket
   * carries that last payment, with change equal to the total minus P
   * exactly when the two differ. A payment after it finds no quote.
   */
  lemma {:induction false} SettlingPaymentIssuesTicket(repository: Repository, id: TicketId, amounts: seq<Money>, last: Money, again: Money)
    requires id in repository
    requires forall k :: 1 <= k <= |amounts| ==> Sum(amounts[..k]) < repository[id].price
    requires Sum(amounts + [last]) >= repository[id].price
    ensures var t := Replay(repository, id, amounts + [last]);
      var d := repository[id];
      var total := Sum(amounts + [last]);
      && t.repository == repository - {id}
      && t.results[|amounts|] == Success(TicketIssued(Ticket(
           last, JourneyDirections(d.fromDirection, d.to), d.ticketType,
           if total != d.price then Some(total - d.price) else None)))
      && Reconcile(t.repository, TicketPayment(id, again)).result == Failure(TicketReferenceNotFound(id))
  {
    var d := repository[id];
    var total := Sum(amounts + [last]);
    var a := Replay(repository, id, amounts);
    PartialPaymentsKeepQuoteOpen(repository, id, amounts);
    SumAppend(amounts, last);
    // The quote now owes d.price - Sum(amounts), which `last` covers.
    var owed := a.repository[id];
    assert owed.price == d.price - Sum(amounts);
    var step := Reconcile(a.repository, TicketPayment(id, last));
    assert last - owed.price == total - d.price;
    var b := Replay(a.repository, id, [last]);
    assert [last][1..] == [];
    assert b == Trace(Replay(step.repository, id, []).repository, [step.result]);
    ReplayAppend(repository, id, amounts, [last]);
    assert id !in b.repository;
    assert b.repository == b.repository - {id};
  }
}
