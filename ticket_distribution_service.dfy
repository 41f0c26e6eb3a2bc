/**
 * TicketDistributionService: quotes a journey, stores the quote in the
 * repository, and reconciles later payments against it.
 */
module TicketDistribution {
  import opened Wrappers
  import opened TicketModel
  import opened Reconciliation

  class TicketDistributionService {
    /** The distance lookup; None stands for a lookup that failed. */
    const distanceCalculator: (Location, Location) -> Option<real>
    /** PriceCalculator, whose tariff is not part of this model; None stands for a failure. */
    const priceCalculator: PriceRequestInternal -> Option<Money>

    /** The quote repository. */
    var repository: Repository
    /** The next identifier the repository hands out. */
    var nextId: TicketId
    /** Every identifier handed out so far, settled quotes' included. */
    ghost var issued: set<TicketId>

    /** Every stored quote has an identifier that was handed out, and every
        identifier handed out is below the counter. */
    ghost predicate Valid()
      reads this
    {
      && repository.Keys <= issued
      && forall id :: id in issued ==> id < nextId
    }

    constructor (distanceCalculator: (Location, Location) -> Option<real>,
                 priceCalculator: PriceRequestInternal -> Option<Money>)
      ensures Valid()
      ensures this.distanceCalculator == distanceCalculator
      ensures this.priceCalculator == priceCalculator
      ensures repository == map[] && issued == {}
    {
      this.distanceCalculator := distanceCalculator;
      this.priceCalculator := priceCalculator;
      repository := map[];
      nextId := 0;
      issued := {};
    }

    /**
     * The price of a request: the calculator's price for the journey's
     * distance and the request's ticket type, ticket count and student
     * flag. A failed lookup or calculation is a failure.
     */
    function CalculatePriceBasedOnDistanceAndTicketType(request: TicketRequest): Result<Money, ServiceError>
    {
      var journeyDirections := request.journeyDirections;
      match distanceCalculator(journeyDirections.from, journeyDirections.to)
      case None => Failure(DistanceUnavailable)
      case Some(distance) =>
        var priceRequestInternal := PriceRequestInternal(request.studentTicket, distance,
                                                         request.numberOfTickets, request.ticketType);
        match priceCalculator(priceRequestInternal)
        case None => Failure(PriceCalculationFailed)
        case Some(price) => Success(price)
    }

    /**
     * Quotes a request and stores exactly one new quote under an
     * identifier never handed out before, not even to a quote since
     * settled; the result carries that identifier and the stored price.
     * A failure of either collaborator stores nothing.
     */
    method GeneratePriceInformation(request: TicketRequest) returns (r: Result<PriceInformation, ServiceError>)
      requires Valid()
      modifies this
      ensures Valid()
      ensures match CalculatePriceBasedOnDistanceAndTicketType(request)
        case Failure(e) =>
          && r == Failure(e) && repository == old(repository)
          && nextId == old(nextId) && issued == old(issued)
        case Success(price) =>
          && r.Success?
          && var id := r.value.ticketId;
          && id !in old(issued)
          && issued == old(issued) + {id}
          && id !in old(repository)
          && repository == old(repository)[id := TicketPriceDetails(price, request.ticketType,
                                                                    request.journeyDirections.to,
                                                                    request.journeyDirections.from)]
          && |repository| == |old(repository)| + 1
          && r.value == PriceInformation(request.journeyDirections, request.ticketType, price, id)
          && r.value.totalPrice == repository[id].price
    {
      var calculated := CalculatePriceBasedOnDistanceAndTicketType(request);
      if calculated.Failure? {
        return Failure(calculated.error);
      }
      var price := calculated.value;
      var ticketPriceDetails := TicketPriceDetails(price, request.ticketType,
                                                   request.journeyDirections.to,
                                                   request.journeyDirections.from);
      // save: the repository assigns a fresh identifier.
      var id := nextId;
      repository := repository[id := ticketPriceDetails];
      nextId := nextId + 1;
      issued := issued + {id};
      r := Success(GetPriceInformation(id, ticketPriceDetails, request.journeyDirections, price));
    }

    /**
     * Reconciles a payment with the quote it names: the repository and the
     * result are those of Reconcile, whose contract says what they are.
     */
    method GenerateTicket(payment: TicketPayment) returns (r: Result<Outcome, ServiceError>)
      requires Valid()
      modifies this
      ensures Valid()
      ensures nextId == old(nextId) && issued == old(issued)
      ensures repository == Reconcile(old(repository), payment).repository
      ensures r == Reconcile(old(repository), payment).result
    {
      if payment.ticketId !in repository {
        return Failure(TicketReferenceNotFound(payment.ticketId));
      }
      var ticketPriceDetails := repository[payment.ticketId];
      var expectedPayment := ticketPriceDetails.price;
      var paidAmount := payment.paymentAmount;
      var journeyDirections := DirectionsOf(ticketPriceDetails);

      var changeRequired := paidAmount - expectedPayment;
      if expectedPayment > paidAmount {
        var leftToPay := expectedPayment - paidAmount;
        ticketPriceDetails := ticketPriceDetails.(price := leftToPay);
        repository := repository[payment.ticketId := ticketPriceDetails];
        r := Success(PriceInfo(GetPriceInformation(payment.ticketId, ticketPriceDetails, journeyDirections, leftToPay)));
      } else {
        var ticket := GetTicketAndClearDatabase(payment, ticketPriceDetails, journeyDirections, changeRequired);
        r := Success(TicketIssued(ticket));
      }
    }

    /**
     * Issues the ticket for a settled quote, with change only when it is
     * nonzero, and deletes the quote.
     */
    method GetTicketAndClearDatabase(payment: TicketPayment, ticketPriceDetails: TicketPriceDetails,
                                     journeyDirections: JourneyDirections, changeRequired: Money)
      returns (ticket: Ticket)
      modifies this
      ensures repository == old(repository) - {payment.ticketId}
      ensures nextId == old(nextId) && issued == old(issued)
      ensures ticket.paidAmount == payment.paymentAmount
      ensures ticket.journeyDirections == journeyDirections
      ensures ticket.ticketType == ticketPriceDetails.ticketType
      ensures ticket.change == if changeRequired != 0.0 then Some(changeRequired) else None
    {
      ticket := Ticket(payment.paymentAmount, journeyDirections, ticketPriceDetails.ticketType, None);
      if changeRequired != 0.0 {
        ticket := ticket.(change := Some(changeRequired));
      }
      repository := repository - {payment.ticketId};
    }
  }

  /** A client's view: quote, pay part, pay the rest with change, pay again;
      a later quote does not bring the settled identifier back. */
  method ClientScenario()
  {
    var service := new TicketDistributionService((from, to) => Some(10.0), request => Some(20.0));
    var journey := JourneyDirections("Krakow", "Warsaw");
    var quote := service.GeneratePriceInformation(TicketRequest(journey, "STANDARD", 1, false));
    assert quote.Success? && quote.value.totalPrice == 20.0;
    var id := quote.value.ticketId;

    var first := service.GenerateTicket(TicketPayment(id, 15.0));
    assert first == Success(PriceInfo(PriceInformation(journey, "STANDARD", 5.0, id)));

    var second := service.GenerateTicket(TicketPayment(id, 8.0));
    assert second == Success(TicketIssued(Ticket(8.0, journey, "STANDARD", Some(3.0))));

    var third := service.GenerateTicket(TicketPayment(id, 1.0));
    assert third == Failure(TicketReferenceNotFound(id));

    var requote := service.GeneratePriceInformation(TicketRequest(journey, "STANDARD", 1, false));
    assert requote.Success? && requote.value.ticketId != id;
    var fourth := service.GenerateTicket(TicketPayment(id, 1.0));
    assert fourth == Failure(TicketReferenceNotFound(id));
  }
}
