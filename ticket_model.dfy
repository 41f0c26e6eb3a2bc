/**
 * The value objects that the ticket distribution service consumes and
 * produces: requests, payments, quotes (TicketPriceDetails), price
 * information, tickets, and the conditions under which a call fails.
 */
module TicketModel {
  import opened Wrappers

  /** A monetary amount. The service computes with java.math.BigDecimal,
      whose subtract and compareTo are exact; a real is exact too. */
  type Money = real

  /** A place a journey starts or ends at. */
  type Location = string

  /** The ticket type, a Java enum; it is only copied around, never inspected. */
  type TicketType = string

  /** The repository's identifier of a quote. */
  type TicketId = int

  datatype JourneyDirections = JourneyDirections(from: Location, to: Location)

  /** What a client asks a quote for. */
  datatype TicketRequest = TicketRequest(
    journeyDirections: JourneyDirections,
    ticketType: TicketType,
    numberOfTickets: int,
    studentTicket: bool)

  /** What the price calculator is given. */
  datatype PriceRequestInternal = PriceRequestInternal(
    studentPrice: bool,
    distance: real,
    numberOfTickets: int,
    ticketType: TicketType)

  /** A stored quote: the amount still owed for a journey and ticket type.
      Its identifier is the key under which the repository holds it. */
  datatype TicketPriceDetails = TicketPriceDetails(
    price: Money,
    ticketType: TicketType,
    to: Location,
    fromDirection: Location)

  /** The quote repository's contents. */
  type Repository = map<TicketId, TicketPriceDetails>

  /** A payment against a quote. Nothing requires the amount to be positive. */
  datatype TicketPayment = TicketPayment(ticketId: TicketId, paymentAmount: Money)

  /** A quote as the client sees it, after quoting or after a partial payment. */
  datatype PriceInformation = PriceInformation(
    journeyDirections: JourneyDirections,
    ticketType: TicketType,
    totalPrice: Money,
    ticketId: TicketId)

  /** A ticket issued on settlement; change is present only when it is nonzero. */
  datatype Ticket = Ticket(
    paidAmount: Money,
    journeyDirections: JourneyDirections,
    ticketType: TicketType,
    change: Option<Money>)

  /** What a payment produces: a restated quote, or a ticket. */
  datatype Outcome = PriceInfo(info: PriceInformation) | TicketIssued(ticket: Ticket)

  /** Why a call fails. The first two stand for an exception thrown by a
      collaborator; the third is TicketReferenceNotFoundException. */
  datatype ServiceError =
    | DistanceUnavailable
    | PriceCalculationFailed
    | TicketReferenceNotFound(ticketId: TicketId)
}
