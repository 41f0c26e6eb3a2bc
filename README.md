# Ticket quoting and payment reconciliation

A Dafny model of `TicketDistributionService` from the amqp-test ticket
service. The service does two things:

- It quotes a journey. It looks up the distance between the two
  locations, asks the price calculator for a price, and stores one quote
  (`TicketPriceDetails`: price, ticket type, to, from) in the quote
  repository. It returns a `PriceInformation` carrying the new quote's
  identifier and price.
- It reconciles a payment against a stored quote. An unknown identifier
  fails with `TicketReferenceNotFoundException`. A payment below the
  amount owed rewrites the quote's price to the balance and restates the
  quote. A payment that covers it issues a `Ticket`, with change only when
  it is nonzero, and deletes the quote.

So a quote runs Open, then Open at a reduced price any number of times,
then Deleted. The model proves that it does so.

Files:

- `wrappers.dfy`: `Option` and `Result`.
- `ticket_model.dfy` (module `TicketModel`): the value objects. Money is
  `real`, because `BigDecimal` subtraction and `compareTo` are exact. The
  repository is a `map` from identifier to `TicketPriceDetails`.
  `generateTicket` is declared to return `Ticket` but also returns a
  `PriceInformation`, so its result is the datatype `Outcome`, with
  variants `PriceInfo` and `TicketIssued`.
- `reconciliation.dfy` (module `Reconciliation`): the pure side.
  - `GetPriceInformation` builds the returned value (lines 75-81).
  - `Reconcile` is one payment as a transition of the repository. Its
    contract says what happens in each of the three cases.
  - `Replay` is a run of payments against one quote. The two lemmas after
    it prove how the partial-payment loop behaves.
- `ticket_distribution_service.dfy` (module `TicketDistribution`): the
  class `TicketDistributionService`. It has the repository and an
  identifier counter as fields. The two collaborators are constant fields
  of function type. `GenerateTicket` is proved to perform exactly the
  transition `Reconcile` describes. `ClientScenario` walks through one
  quote on a made-up tariff: quote, underpay, overpay, pay again.

The distance lookup and the price calculator are abstract. Each is any
total function that returns a number or `None`. `None` stands for the
collaborator throwing; that exception escapes before `save`, so nothing is
stored. No formula, monotonicity or discount is assumed for the
calculator.

Some consequences of modelling the code as it is written:

- Payments are not validated. A zero or negative amount goes through the
  same comparison as any other.
- Any check `PriceCalculator` makes on its input appears only as a
  calculator failure (`None`).
- On exact payment, `change` is absent, not zero.
- The ticket's `paidAmount` is the amount of the settling payment alone
  (line 84), not the running total. `SettlingPaymentIssuesTicket` states
  this.
- The class keeps a ghost set `issued` of every identifier handed out.
  A settled quote's identifier stays in it, so no later quote reuses it.

## Model

| member | source | states |
|---|---|---|
| `TicketDistribution.TicketDistributionService.GeneratePriceInformation` | src/main/java/test_amqp/TicketDistributionService.java:31-40 | when pricing succeeds, exactly one quote is added (size grows by one) under an identifier never handed out before (not even to a quote since settled), which joins the issued identifiers, holding the computed price, the request's ticket type, to and from, and no existing quote changes; the result carries the request's directions, the ticket type, that identifier and a total price equal to the stored price; when pricing fails the repository and the issued identifiers are unchanged |
| `TicketDistribution.TicketDistributionService.GenerateTicket` | src/main/java/test_amqp/TicketDistributionService.java:55-73 | the repository after the call and the returned result are exactly those of `Reconciliation.Reconcile` on the repository before the call; the identifier counter and the issued identifiers are unchanged |
| `TicketDistribution.TicketDistributionService.GetTicketAndClearDatabase` | src/main/java/test_amqp/TicketDistributionService.java:83-90 | the ticket has the payment's amount, the given directions and the quote's ticket type, with change set iff the required change is nonzero; the quote is deleted and nothing else in the repository changes |
| `Reconciliation.Reconcile` | src/main/java/test_amqp/TicketDistributionService.java:55-90 | unknown identifier: fails with TicketReferenceNotFound and the repository is unchanged; no quote other than the paid one ever changes; underpayment: the quote stays under the same identifier, its price is now the balance owed minus paid (strictly positive), its other fields are kept, and the result restates it with that balance, the same identifier and ticket type; exact or overpayment: the quote is removed and the ticket has the paid amount, the quote's directions and ticket type, and change present iff paid differs from owed, then equal to paid minus owed and positive |
| `Reconciliation.SettledQuoteIsGone` | src/main/java/test_amqp/TicketDistributionService.java:56-59 | after a payment settles a quote, any further payment on its identifier fails with TicketReferenceNotFound and changes nothing |
| `Reconciliation.Replay` | src/main/java/test_amqp/TicketDistributionService.java:55-73 | a run of payments against one quote yields one result per payment and leaves every other quote as it was |
| `Reconciliation.PartialPaymentsKeepQuoteOpen` | src/main/java/test_amqp/TicketDistributionService.java:64-69 | while every running total stays below the quoted price P, the quote stays stored with price P minus the total and its other fields unchanged, and the i-th payment returns the quote restated at P minus the sum of the first i+1 payments |
| `Reconciliation.SettlingPaymentIssuesTicket` | src/main/java/test_amqp/TicketDistributionService.java:64-90 | the first payment that brings the running total to at least P leaves the repository equal to the original without that quote; it returns a ticket for the last payment's amount, the quote's directions and ticket type, with change present iff the total differs from P and then equal to the total minus P; any later payment on that identifier fails |

`GetPriceInformation` (lines 75-81) only builds a value. What it yields
is stated in the contracts of `Reconcile` and `GeneratePriceInformation`.
`CalculatePriceBasedOnDistanceAndTicketType` (lines 43-53) only passes the
looked-up distance and the request's student flag, ticket count and ticket
type to the calculator; since both collaborators are abstract, it has no
contract of its own, and `GeneratePriceInformation` states the stored price
in terms of it.
`Sum`, `SumAppend` and `ReplayAppend` are helpers for the two loop lemmas.

## Left out

- Spring wiring (`@Service`, `@Autowired`) and the two Java constructors (lines 15-28): framework plumbing. The Dafny constructor only sets up the two collaborators and an empty repository.
- `GoogleMapsDistanceCalculator.calculateDistance` (line 45): an external mapping service. It is an abstract function in the model.
- The price formula of `PriceCalculator` (line 52) is not part of this model. `PriceRequestInternal`'s builder (lines 46-51) is modelled as a plain datatype value, because the builder's source is not part of this model either.
- JPA persistence: the id generation strategy is modelled as a counter that never hands out an identifier twice; the contracts promise only that a new identifier is unused. Transactions, the column scale of stored prices, and `save` on an already stored entity beyond replacing its value are not modelled.
- AMQP transport and request deserialization: no such code is in the modelled file.
- Concurrency: two concurrent partial payments on one quote could lose an update. The model runs one call at a time.
- The message text of `TicketReferenceNotFoundException` is not modelled; the failure carries the identifier only.
- `TicketType` and `Location` are strings here. The enum's constants and the location class are not part of this model, and the service only copies these values.
- `Ticket.setChange` (line 86) mutates a fresh `Ticket`. It is modelled as rebuilding a datatype value inside `GetTicketAndClearDatabase`, since no one else holds that object.
