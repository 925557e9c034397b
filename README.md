# Booking service: a Dafny model of the booking workflow

This project models the booking workflow of a ticket-booking microservice.
The service receives a booking request (customer id, event id, ticket count).
It looks the customer up in the customer repository and fails with
"User not found" when there is none. It then asks the inventory service for
the event's remaining capacity and ticket price, and fails with
"Not enough inventory" when the capacity is smaller than the ticket count.
Otherwise it prices the booking as ticket price times ticket count, builds an
immutable booking event, sends it to the Kafka topic `booking`, and returns a
response that copies the event's four fields.

Files:

- `types.dfy` (module `BookingTypes`): the request, customer, inventory answer,
  booking event and response records; the failures (`RuntimeException` with the
  source's two messages, and a failed inventory lookup); the topic name.
- `collaborators.dfy` (module `Collaborators`): the three injected collaborators.
  The customer repository holds a map with a `FindById` lookup. The inventory
  client holds a map of what the remote service would answer now; it records
  every lookup in a ghost trace. The service only reads both maps; their
  contents may change between calls.
  The Kafka producer is the log of records handed to it.
- `booking_service.dfy` (module `BookingService`): `CreateBookingEvent`, the
  specification function `BookingOutcome` that says how one call ends, the
  pricing lemmas, and the class `BookingService` whose `CreateBooking` method
  runs the workflow against its collaborators.

The class `BookingService` records, as ghost state, each event it has published
together with the customer and the inventory answer it read for that call. Its
invariant `BookingService.Valid` says that the repository is keyed by id and
that each recorded event was admitted by the answers read at the time: the
capacity covered the ticket count, and the event is the one built from that
customer, that request and that ticket price. It does not depend on what the
directory and the inventory hold later, and it says nothing about the producer
log, so other code may send on the same producer between calls.
`CreateBooking` keeps it. Its contract ties the response, the new log and the
new record to `BookingOutcome`, and states the log only relative to its
contents before the call. The lemmas beside `BookingOutcome` state the
properties of the workflow.

Prices are exact decimals in the source (`BigDecimal` multiplied by the count).
They are `real` here, so the multiplication is exact.
`TotalIsRepeatedSum` proves that the product is the sum of one unit price per
ticket.

The model follows the code on four points:

- The code sends the event without waiting for the broker and has no
  publish-failure path. The model's send always appends.
- The code sends the record without a key, so nothing partitions the events by
  event id.
- The code does not check that the ticket count is positive. The model does not
  either; `NonPositiveCountIsAccepted` states the consequence.
- The code has no handling of its own for an unreachable repository or
  inventory service. A failed inventory lookup is the inventory client's
  exception and propagates unchanged.

## Model

| member | source | states |
|---|---|---|
| `Collaborators.CustomerRepository.FindById` | src/main/java/com/example/inix/bookingservice/service/BookingService.java:33 | a customer is found exactly when the id is in the directory; the result is the stored customer, whose id is the id asked for |
| `Collaborators.InventoryServiceClient.GetInventory` | src/main/java/com/example/inix/bookingservice/service/BookingService.java:38 | returns the event's stored capacity and price, or fails for an unknown event; each call is recorded in the lookup trace |
| `Collaborators.KafkaTemplate.Send` | src/main/java/com/example/inix/bookingservice/service/BookingService.java:46 | appends exactly one record (topic, event) to the producer log; earlier records are unchanged |
| `BookingService.TotalIsRepeatedSum` | src/main/java/com/example/inix/bookingservice/service/BookingService.java:63 | ticket price times a non-negative count equals the price added once per ticket, with nothing lost to rounding |
| `BookingService.CreateBookingEvent` | src/main/java/com/example/inix/bookingservice/service/BookingService.java:56-65 | the event carries the found customer's id and the request's event id and ticket count; its total is the exact sum of one ticket price per ticket (negated for a negative count); dividing the total by a non-zero count gives back the ticket price |
| `BookingService.BookingOutcome` | src/main/java/com/example/inix/bookingservice/service/BookingService.java:33-44 | fails with "User not found" iff the customer is unknown; the inventory failure iff the customer is known and the event unknown; "Not enough inventory" iff both are known and capacity < ticket count; succeeds iff both are known and ticket count <= capacity, with the event built from them; with a repository keyed by id, the published event has the request's user id, event id and count, and is admitted |
| `BookingService.AdmittedIsBooked` | src/main/java/com/example/inix/bookingservice/service/BookingService.java:40-44 | every admitted event is what the workflow publishes for the request naming its customer, event and count |
| `BookingService.WholeCapacityIsAccepted` | src/main/java/com/example/inix/bookingservice/service/BookingService.java:40 | the capacity check is strict, so a request for exactly the remaining capacity succeeds |
| `BookingService.NonPositiveCountIsAccepted` | src/main/java/com/example/inix/bookingservice/service/BookingService.java:40-44 | a zero or negative count passes any non-negative capacity and is priced as the negated price of that many tickets, since the count is never validated |
| `BookingService.FewerTicketsStillAdmitted` | src/main/java/com/example/inix/bookingservice/service/BookingService.java:40 | since the count is used only in the capacity check, an admitted request is still admitted with any smaller ticket count |
| `BookingService.OutcomeReadsOnlyNamedEntries` | src/main/java/com/example/inix/bookingservice/service/BookingService.java:33-44 | the outcome depends only on the directory entry for the request's user id and the inventory entry for its event id |
| `BookingService.BookingService.constructor` | src/main/java/com/example/inix/bookingservice/service/BookingService.java:22-29 | the service holds the three collaborators it is given and starts with nothing published and its invariant established |
| `BookingService.BookingService.Publish` | src/main/java/com/example/inix/bookingservice/service/BookingService.java:46 | sending an event admitted by the customer and inventory answer just read appends exactly that record on the `booking` topic, records the admission, and keeps the invariant |
| `BookingService.BookingService.CreateBooking` | src/main/java/com/example/inix/bookingservice/service/BookingService.java:31-54 | the call ends as `BookingOutcome` decides against the directory and inventory as they are at the call; on failure the producer log and the admission record are unchanged; the inventory is consulted only when the customer exists; on success exactly one record is appended on the `booking` topic, earlier records are kept, and the response's user id, event id, count and total equal the published event's; the admission record gains that event with the customer and inventory answer read; the directory and inventory are unchanged; the invariant is kept |
| `BookingService.Scenarios` | src/main/java/com/example/inix/bookingservice/service/BookingService.java:31-65 | worked cases: two tickets at 25.00 book for 50.00; an unknown customer fails with "User not found"; five tickets against capacity one fail with "Not enough inventory"; three tickets at 19.99 total exactly 59.97 |

## Left out

- The HTTP controller (`BookingController`), JSON binding and Spring routing: transport only; the controller forwards the request unchanged.
- Spring dependency injection: the collaborators are constructor parameters of `BookingService.BookingService`.
- Logging of the inventory response and of the sent event: no behaviour.
- Kafka delivery, acknowledgement, partitioning and durability: the send is fire-and-forget in the source, so it is modelled only as an append to the producer log.
- The internals of the customer repository and of the inventory client: only the lookup behaviour the booking service relies on is modelled, as map lookups. The Java field types of the collaborators, the entity and the request, event and response classes are not visible, so identifiers are strings and counts are unbounded integers (no `long` overflow is modelled).
- Null fields: the model's types have no null. In the source a null user id makes the repository lookup throw (BookingService.java line 33); a null ticket count or capacity throws a NullPointerException at the capacity check (line 40); a null ticket price throws at the price computation (line 63), after the capacity check and before the send. Each ends the call with nothing sent.
- Changes to the directory or the inventory: the model lets them change between calls, but it does not model who changes them or any change during a call.
- Collaborators.InventoryServiceClient.GetInventory: an unknown event, a remote error or a null answer would each end the call with an exception before anything is sent. The model folds them into one failure for an unknown event id and does not distinguish their kinds.
- `BigDecimal` scale (50 versus 50.00): totals are compared as numbers, not as scaled decimals.
- The race between the inventory read and later consumption of the event (overselling): a concurrency concern, and the source reserves nothing.
