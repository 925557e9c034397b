/** The booking workflow: look the customer up, read the event's inventory,
    price the booking, publish the booking event on the "booking" topic and
    answer with a copy of the event. */
module BookingService {
  import opened BookingTypes
  import opened Collaborators

  /** The price of `n` tickets added up one ticket at a time: the reference
      against which the single multiplication is checked. */
  function RepeatedSum(ticketPrice: real, n: nat): (total: real) {
    if n == 0 then 0.0 else RepeatedSum(ticketPrice, n - 1) + ticketPrice
  }

  /** Multiplying the unit price by the ticket count loses nothing: it is the
      exact sum of one unit price per ticket. */
  lemma {:induction false} TotalIsRepeatedSum(ticketPrice: real, n: nat)
    ensures ticketPrice * n as real == RepeatedSum(ticketPrice, n)
  {
    if n > 0 {
      TotalIsRepeatedSum(ticketPrice, n - 1);
      calc {
        ticketPrice * n as real;
        ticketPrice * (n - 1) as real + ticketPrice;
      }
    }
  }

  /** Builds the event for an admitted request: the found customer's id, the
      request's event and ticket count, and the price of that many tickets. */
  function CreateBookingEvent(request: BookingRequest, customer: Customer, inventory: InventoryResponse): (e: BookingEvent)
    ensures e.userId == customer.id
    ensures e.eventId == request.eventId && e.ticketCount == request.ticketCount
    ensures request.ticketCount >= 0 ==> e.totalPrice == RepeatedSum(inventory.ticketPrice, request.ticketCount)
    ensures request.ticketCount < 0 ==> e.totalPrice == -RepeatedSum(inventory.ticketPrice, -request.ticketCount)
    ensures request.ticketCount != 0 ==> e.totalPrice / request.ticketCount as real == inventory.ticketPrice
  {
    var n := request.ticketCount;
    TotalIsRepeatedSum(inventory.ticketPrice, if n >= 0 then n else -n);
    BookingEvent(customer.id, request.eventId, n, inventory.ticketPrice * n as real)
  }

  /** The response copies the event's fields. */
  function Respond(e: BookingEvent): (resp: BookingResponse) {
    BookingResponse(e.userId, e.eventId, e.ticketCount, e.totalPrice)
  }

  /** An event that the workflow may publish for this customer and this
      inventory answer: room for the tickets, and the event built from
      exactly those. */
  ghost predicate Admits(customer: Customer, answer: InventoryResponse, e: BookingEvent) {
    && e.ticketCount <= answer.capacity
    && e == CreateBookingEvent(BookingRequest(e.userId, e.eventId, e.ticketCount), customer, answer)
  }

  /** An event that the workflow may publish against this directory and this
      inventory: a known customer and a known event that admit it. */
  ghost predicate Admitted(customers: map<UserId, Customer>, inventory: map<EventId, InventoryResponse>, e: BookingEvent) {
    && e.userId in customers
    && e.eventId in inventory
    && Admits(customers[e.userId], inventory[e.eventId], e)
  }

  /** What one call decides, given the directory and the inventory: which
      failure ends it, or which event it publishes. */
  function BookingOutcome(customers: map<UserId, Customer>, inventory: map<EventId, InventoryResponse>, request: BookingRequest): (r: Result<BookingEvent>)
    ensures r == Err(UserNotFound) <==> request.userId !in customers
    ensures r == Err(InventoryLookupFailed(request.eventId)) <==>
              request.userId in customers && request.eventId !in inventory
    ensures r == Err(NotEnoughInventory) <==>
              && request.userId in customers
              && request.eventId in inventory
              && inventory[request.eventId].capacity < request.ticketCount
    ensures r.Ok? <==>
              && request.userId in customers
              && request.eventId in inventory
              && request.ticketCount <= inventory[request.eventId].capacity
    ensures r.Ok? ==> r.value == CreateBookingEvent(request, customers[request.userId], inventory[request.eventId])
    ensures (forall id :: id in customers ==> customers[id].id == id) && r.Ok? ==>
              && r.value == BookingEvent(request.userId, request.eventId, request.ticketCount, r.value.totalPrice)
              && Admitted(customers, inventory, r.value)
  {
    if request.userId !in customers then
      Err(UserNotFound)
    else if request.eventId !in inventory then
      Err(InventoryLookupFailed(request.eventId))
    else if inventory[request.eventId].capacity < request.ticketCount then
      Err(NotEnoughInventory)
    else
      Ok(CreateBookingEvent(request, customers[request.userId], inventory[request.eventId]))
  }

  /** Every admitted event is what the workflow publishes for the request that
      names its customer, event and ticket count. */
  lemma AdmittedIsBooked(customers: map<UserId, Customer>, inventory: map<EventId, InventoryResponse>, e: BookingEvent)
    requires forall id :: id in customers ==> customers[id].id == id
    requires Admitted(customers, inventory, e)
    ensures BookingOutcome(customers, inventory, BookingRequest(e.userId, e.eventId, e.ticketCount)) == Ok(e)
  {
  }

  /** The capacity check is strict: asking for exactly the remaining capacity
      is accepted. */
  lemma WholeCapacityIsAccepted(customers: map<UserId, Customer>, inventory: map<EventId, InventoryResponse>, request: BookingRequest)
    requires request.userId in customers && request.eventId in inventory
    requires request.ticketCount == inventory[request.eventId].capacity
    ensures BookingOutcome(customers, inventory, request).Ok?
  {
  }

  /** Nothing checks that the ticket count is positive: a zero or negative
      count passes the capacity check of any event with non-negative capacity,
      and its total is the negated price of that many tickets. */
  lemma NonPositiveCountIsAccepted(customers: map<UserId, Customer>, inventory: map<EventId, InventoryResponse>, request: BookingRequest)
    requires request.userId in customers && request.eventId in inventory
    requires request.ticketCount <= 0 <= inventory[request.eventId].capacity
    ensures BookingOutcome(customers, inventory, request).Ok?
    ensures BookingOutcome(customers, inventory, request).value.totalPrice
              == -RepeatedSum(inventory[request.eventId].ticketPrice, -request.ticketCount)
  {
  }

  /** The capacity check is the only one that depends on the ticket count,
      so a request that is admitted stays admitted with fewer tickets. */
  lemma FewerTicketsStillAdmitted(customers: map<UserId, Customer>, inventory: map<EventId, InventoryResponse>, request: BookingRequest, m: int)
    requires BookingOutcome(customers, inventory, request).Ok?
    requires m <= request.ticketCount
    ensures BookingOutcome(customers, inventory, request.(ticketCount := m)).Ok?
  {
  }

  /** A call reads only the customer it names and the event it names: two
      directories and two inventories that agree on those entries give the
      same outcome. */
  lemma OutcomeReadsOnlyNamedEntries(customers: map<UserId, Customer>, inventory: map<EventId, InventoryResponse>,
                                     customers': map<UserId, Customer>, inventory': map<EventId, InventoryResponse>,
                                     request: BookingRequest)
    requires (request.userId in customers <==> request.userId in customers')
    requires request.userId in customers ==> customers[request.userId] == customers'[request.userId]
    requires (request.eventId in inventory <==> request.eventId in inventory')
    requires request.eventId in inventory ==> inventory[request.eventId] == inventory'[request.eventId]
    ensures BookingOutcome(customers, inventory, request) == BookingOutcome(customers', inventory', request)
  {
  }

  /** One published event with the customer and the inventory answer that
      admitted it. */
  datatype Admission = Admission(customer: Customer, answer: InventoryResponse, event: BookingEvent)

  /** The booking service, given its three collaborators when it is built. */
  class BookingService {
    const customerRepository: CustomerRepository
    const inventoryServiceClient: InventoryServiceClient
    const kafkaTemplate: KafkaTemplate

    /** Every event this service has published, with the customer and the
        inventory answer it was checked against. */
    ghost var admissions: seq<Admission>

    /** The repository is keyed by id, and every event the service has
        published was admitted by the answers it read at the time, whatever
        the directory and the inventory hold now. */
    ghost predicate Valid()
      reads this, customerRepository
    {
      && customerRepository.Valid()
      && forall i :: 0 <= i < |admissions| ==> Admits(admissions[i].customer, admissions[i].answer, admissions[i].event)
    }

    /** What the workflow decides for `request` against this service's
        directory and inventory. */
    function Outcome(request: BookingRequest): (r: Result<BookingEvent>)
      reads customerRepository`customers, inventoryServiceClient`inventory
    {
      BookingOutcome(customerRepository.customers, inventoryServiceClient.inventory, request)
    }

    constructor (customerRepository: CustomerRepository, inventoryServiceClient: InventoryServiceClient, kafkaTemplate: KafkaTemplate)
      requires customerRepository.Valid()
      ensures this.customerRepository == customerRepository
      ensures this.inventoryServiceClient == inventoryServiceClient
      ensures this.kafkaTemplate == kafkaTemplate
      ensures admissions == [] && Valid()
    {
      this.customerRepository := customerRepository;
      this.inventoryServiceClient := inventoryServiceClient;
      this.kafkaTemplate := kafkaTemplate;
      admissions := [];
    }

    /** Sends an event, admitted by the customer and inventory answer just
        read, to the booking topic. */
    method Publish(e: BookingEvent, ghost customer: Customer, ghost answer: InventoryResponse)
      requires Valid() && Admits(customer, answer, e)
      modifies this`admissions, kafkaTemplate
      ensures Valid()
      ensures admissions == old(admissions) + [Admission(customer, answer, e)]
      ensures kafkaTemplate.log == old(kafkaTemplate.log) + [ProducerRecord(BookingTopic, e)]
    {
      kafkaTemplate.Send(BookingTopic, e);
      admissions := admissions + [Admission(customer, answer, e)];
    }

    /** Books tickets: fails when the customer is unknown, when the inventory
        lookup fails or when too few tickets remain; otherwise publishes one
        booking event and returns a copy of it. */
    method CreateBooking(request: BookingRequest) returns (r: Result<BookingResponse>)
      requires Valid()
      modifies this`admissions, kafkaTemplate, inventoryServiceClient`lookups
      ensures Valid()
      // the directory and the inventory are only read
      ensures customerRepository.customers == old(customerRepository.customers)
      ensures inventoryServiceClient.inventory == old(inventoryServiceClient.inventory)
      // the call ends as the workflow decides, and publishes exactly the admitted event
      ensures Outcome(request).Err? ==>
                && r == Err(Outcome(request).error)
                && admissions == old(admissions)
                && kafkaTemplate.log == old(kafkaTemplate.log)
      ensures Outcome(request).Ok? ==>
                && r == Ok(Respond(Outcome(request).value))
                && admissions == old(admissions) + [Admission(customerRepository.customers[request.userId],
                                                              inventoryServiceClient.inventory[request.eventId],
                                                              Outcome(request).value)]
                && kafkaTemplate.log == old(kafkaTemplate.log) + [ProducerRecord(BookingTopic, Outcome(request).value)]
      // the inventory is asked only once the customer is found
      ensures inventoryServiceClient.lookups ==
                old(inventoryServiceClient.lookups) + (if request.userId in customerRepository.customers then [request.eventId] else [])
      // on success exactly one record is appended, and the response mirrors it
      ensures r.Ok? ==>
                && |kafkaTemplate.log| == |old(kafkaTemplate.log)| + 1
                && kafkaTemplate.log[..|old(kafkaTemplate.log)|] == old(kafkaTemplate.log)
                && var published := kafkaTemplate.log[|old(kafkaTemplate.log)|];
                && published.topic == BookingTopic
                && r.value.userId == published.value.userId == request.userId
                && r.value.eventId == published.value.eventId == request.eventId
                && r.value.ticketCount == published.value.ticketCount == request.ticketCount
                && r.value.totalPrice == published.value.totalPrice
    {
      ghost var outcome := Outcome(request);
      var customer := customerRepository.FindById(request.userId);
      if customer.None? {
        return Err(UserNotFound);
      }
      var inventoryResponse := inventoryServiceClient.GetInventory(request.eventId);
      if inventoryResponse.Err? {
        return Err(inventoryResponse.error);
      }
      if inventoryResponse.value.capacity < request.ticketCount {
        return Err(NotEnoughInventory);
      }
      var bookingEvent := CreateBookingEvent(request, customer.value, inventoryResponse.value);
      assert outcome == Ok(bookingEvent);
      Publish(bookingEvent, customer.value, inventoryResponse.value);
      r := Ok(Respond(bookingEvent));
    }
  }

  /** Worked examples: a two-ticket booking at 25.00, an unknown customer, a
      request beyond capacity, and an exact decimal total of 3 x 19.99. */
  lemma Scenarios()
    ensures var customers := map["u1" := Customer("u1")];
            var inventory := map["e1" := InventoryResponse(10, 25.00)];
            BookingOutcome(customers, inventory, BookingRequest("u1", "e1", 2)) == Ok(BookingEvent("u1", "e1", 2, 50.00))
    ensures BookingOutcome(map["u1" := Customer("u1")], map["e1" := InventoryResponse(10, 25.00)], BookingRequest("ghost", "e1", 2))
              == Err(UserNotFound)
    ensures BookingOutcome(map["u1" := Customer("u1")], map["e1" := InventoryResponse(1, 25.00)], BookingRequest("u1", "e1", 5))
              == Err(NotEnoughInventory)
    ensures CreateBookingEvent(BookingRequest("u1", "e1", 3), Customer("u1"), InventoryResponse(10, 19.99)).totalPrice == 59.97
  {
  }
}
