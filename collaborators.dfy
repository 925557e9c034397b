/** The three collaborators the booking service is given: the customer
    repository, the inventory service client and the Kafka producer. Their
    internals are not modelled; each is the state the service reads or
    extends. */
module Collaborators {
  import opened BookingTypes

  /** The customer directory, a keyed store the service only reads. Its
      contents may change between calls through code outside this model. */
  class CustomerRepository {
    var customers: map<UserId, Customer>

    /** A repository keyed by id hands back the customer stored under that id. */
    ghost predicate Valid()
      reads this
    {
      forall id :: id in customers ==> customers[id].id == id
    }

    constructor (customers: map<UserId, Customer>)
      requires forall id :: id in customers ==> customers[id].id == id
      ensures this.customers == customers && Valid()
    {
      this.customers := customers;
    }

    /** Looks a customer up by id; absent when no customer has that id. */
    function FindById(id: UserId): (r: Option<Customer>)
      reads this
      ensures r.Some? <==> id in customers
      ensures r.Some? ==> r.value == customers[id]
      ensures Valid() && r.Some? ==> r.value.id == id
    {
      if id in customers then Some(customers[id]) else None
    }
  }

  /** The remote inventory service. `inventory` is what the remote service
      would answer now; it may change between calls. Every call is recorded in
      `lookups`, so that a caller can state which lookups it made. */
  class InventoryServiceClient {
    var inventory: map<EventId, InventoryResponse>
    ghost var lookups: seq<EventId>

    constructor (inventory: map<EventId, InventoryResponse>)
      ensures this.inventory == inventory && lookups == []
    {
      this.inventory := inventory;
      lookups := [];
    }

    /** Fetches the current inventory of an event. An event the service does
        not know makes the call fail. */
    method GetInventory(eventId: EventId) returns (r: Result<InventoryResponse>)
      modifies this`lookups
      ensures lookups == old(lookups) + [eventId]
      ensures r.Ok? <==> eventId in inventory
      ensures r.Ok? ==> r.value == inventory[eventId]
      ensures r.Err? ==> r.error == InventoryLookupFailed(eventId)
    {
      lookups := lookups + [eventId];
      if eventId in inventory {
        r := Ok(inventory[eventId]);
      } else {
        r := Err(InventoryLookupFailed(eventId));
      }
    }
  }

  /** The Kafka producer, seen as the log of records handed to it. */
  class KafkaTemplate {
    var log: seq<ProducerRecord>

    constructor ()
      ensures log == []
    {
      log := [];
    }

    /** Hands one record to the producer. The send is not awaited and cannot
        fail here. */
    method Send(topic: string, value: BookingEvent)
      modifies this
      ensures log == old(log) + [ProducerRecord(topic, value)]
    {
      log := log + [ProducerRecord(topic, value)];
    }
  }
}
