/** The value types the booking workflow passes around: the caller's request,
    the customer entity, the inventory snapshot, the published event, the
    response view, and the failures the workflow can end in. */
module BookingTypes {

  /** Identifiers of customers and of ticketed events. */
  type UserId = string
  type EventId = string

  datatype Option<T> = None | Some(value: T)

  /** A booking request as the caller supplies it. Nothing checks that
      `ticketCount` is positive. */
  datatype BookingRequest = BookingRequest(userId: UserId, eventId: EventId, ticketCount: int)

  /** A customer as the customer directory stores it; only its id is used. */
  datatype Customer = Customer(id: UserId)

  /** The inventory service's answer for one event: how many tickets remain and
      what one ticket costs. The price is an exact decimal, hence `real`. */
  datatype InventoryResponse = InventoryResponse(capacity: int, ticketPrice: real)

  /** The immutable event that is published on the booking topic. */
  datatype BookingEvent = BookingEvent(userId: UserId, eventId: EventId, ticketCount: int, totalPrice: real)

  /** The confirmation returned to the caller. */
  datatype BookingResponse = BookingResponse(userId: UserId, eventId: EventId, ticketCount: int, totalPrice: real)

  /** How a booking can fail. The workflow itself throws two runtime
      exceptions, told apart only by their messages; a failing inventory
      lookup is an exception of the inventory client that the workflow lets
      through unhandled. */
  datatype BookingError =
    | RuntimeException(message: string)
    | InventoryLookupFailed(eventId: EventId)

  const UserNotFound: BookingError := RuntimeException("User not found")
  const NotEnoughInventory: BookingError := RuntimeException("Not enough inventory")

  datatype Result<T> = Ok(value: T) | Err(error: BookingError)

  /** The Kafka topic that booking events are sent to. */
  const BookingTopic: string := "booking"

  /** One message handed to the Kafka producer: a topic and a value, no key. */
  datatype ProducerRecord = ProducerRecord(topic: string, value: BookingEvent)
}
