/** The canonical message envelope every producer and consumer of the event
    transport shares. The payload type is chosen per envelope. */
module Envelope {
  import opened Outcomes

  /** Where a message comes from; the correlation id and the retry count are
      optional. */
  datatype Metadata = Metadata(source: string, correlationId: Option<string>, retryCount: Option<int>)

  /** `KafkaMessage<T>`: id, type and version are required strings, the
      timestamp is optional. */
  datatype KafkaMessage<T> = KafkaMessage(
    eventId: string,
    eventType: string,
    version: string,
    payload: T,
    timestamp: Option<int>,
    metadata: Metadata)
}
