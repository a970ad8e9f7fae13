/** The wire records of internal/api, cut down to the fields the modelled code reads. */
module Api {
  import opened Seqs

  /** A text timestamp: a parseable one denotes an instant in nanoseconds. */
  datatype TimeText = Garbled | At(nanos: int)

  type Time = int

  const SECOND: Time := 1_000_000_000

  const DAY: Time := 86_400 * SECOND

  /** A normalized event. `cost` stands for CostUSD in exact units. */
  datatype NormalizedEvent = NormalizedEvent(
    eventName: Option<string>,
    timestamp: Option<TimeText>,
    sessionId: Option<string>,
    model: Option<string>,
    toolName: Option<string>,
    costUsd: Option<real>,
    inputTokens: Option<int>,
    outputTokens: Option<int>,
    cacheReadTokens: Option<int>,
    cacheCreateTokens: Option<int>,
    repo: Option<string>,
    errorMessage: Option<string>)

  /** What POST /ingest/v1/events carries per event: the idempotency key and the record. */
  datatype WireEvent = WireEvent(eventId: nat, event: NormalizedEvent)
}
