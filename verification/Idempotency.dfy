/** The idempotency table that campaign and application requests go through. */
module Idempotency {
  import opened Wrappers
  import opened MarketTables

  function ExistingResponse(existing: Request, payload: Payload): Result<Record, Error> {
    if existing.payload != payload then Failure(IdempotencyKeyReuse)
    else if existing.response.None? then Failure(NoCommittedResponse)
    else Success(existing.response.value)
  }

  /** The answer to a key that is already in use; no answer when the caller claims the key. */
  function EarlierResponse(requests: map<(string, string), Request>, operation: string, key: string, payload: Payload)
    : Option<Result<Record, Error>>
  {
    if (operation, key) in requests then Some(ExistingResponse(requests[(operation, key)], payload)) else None
  }

  function Answer(t: Tables, response: Result<Record, Error>): Step<Record> {
    if response.Success? then Committed(response.value, t) else RolledBack(response.error)
  }

  /** The row inserted when the key is claimed, before there is a response. */
  function ClaimKey(requests: map<(string, string), Request>, operation: string, key: string, payload: Payload)
    : map<(string, string), Request>
  {
    requests[(operation, key) := Request(payload, None)]
  }

  function CompleteKey(requests: map<(string, string), Request>, operation: string, key: string, record: Record)
    : map<(string, string), Request>
    requires (operation, key) in requests
  {
    requests[(operation, key) := requests[(operation, key)].(response := Some(record))]
  }

  /** What a committed request leaves behind. */
  function Remember(requests: map<(string, string), Request>, operation: string, key: string, payload: Payload, record: Record)
    : map<(string, string), Request>
  {
    requests[(operation, key) := Request(payload, Some(record))]
  }

  lemma ClaimThenComplete(requests: map<(string, string), Request>, operation: string, key: string, payload: Payload, record: Record)
    ensures CompleteKey(ClaimKey(requests, operation, key, payload), operation, key, record)
            == Remember(requests, operation, key, payload, record)
  {
  }
}
