/** Small shared vocabulary: optional values, instants and the error codes the engine reports. */
module Prelude {

  datatype Option<+T> = None | Some(value: T)

  /** Identifiers are compared only for equality. */
  type Id = nat

  /** Milliseconds on the database clock. */
  type Time = int

  /** The `DomainError` codes that the modelled transactions can report. */
  datatype DomainError =
    | OperationUnavailable
    | OperationStateConflict
    | OperationNotFound
    | DeliveryUnavailable
    | DeliveryOptionNotAllowed
    | RateLimited
    | CooldownActive
    | InvalidRequest
    | PolicyNotAllowed
    | ProjectAccessDenied
    | ProjectInactive
    | ProjectConflict
    | ResourceConflict
    | InvalidRuntime
    | HistoryCursorExpired
    | IdempotencyConflict
    | RequestInProgress

  datatype Result<+T> = Success(value: T) | Failure(error: DomainError)

  function Max(a: int, b: int): (m: int)
    ensures m >= a && m >= b && (m == a || m == b)
  {
    if a < b then b else a
  }

  function Min(a: int, b: int): (m: int)
    ensures m <= a && m <= b && (m == a || m == b)
  {
    if a < b then a else b
  }

  /** SQL's `GREATEST` over a nullable column and a value. */
  function Latest(a: Option<Time>, b: Time): (m: Time)
    ensures m >= b && (a.Some? ==> m >= a.value)
  {
    if a.Some? then Max(a.value, b) else b
  }
}
