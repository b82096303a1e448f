/** Optional values and the replies of the service calls. */
module Wrappers {

  datatype Option<+T> = None | Some(value: T)

  /** The exceptions a service call can throw, by HTTP class. */
  datatype Error = NotFound | BadRequest | Unauthorized | Forbidden | Conflict | ProviderFailed

  datatype Reply = Ok | Err(error: Error)

  function Min(a: int, b: int): int { if a <= b then a else b }

  function Max(a: int, b: int): int { if a >= b then a else b }
}
