/** Small result types shared by every service model. */
module Wrappers {
  datatype Option<T> = None | Some(value: T)

  /** The two exception kinds the services raise on a bad request. */
  datatype Error = NotFound | BadRequest

  datatype Result<T> = Ok(value: T) | Err(error: Error)

  /** Outcome of an operation that returns nothing but may throw. */
  datatype Outcome = Done | Failed(error: Error)

  /** `o ?? d` for an optional value. */
  function OrElse<T>(o: Option<T>, d: T): T
  {
    match o
    case Some(v) => v
    case None => d
  }

  /** JavaScript truthiness of an optional string: present and not empty. */
  predicate Truthy(s: Option<string>)
  {
    s.Some? && s.value != ""
  }
}
