/** Small value types shared by the whole model. */
module Wrappers {

  datatype Option<+T> = None | Some(value: T)

  /** The outcome of one request to the booking backend, as the admin screen
      sees it: an ok response carrying its decoded body, a non-ok response whose
      JSON body may carry an `error` string, or a request that threw (no
      connection, or a body that is not JSON). */
  datatype Outcome<+T> = Ok(body: T) | Fail(msg: Option<string>) | ConnError

  /** JavaScript truthiness of a value that is either missing (null or
      undefined) or a string: only a present, non-empty string is truthy. */
  predicate Truthy(v: Option<string>)
  {
    v.Some? && v.value != ""
  }

  /** `a || b` where `a` is an optional string: `a` when it is truthy, else `b`. */
  function OrElse(a: Option<string>, b: string): (r: string)
    ensures Truthy(a) ==> r == a.value
    ensures !Truthy(a) ==> r == b
  {
    if a.Some? && a.value != "" then a.value else b
  }
}
