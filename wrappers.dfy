/** Failure-carrying values for the calls the request handler makes to external services. */
module Wrappers {

  datatype Option<+T> = None | Some(value: T)

  /** The outcome of a call that yields a value or fails with a human-readable cause. */
  datatype Result<+R> = Success(value: R) | Failure(cause: string)

  /** The outcome of a call that yields nothing or fails with a human-readable cause. */
  datatype Outcome = Pass | Fail(cause: string)

  /** Python truthiness of an optional string: present and non-empty. */
  predicate Truthy(o: Option<string>) {
    o.Some? && o.value != ""
  }
}
