/** Option and Result, used for the source's optional fields, nullable
    payloads and thrown errors. */
module Wrappers {

  datatype Option<+T> = None | Some(value: T) {
    function GetOr(default: T): T {
      match this
      case Some(v) => v
      case None => default
    }
  }

  /** JavaScript truthiness of an optional string: present and non-empty. */
  predicate IsTruthy(s: Option<string>) {
    s.Some? && s.value != ""
  }

  datatype Result<+R, +E> = Success(value: R) | Failure(error: E)

  /** A thrown JavaScript value: whether it is an `Error` instance, and its
      `message` (empty when it has none). */
  datatype Thrown = Thrown(isError: bool, message: string)
}
