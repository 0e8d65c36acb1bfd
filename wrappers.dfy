/** The three failure-carrying wrappers the model uses: an optional value
    for a call that may raise or a key that may be absent, a result carrying
    either a value or the message of the exception the source raises, and
    the outcome of a call that returns nothing but may raise. */
module Wrappers {

  datatype Option<+T> = None | Some(value: T) {
    function GetOr(default: T): T {
      match this
      case Some(v) => v
      case None => default
    }
  }

  datatype Result<+T> = Ok(value: T) | Err(error: string)

  /** Success, or the message of the exception raised. */
  datatype Outcome = Success | Failure(error: string)

  /** Python truthiness of an optional string (an environment variable,
      a JSON field, as in `if not value`): present and not empty. */
  predicate IsSet(s: Option<string>) {
    s.Some? && s.value != ""
  }
}
