/** Failure-carrying values: the model's stand-in for JavaScript's
    `undefined` defaults, thrown errors and rejected promises. */
module Results {

  /** An optional value, as a JavaScript property that may be `undefined`. */
  datatype Option<+T> = None | Some(value: T) {
    function GetOr(default: T): T {
      match this
      case Some(v) => v
      case None => default
    }
  }

  /** The settled state of a promise that yields a value: resolved with
      `value`, or rejected with an error whose message is `error`. */
  datatype Result<+T> = Success(value: T) | Failure(error: string)

  /** The settled state of a promise that yields nothing. */
  datatype Outcome = Pass | Fail(error: string)
}
