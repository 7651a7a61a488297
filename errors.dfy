/** How an operation of the driver ends. The driver reports a failed bus
    transfer and stops; here that stop is a returned value instead of a
    process exit. */
module Errors {

  /** A write or read on the bus moved fewer bytes than asked for.
      `step` is the text the driver prints after "Error: Failed ". */
  datatype Failure = TransportError(step: string)

  /** Outcome of an operation that returns nothing. */
  datatype Outcome = Pass | Fail(failure: Failure)

  /** Outcome of an operation that returns a value. */
  datatype Result<+T> = Ok(value: T) | Err(failure: Failure)

  /** The outcome a result stands for, its value set aside. */
  function Status<T>(r: Result<T>): Outcome
  {
    match r
    case Ok(_) => Pass
    case Err(f) => Fail(f)
  }
}
