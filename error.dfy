/** The driver's error type and the result wrappers its operations return. */
module Errors {
  import opened Hal

  /** `BusError` wraps the bus capability's failure; `From<BusError>` is this constructor. */
  datatype Error =
    | BusError(cause: BusFault)
    | IllegalValue(value: int, min: int, max: int)
    | NotReady

  datatype Result<T> = Ok(value: T) | Err(error: Error)

  datatype Option<T> = None | Some(value: T)
}
