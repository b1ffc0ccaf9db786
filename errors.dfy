/** How the entrypoint descriptor's operations fail: as values here, where the
    JavaScript throws. */
module Errors {

  /** The shape a `sarcastic` check demanded when it rejected a value. */
  datatype Expected = AString | MaybeString | MaybeStringOrStringMap

  datatype Error =
    | ShapeError(expected: Expected)  // a `sarcastic` check rejected the stored value
    | TypeError                       // the JavaScript runtime threw (property access on undefined, ...)
    | ValidationError                 // `validateEntrypoint` rejected the entrypoint

  datatype Result<+T> = Ok(value: T) | Err(error: Error)

  datatype Outcome = Pass | Fail(error: Error)
}
