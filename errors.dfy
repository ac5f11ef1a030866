/** The crate's single error value and the result type its constructors return. */
module Errors {

  /** `ParseError`: carries no information, only that a value was refused. */
  datatype ParseError = ParseError

  datatype Result<T> = Ok(value: T) | Err(error: ParseError)
}
