/** Small shared datatypes: optional values, results carrying an error message,
    and bytes. */
module Wrappers {

  datatype Option<+T> = None | Some(value: T)

  /** The outcome of an operation that the program reports by raising or by
      returning an error string; `error` is the message text. */
  datatype Result<+R> = Success(value: R) | Failure(error: string)

  newtype byte = x: int | 0 <= x < 256

  type bytes = seq<byte>
}
