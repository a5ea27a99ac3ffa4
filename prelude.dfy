/** Optional values and error-carrying results shared by the bot's modules. */
module Prelude {

  /** A value that may be absent: JavaScript's `null` / `undefined` where the code tests `!= null`. */
  datatype Option<+T> = None | Some(value: T)

  /** Either a value or an error the code would throw. */
  datatype Result<+T, +E> = Success(value: T) | Failure(error: E)
}
