/** Optional values and error-or-value results shared by the model's modules. */
module Wrappers {

  /** A value that may be absent: `undefined` / `null` in the extension's TypeScript. */
  datatype Option<+T> = None | Some(value: T)

  /** Either a value or the exception raised instead of producing it. */
  datatype Result<+T, +E> = Ok(value: T) | Err(error: E)
}
