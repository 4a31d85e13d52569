/** Option and Result: the error paths of the views, forms and serializers. */
module Wrappers {

  datatype Option<+T> = None | Some(value: T)

  /** Ok carries the value a call returns; Err names the exception or error
      response the source produces instead. */
  datatype Result<+T, +E> = Ok(value: T) | Err(error: E)
}
