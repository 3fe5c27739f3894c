/** Option and Result values, used for the optional slots of a column mapping and
    for the outcome of building a data set (a value or one of its errors). */
module Wrappers {

  datatype Option<+T> = None | Some(value: T)

  datatype Result<+T, +E> = Ok(value: T) | Err(error: E)
}
