/** Option and Result values for the places where the dashboard code yields
    `undefined`, `NaN` or throws instead of returning a value. */
module Wrappers {

  datatype Option<+T> = None | Some(value: T)

  datatype Result<+T, +E> = Success(value: T) | Failure(error: E)
}
