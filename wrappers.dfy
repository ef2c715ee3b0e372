/** Option and Result, the shapes the model uses for JavaScript's `undefined` results
    and for promises that reject with an `Error(message)`. */
module Wrappers {

  datatype Option<+T> = None | Some(value: T)

  datatype Result<+T> = Success(value: T) | Failure(message: string)
}
