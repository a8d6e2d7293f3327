/** Optional values and results for the model: `None` stands for a Java `null`, and
    `Failure` for an exception thrown out of a method. */
module Wrappers {

  datatype Option<+T> = None | Some(value: T)

  datatype Result<+R, +E> = Success(value: R) | Failure(error: E)
}
