/** A success-or-failure value, used where the generator either returns a
    batch or aborts with the error that made it panic. */
module Wrappers {

  datatype Result<+T, +E> = Success(value: T) | Failure(error: E)
}
