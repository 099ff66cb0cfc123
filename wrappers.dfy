/** The optional value and the error-carrying result the model uses where the
    source returns a null pointer, a `false` flag or throws. */
module Wrappers {

  datatype Option<T> = None | Some(value: T) {
    predicate IsSome() {
      this.Some?
    }
  }

  datatype Result<T, E> = Success(value: T) | Failure(error: E)
}
