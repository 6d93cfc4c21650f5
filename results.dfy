/** Outcome of an operation that the program may abort with an exception. */
module Results {

  datatype Result<+T, +E> = Success(value: T) | Failure(error: E)
}
