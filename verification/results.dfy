/** Failure-carrying values used in place of the calculator's exceptions.

- Option<T>: a lookup that may find nothing (a missing dictionary key).
- Result<R, E>: either a value or the diagnostic the property engine raised.
 */
module Results {

  datatype Option<+T> = None | Some(value: T)

  datatype Result<+R, +E> = Success(value: R) | Failure(error: E)
}
