/** Optional values and results, standing in for JavaScript's `undefined`/`null`
    and for thrown errors. */
module Options {

  /** `None` is a missing value (`undefined` or `null`). */
  datatype Option<+T> = None | Some(value: T)

  /** A computation that either returns a value or throws an error. */
  datatype Result<+T, +E> = Success(value: T) | Failure(error: E)

  /** JavaScript truthiness of an optional string: present and not empty. */
  predicate Filled(o: Option<string>) {
    o.Some? && o.value != ""
  }
}
