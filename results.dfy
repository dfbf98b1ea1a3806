/**
 * Go's `(value, error)` convention. An `error` that may be nil is an
 * `Option<string>` (None is nil); a value-or-error pair is a `Result<T>`.
 */
module Results {

  datatype Option<+T> = None | Some(value: T)

  datatype Result<+T> = Ok(value: T) | Err(message: string)
}
