/**
 The two failure-carrying wrappers used throughout the model: an optional value
 (a decoder that may reject its input) and a result that is either a value or
 the exception the broker raises in its place.
 */
module Results {

  datatype Option<+T> = None | Some(value: T)

  datatype Result<+T, +E> = Ok(value: T) | Err(error: E)
}
