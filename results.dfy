/** Optional values (the `rating?` and `reviews?` fields of a business
    record) and the outcome of an operation that can report an error
    message instead of a value. */
module Results {
  datatype Option<+T> = None | Some(value: T)

  datatype Result<+T> = Ok(value: T) | Err(message: string)
}
