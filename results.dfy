/** Failure-carrying values for the generator's error paths. A thrown JavaScript
    `Error` is represented by its `message` string. */
module Results {

  /** A computation that either yields a value or fails with an error message. */
  datatype Result<T> = Ok(value: T) | Err(message: string)

  /** A check that either passes or fails with an error message (a JavaScript
      function that returns nothing or throws). */
  datatype Outcome = Pass | Fail(message: string)

  /** An optional value; `None` stands for a JavaScript `undefined` argument. */
  datatype Option<T> = None | Some(value: T)
}
