/** Failure-carrying values shared by the model: JavaScript `null`/`undefined`
    becomes `None`, a thrown `Error` becomes `Err` carrying its `message`. */
module Results {

  datatype Option<T> = None | Some(value: T)

  /** The value of an awaited call, or the message of the error it threw. */
  datatype Result<T> = Ok(value: T) | Err(message: string)

  /** An awaited call whose value is not used: it completed, or it threw. */
  datatype Outcome = Pass | Fail(message: string)
}
