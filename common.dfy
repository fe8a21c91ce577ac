/**
 * Shared wrappers: an optional value (a JavaScript value that may be `undefined` or `null`)
 * and the outcome of a request handler, which either yields a value or ends in an HTTP error
 * carrying its status code and message.
 */
module Common {

  datatype Option<+T> = None | Some(value: T)

  /** Outcome of a handler: a value, or the status code and message of the error it reports. */
  datatype Result<+T> = Ok(value: T) | Err(status: nat, message: string)

  /** Status of a thrown `TypeError`/`ReferenceError`/driver error: it carries no `statusCode`,
      so every handler and the framework report it as 500. */
  const InternalError: nat := 500

  /** Identifier of a stored user (a MongoDB ObjectId, taken as an abstract number). */
  type UserId = nat

  /** Identifier of a stored video. */
  type VideoId = nat
}
