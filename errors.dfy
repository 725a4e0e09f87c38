/** Values the operations exchange with their callers: optional values,
    thrown JavaScript errors and the result of an operation that may throw. */
module Errors {

  datatype Option<+T> = None | Some(value: T)

  /** A thrown JavaScript error. `statusCode` is present on an HttpError and
      absent on any other error (a TypeError, a SyntaxError from JSON parsing,
      an error of the database client). An absent message is the empty string,
      as `new Error(undefined).message` is. */
  datatype Error = Error(statusCode: Option<int>, message: string)

  /** The outcome of an asynchronous operation: a value, or a rejection. */
  datatype Result<+T> = Ok(value: T) | Err(error: Error)

  /** `new HttpError(statusCode, message)` */
  function HttpError(statusCode: int, message: string): Error
  {
    Error(Some(statusCode), message)
  }

  /** `new HttpError(401)`: the rejection of a request without a user. */
  const Unauthorized := HttpError(401, "")

  /** Reading `user.id` when the context holds no user. */
  const NoUserTypeError := Error(None, "Cannot read properties of undefined (reading 'id')")

  /** The database client's rejection of an update that matches no row. */
  const RecordToUpdateNotFound := Error(None, "Record to update not found.")

  /** The database client's rejection of a delete that matches no row. */
  const RecordToDeleteNotFound := Error(None, "Record to delete does not exist.")

  /** JavaScript truthiness of an optional string: null, undefined and "" are falsy. */
  predicate Truthy(s: Option<string>)
  {
    s.Some? && s.value != ""
  }
}
