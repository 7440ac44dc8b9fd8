/** Small value-carrying wrappers shared by the whole model. */
module Common {

  /** Python's `Optional[T]`: `None` or a present value. */
  datatype Option<+T> = None | Some(value: T)

  /** The outcome of an operation that may be rejected. */
  datatype Result<+T, +E> = Success(value: T) | Failure(error: E)

  /** What a route answers: a body, or an HTTP error status with its detail. */
  datatype Response<+T> = Ok(body: T) | HttpError(status: nat, detail: string)

  /** Status of a request refused by the seeding gate. */
  const ForbiddenStatus: nat := 403
  /** Status of a request refused because of its query parameters. */
  const UnprocessableStatus: nat := 422
  /** Status of a request whose store operation raised an error. */
  const ServerErrorStatus: nat := 500

  /** Python truthiness of an `Optional[str]`: `None` and `""` are falsy. */
  predicate Truthy(s: Option<string>)
  {
    s.Some? && s.value != ""
  }
}
