/** The HTTP shapes both services answer with. */
module Http {
  /** The 400 Bad Request exception with its message. */
  datatype BadRequest = BadRequest(message: string)

  /** The `{ data: ... }` response body. */
  datatype Wrapped<T> = Wrapped(data: T)
}
