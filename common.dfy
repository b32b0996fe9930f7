/** Outcome types shared by every module: an optional value, the error
    taxonomy of the HTTP layer, and the "field sent / not sent" marker of a
    PATCH body. */
module Common {

  datatype Option<+T> = None | Some(value: T)

  /** The failures the endpoints raise, by kind, each with the detail text
      the source attaches to it (HTTP status codes are not modelled). */
  datatype Error =
    | Validation(detail: string)   // 400 from a check on the input
    | NotFound(detail: string)     // 404
    | Forbidden(detail: string)    // 403 from a role gate
    | Duplicate(detail: string)    // 400 from a uniqueness check
    | ServerError(detail: string)  // 500 when a response does not fit its schema

  datatype Result<+T> = Ok(value: T) | Err(error: Error)

  /** A field of a PATCH body: `Unset` when the client did not send it
      (pydantic's `exclude_unset`), `Set(v)` when it did. */
  datatype Field<+T> = Unset | Set(value: T)
}
