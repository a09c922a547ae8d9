/** What a handler answers: `ApiResponse`, which the server maps to status
    200 with `{tx_hash}` or status 500 with the error message. */
module Api {

  datatype ApiResponse =
    | Success(txHash: string)
    | Error(message: string)      // ApiError::InternalError(message)

  /** A handler either returns a response or panics before producing one. */
  datatype Outcome = Responded(response: ApiResponse) | Panicked
}
