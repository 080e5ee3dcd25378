/** `InkressApiError` (src/client.ts): the single error shape every failed
    request is normalised into, and the retry decision made on it. */
module ApiErrors {
  import Json

  /** What a rejected promise carried before normalisation: an `Error` with
      its message, or a thrown value that is not an `Error`. */
  datatype Thrown = ErrorObject(message: string) | NonErrorValue

  /** The `data` of the error: the response's error document, or
      `{ error }` wrapping what was thrown. */
  datatype ErrorData = ResponseData(body: Json.Value) | Wrapped(cause: Thrown)

  /** `new InkressApiError(message, status, data)`; its `name` is always
      `'InkressApiError'`. */
  datatype ApiError = ApiError(message: string, status: int, data: ErrorData)

  /** The status of a failure that never produced an HTTP response. */
  const TransportStatus: int := 0

  /** The failure taxonomy: transport (status 0), server (5xx), client
      (4xx), and any other non-success status. */
  datatype ErrorKind = TransportFailure | ServerError | ClientError | OtherStatus

  function Classify(e: ApiError): (k: ErrorKind)
    ensures k == TransportFailure <==> e.status == 0
    ensures k == ServerError <==> e.status >= 500
    ensures k == ClientError <==> 400 <= e.status < 500
  {
    if e.status == TransportStatus then TransportFailure
    else if e.status >= 500 then ServerError
    else if 400 <= e.status < 500 then ClientError
    else OtherStatus
  }

  /** `HttpClient.shouldRetry`: retry on 5xx and on transport failures
      (timeouts included), never on anything else. */
  predicate ShouldRetry(e: ApiError): (r: bool)
    ensures r <==> Classify(e) == TransportFailure || Classify(e) == ServerError
  {
    e.status >= 500 || e.status == TransportStatus
  }
}
