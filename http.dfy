/** What a call to an external HTTP service gives back, once the request,
    `raise_for_status()` and `response.json()` have run: either a decoded
    JSON document or the exception that stopped them. */
module Http {
  import opened Json

  /** The exceptions the `requests` calls can raise. */
  datatype Failure =
    | TimedOut                 // requests.exceptions.Timeout
    | HttpError(status: int)   // raise_for_status() on a 4xx/5xx answer
    | ConnectionFailed         // any other transport error
    | InvalidJson              // response.json() could not decode the body

  datatype Reply = Received(data: Json) | Failed(failure: Failure)
}
