/** The error decoder of the customer service's Account client
    (customer-mongo FeignErrorDecoder): a 503 answer becomes retryable, so that
    the retryer gets a chance to repeat the call. */
module ErrorDecoder {
  import opened Common

  datatype HttpMethod = GET | POST | PUT | DELETE | PATCH | HEAD | OPTIONS

  datatype Request = Request(httpMethod: HttpMethod, url: string)

  datatype Response = Response(status: int, request: Request)

  /** The exceptions a decoder returns: a feign.RetryableException (which the
      client hands to the retryer) or any other exception (which it throws). */
  datatype DecodedException =
    | RetryableException(status: int, message: string, httpMethod: HttpMethod, retryAfter: Option<Date>, request: Request)
    | OtherException(status: int, message: string)
  {
    predicate Retryable() { RetryableException? }
  }

  /** A feign.RetryableException: what the decoder hands the retryer. */
  type Retryable = e: DecodedException | e.Retryable()
    witness RetryableException(SERVICE_UNAVAILABLE, "503 error", GET, None, Request(GET, ""))

  /** feign's ErrorDecoder.Default, which is not part of this model. */
  type DefaultDecoder = (string, Response) -> DecodedException

  /** `decode(methodKey, response)`: what the default decoder says, unless
      that is not retryable and the status is 503, in which case a new
      retryable "503 error" stamped with `now` and the response's request. */
  function Decode(defaultDecoder: DefaultDecoder, methodKey: string, response: Response, now: Date): (e: DecodedException)
    ensures defaultDecoder(methodKey, response).Retryable() ==> e == defaultDecoder(methodKey, response)
    ensures !defaultDecoder(methodKey, response).Retryable() && response.status == SERVICE_UNAVAILABLE ==>
      e == RetryableException(SERVICE_UNAVAILABLE, "503 error", response.request.httpMethod, Some(now), response.request)
    ensures !defaultDecoder(methodKey, response).Retryable() && response.status != SERVICE_UNAVAILABLE ==>
      e == defaultDecoder(methodKey, response)
  {
    var exception := defaultDecoder(methodKey, response);
    if exception.Retryable() then exception
    else if response.status == SERVICE_UNAVAILABLE then
      RetryableException(response.status, "503 error", response.request.httpMethod, Some(now), response.request)
    else exception
  }

  /** The decoded exception is retryable exactly when the default decoder's
      was or the answer was a 503. */
  lemma DecodeRetryableIff(defaultDecoder: DefaultDecoder, methodKey: string, response: Response, now: Date)
    ensures Decode(defaultDecoder, methodKey, response, now).Retryable() <==>
      defaultDecoder(methodKey, response).Retryable() || response.status == SERVICE_UNAVAILABLE
  {
  }

  /** Decoding keeps the status the default decoder reports, whenever that is
      the response's own status (as it is for feign's default decoder). */
  lemma DecodeKeepsStatus(defaultDecoder: DefaultDecoder, methodKey: string, response: Response, now: Date)
    requires defaultDecoder(methodKey, response).status == response.status
    ensures Decode(defaultDecoder, methodKey, response, now).status == response.status
  {
  }
}
