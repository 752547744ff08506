/**
 * The decision part of the HTTP error handler: whether an error is trusted,
 * and what status and body the response gets. Writing to the response is
 * modelled as the `Response` value that would be written.
 */
module ErrorHandler {
  import opened Wrappers
  import opened ErrorTypes

  const INTERNAL_SERVER_ERROR_BODY := "Internal server error"

  /** The `Error | AppError` the handler receives. */
  datatype AnyError = App(error: AppError) | Plain(message: string)

  /** `response.status(status).json({ message: body })`. */
  datatype Response = Response(status: int, body: string)

  /** Which branch `handleError` took, with what it wrote. */
  datatype Handling = Trusted(response: Response) | Critical(written: Option<Response>)

  /** `isTrustedError`: only an `AppError` can be trusted, and then as it says. */
  function IsTrustedError(error: AnyError): (r: bool)
    ensures r <==> error.App? && error.error.isTrusted
  {
    match error
    case App(e) => e.isTrusted
    case Plain(_) => false
  }

  /** `handleTrustedError`: the mapped status, with the error's own message. */
  function HandleTrustedError(error: AppError): (r: Response)
    ensures r.status in {BAD_REQUEST, NOT_FOUND, INTERNAL_SERVER_ERROR}
    ensures r.status == HttpErrorCodeMapper(error) && r.body == error.message
  {
    Response(HttpErrorCodeMapper(error), error.message)
  }

  /**
   * `handleCriticalError`: a generic 500 when there is a response to write
   * to, nothing otherwise; the error's message is never written.
   */
  function HandleCriticalError(error: AnyError, hasResponse: bool): (written: Option<Response>)
    ensures written.Some? <==> hasResponse
    ensures written.Some? ==> written.value == Response(INTERNAL_SERVER_ERROR, INTERNAL_SERVER_ERROR_BODY)
  {
    if hasResponse then Some(Response(INTERNAL_SERVER_ERROR, INTERNAL_SERVER_ERROR_BODY)) else None
  }

  /**
   * `handleError`: exactly one of the two branches, the trusted one exactly
   * when `IsTrustedError` holds. The response is always present here.
   */
  function HandleError(error: AnyError): (h: Handling)
    ensures h.Trusted? <==> IsTrustedError(error)
    ensures h.Trusted? ==> h.response == Response(HttpErrorCodeMapper(error.error), error.error.message)
    ensures h.Critical? ==> h.written == Some(Response(INTERNAL_SERVER_ERROR, INTERNAL_SERVER_ERROR_BODY))
  {
    if IsTrustedError(error) then Trusted(HandleTrustedError(error.error))
    else Critical(HandleCriticalError(error, true))
  }

  /** The response `handleError` writes. */
  function ResponseOf(h: Handling): Option<Response>
  {
    match h
    case Trusted(r) => Some(r)
    case Critical(w) => w
  }

  /**
   * A 400 or 404 is only ever the answer to a trusted `InvalidInputError` or
   * `ResourceNotFoundError`; everything untrusted gets a bare 500.
   */
  lemma HandleErrorStatus(error: AnyError)
    ensures ResponseOf(HandleError(error)).Some?
    ensures var r := ResponseOf(HandleError(error)).value;
      && (r.status == BAD_REQUEST <==> error.App? && error.error.isTrusted && error.error.cls == InvalidInput)
      && (r.status == NOT_FOUND <==> error.App? && error.error.isTrusted && error.error.cls == ResourceNotFound)
      && (!IsTrustedError(error) ==> r == Response(INTERNAL_SERVER_ERROR, INTERNAL_SERVER_ERROR_BODY))
  {
  }
}
