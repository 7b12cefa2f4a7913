/** GlobalExceptionHandler: turns an exception that escaped a request into an
    error body. Spring calls the handler declared for the most specific type:
    IllegalArgumentException, NullPointerException, or any other Exception. */
module ExceptionHandler {
  import opened Wrappers
  import opened Faults
  import opened Dto

  /** The statuses the handler answers with, with their reason phrases as
      sections 15.5.1 and 15.6.1 of RFC 9110 give them. */
  datatype HttpStatus = BadRequest | InternalServerError {

    function Value(): (code: int) {
      match this
      case BadRequest => 400
      case InternalServerError => 500
    }

    function ReasonPhrase(): (phrase: string) {
      match this
      case BadRequest => "Bad Request"
      case InternalServerError => "Internal Server Error"
    }
  }

  /** The status a code stands for, if it is one of these. */
  function ResolveStatus(code: int): (s: Option<HttpStatus>)
    ensures s.Some? ==> s.value.Value() == code
    ensures s.None? ==> code != 400 && code != 500
  {
    if code == 400 then Some(BadRequest)
    else if code == 500 then Some(InternalServerError)
    else None
  }

  /** Resolving a status's own code gives that status back. */
  lemma ResolveStatusValue(s: HttpStatus)
    ensures ResolveStatus(s.Value()) == Some(s)
  {
  }

  const UnexpectedErrorMessage: string := "An unexpected error occurred while processing your request"

  const MissingDataMessage: string := "An internal error occurred due to missing data"

  /** The body every handler builds; `timestamp` is `Instant.now().toString()`. */
  function ErrorBody(status: HttpStatus, message: Option<string>, timestamp: string, requestUri: string): (r: ErrorResponse) {
    ErrorResponse(timestamp, status.Value(), status.ReasonPhrase(), message, requestUri)
  }

  function HandleGenericException(ex: Fault, timestamp: string, requestUri: string): (r: ErrorResponse) {
    ErrorBody(InternalServerError, Some(UnexpectedErrorMessage), timestamp, requestUri)
  }

  function HandleIllegalArgument(ex: Fault, timestamp: string, requestUri: string): (r: ErrorResponse)
    requires ex.IllegalArgument?
  {
    ErrorBody(BadRequest, ex.message, timestamp, requestUri)
  }

  function HandleNullPointer(ex: Fault, timestamp: string, requestUri: string): (r: ErrorResponse)
    requires ex.NullPointer?
  {
    ErrorBody(InternalServerError, Some(MissingDataMessage), timestamp, requestUri)
  }

  /** The whole mapping, total over the three kinds of exception. */
  function Handle(ex: Fault, timestamp: string, requestUri: string): (r: ErrorResponse)
    ensures r.path == requestUri && r.timestamp == timestamp
    ensures ResolveStatus(r.status).Some? && r.error == ResolveStatus(r.status).value.ReasonPhrase()
    ensures r.status == 400 <==> ex.IllegalArgument?
    ensures r.status == 500 <==> !ex.IllegalArgument?
    ensures ex.IllegalArgument? ==> r.message == ex.message
    ensures ex.NullPointer? ==> r.message == Some(MissingDataMessage)
    ensures ex.Other? ==> r.message == Some(UnexpectedErrorMessage)
  {
    match ex
    case IllegalArgument(_) => HandleIllegalArgument(ex, timestamp, requestUri)
    case NullPointer(_) => HandleNullPointer(ex, timestamp, requestUri)
    case Other(_) => HandleGenericException(ex, timestamp, requestUri)
  }

  /** Apart from an illegal argument, the body does not depend on the exception's
      message at all: replacing it changes nothing. */
  lemma InternalMessageNotExposed(ex: Fault, other: Option<string>, timestamp: string, requestUri: string)
    requires !ex.IllegalArgument?
    ensures Handle(ex.(message := other), timestamp, requestUri) == Handle(ex, timestamp, requestUri)
    ensures Handle(ex, timestamp, requestUri).message.Some?
  {
  }

  /** An empty sampling range, the fault the weather service can raise, is
      answered with 400 and the random source's own message. */
  lemma EmptyRangeIsBadRequest(timestamp: string, requestUri: string)
    ensures Handle(BadRange, timestamp, requestUri)
              == ErrorResponse(timestamp, 400, "Bad Request", Some(BadRangeMessage), requestUri)
  {
  }
}
