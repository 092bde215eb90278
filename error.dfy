// The error-message selector of utils/error.ts and the shape of a failed request.

module Errors {
  import opened Models

  /** The body of an HTTP error response; `message` is optional. */
  datatype ResponseData = ResponseData(message: Option<string>)

  /** An HTTP error response; its body may be missing. */
  datatype Response = Response(data: Option<ResponseData>)

  /** A rejected request: the client's own message and, when the server answered, its response. */
  datatype RequestError = RequestError(message: string, response: Option<Response>)

  /** The outcome of a request to a gateway: the decoded body or the error it was rejected with. */
  datatype Reply<T> = Ok(data: T) | Failed(error: RequestError)

  /** The text shown for a failed request: the server's message when the response, its body
      and a non-empty message are all present, and the client's own message otherwise. */
  function GetError(err: RequestError): (r: string)
    ensures err.response.None? ==> r == err.message
    ensures err.response.Some? && err.response.value.data.None? ==> r == err.message
    ensures (err.response.Some? && err.response.value.data.Some? &&
             err.response.value.data.value.message in {None, Some("")}) ==> r == err.message
    ensures forall m :: err.response == Some(Response(Some(ResponseData(Some(m))))) && m != "" ==> r == m
    ensures err.message != "" ==> r != ""
  {
    match err.response
    case Some(Response(Some(ResponseData(Some(m))))) => if m != "" then m else err.message
    case _ => err.message
  }
}
