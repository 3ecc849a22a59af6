/**
 * The HTTP-level values the gateway handles: inbound requests, the outbound requests it
 * builds, the backend's replies, the responses it returns and the errors it raises.
 */
module Http {
  import opened Wrappers

  newtype byte = x: int | 0 <= x < 256

  /** A header dictionary with exact, case-sensitive keys, as a Python dict holds them. */
  type Headers = map<string, string>

  /** The parts of the inbound URL the proxy reads. */
  datatype Url = Url(scheme: string, path: string, query: string)

  /**
   * An inbound request. `headers` is the plain dictionary `dict(request.headers)` gives;
   * `client` is the peer's host, absent when the server does not know the peer.
   */
  datatype Request = Request(
    verb: string,
    url: Url,
    headers: Headers,
    body: seq<byte>,
    client: Option<string>)

  /** The request the proxy sends to the backend, relative to its base address. */
  datatype Outbound = Outbound(
    verb: string,
    target: string,
    headers: Headers,
    body: seq<byte>)

  /** What the backend answered. */
  datatype BackendResponse = BackendResponse(
    status: int,
    headers: Headers,
    content: seq<byte>)

  /** The response the gateway returns: the arguments of the response object it builds. */
  datatype Response = Response(
    status: int,
    content: seq<byte>,
    headers: Headers,
    mediaType: string)

  /** An HTTP error raised to the framework: a status code and a detail message. */
  datatype HttpError = HttpError(status: int, detail: string)

  /**
   * An exception raised during a forward or a health probe. Which exception classes it belongs
   * to is decided by the library that raised it, so each membership is a flag of its own;
   * `statusCode` is the response status a status error carries, `message` is `str(e)`.
   */
  datatype Fault = Fault(
    isRequestError: bool,
    isTimeout: bool,
    isStatusError: bool,
    statusCode: int,
    message: string)

  /** The outcome of one backend call: a response, or the exception it raised. */
  datatype BackendReply = Replied(response: BackendResponse) | Failed(fault: Fault)
}
