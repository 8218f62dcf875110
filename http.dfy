/** The HTTP layer as the program sees it: axios errors, responses, and an
    injected client whose replies come from an oracle. */
module Http {
  import opened Basics
  import opened JsValue

  /** The HTTP response attached to an axios error. */
  datatype ErrorResponse = ErrorResponse(status: int, data: Json)

  /** A thrown JavaScript error, as the program inspects it: `message`,
      `code`, `response` and whether a request went out (`request`). */
  datatype JsError = JsError(message: string, code: Option<string>, response: Option<ErrorResponse>, request: bool)

  /** `new Error(message)`, and the TypeError the engine throws. */
  function PlainError(message: string): (e: JsError)
    ensures e.message == message && e.code.None? && e.response.None? && !e.request
  {
    JsError(message, None, None, false)
  }

  /** A POST request: URL, JSON body, headers and the timeout in milliseconds. */
  datatype PostRequest = PostRequest(url: string, body: Json, headers: map<string, string>, timeout: nat)

  /** What one request ends with: a 2xx response body, or the error axios rejects with. */
  datatype Reply = Received(data: Json) | Rejected(error: JsError)

  /** An HTTP response as a route handler sends it. */
  datatype Response = Response(status: int, body: Json)

  /** An injected HTTP client. The remote side is an oracle: the reply to a
      request is `answer(earlier, request)`, where `earlier` are the requests
      the client made before it; `sent` logs every request in the order it was made. */
  class HttpClient {
    var sent: seq<PostRequest>
    const answer: (seq<PostRequest>, PostRequest) -> Reply

    constructor (answer: (seq<PostRequest>, PostRequest) -> Reply)
      ensures sent == [] && this.answer == answer
    {
      sent := [];
      this.answer := answer;
    }

    /** `httpClient.post(url, body, config)`. */
    method Post(request: PostRequest) returns (r: Reply)
      modifies this
      ensures sent == old(sent) + [request]
      ensures r == answer(old(sent), request)
    {
      r := answer(sent, request);
      sent := sent + [request];
    }
  }
}
