/** The browser-side client of the backend: `generateContent` posts the
    content, the selected platforms and the stored profile, and turns the
    reply into the results or into one error message; `checkAPIHealth` turns
    any failure of the health call into one fixed message. */
module FrontendApi {
  import opened Basics
  import opened JsValue
  import opened Http

  const ApiBaseUrl: string := "/api/recontent"
  const GenerateUrl: string := ApiBaseUrl + "/generate"
  const HealthUrl: string := ApiBaseUrl + "/health"
  const GenerateTimeout: nat := 60000
  const HealthTimeout: nat := 5000

  const UnsuccessfulMessage: string := "API returned unsuccessful response"
  const TimeoutMessage: string := "Request timeout: La génération a pris trop de temps. Essayez avec moins de plateformes."
  const NoResponseMessage: string := "No response from server. Vérifiez votre connexion."
  const HealthFailureMessage: string := "API backend non accessible"

  /** The profile sent when none is stored. */
  function DefaultProfile(): Json {
    JObj(map["name" := JStr(""), "bio" := JStr(""), "tone" := JStr("professional")])
  }

  /** `storage.get('profile') || DEFAULT`: `stored` is what the storage holds
      under `profile`, null when nothing is stored. */
  function ProfileToSend(stored: Json): (p: Json)
    ensures Truthy(p)
    ensures Truthy(stored) ==> p == stored
    ensures !Truthy(stored) ==> p == DefaultProfile()
  {
    Or(stored, DefaultProfile())
  }

  /** The POST of `generateContent`. */
  function GenerateRequest(content: string, platforms: seq<string>, stored: Json): (r: PostRequest)
    ensures r.url == "/api/recontent/generate" && r.timeout == GenerateTimeout
    ensures r.headers == map["Content-Type" := "application/json"]
    ensures Get(r.body, "content") == JStr(content)
    ensures Get(r.body, "platforms") == StrArray(platforms)
    ensures Get(r.body, "profile") == ProfileToSend(stored)
  {
    PostRequest(GenerateUrl,
                JObj(map["content" := JStr(content), "platforms" := StrArray(platforms), "profile" := ProfileToSend(stored)]),
                map["Content-Type" := "application/json"], GenerateTimeout)
  }

  /** `data?.error || 'API Error'`. */
  function HeadlineOf(data: Json): (h: string)
    ensures Truthy(Get(data, "error")) ==> h == ToStr(Get(data, "error"))
    ensures !Truthy(Get(data, "error")) ==> h == "API Error"
  {
    ToStr(Or(GetOptional(data, "error"), JStr("API Error")))
  }

  /** `data?.details || data?.message || ''`. */
  function ExplanationOf(data: Json): (x: string)
    ensures Truthy(Get(data, "details")) ==> x == ToStr(Get(data, "details"))
    ensures !Truthy(Get(data, "details")) && Truthy(Get(data, "message")) ==> x == ToStr(Get(data, "message"))
    ensures !Truthy(Get(data, "details")) && !Truthy(Get(data, "message")) ==> x == ""
  {
    ToStr(Or(Or(GetOptional(data, "details"), GetOptional(data, "message")), JStr("")))
  }

  /** The message of the error `generateContent` rethrows: an HTTP response
      wins, then a timeout, then a request without a response, and otherwise
      the original message behind `Error: `. It is never empty. */
  function ErrorMessage(e: JsError): (m: string)
    ensures e.response.Some? ==> m == HeadlineOf(e.response.value.data) + ": " + ExplanationOf(e.response.value.data)
    ensures e.response.None? && e.code == Some("ECONNABORTED") ==> m == TimeoutMessage
    ensures e.response.None? && e.code != Some("ECONNABORTED") && e.request ==> m == NoResponseMessage
    ensures e.response.None? && e.code != Some("ECONNABORTED") && !e.request ==> m == "Error: " + e.message
    ensures m != ""
  {
    if e.response.Some? then
      var data := e.response.value.data;
      HeadlineOf(data) + ": " + ExplanationOf(data)
    else if e.code == Some("ECONNABORTED") then TimeoutMessage
    else if e.request then NoResponseMessage
    else "Error: " + e.message
  }

  /** What `generateContent` resolves with, or the message it rejects with,
      for the reply to its POST. A 2xx body whose `success` is truthy gives its
      `results`; any other 2xx body is refused with the caught internal error
      (on a null body, the TypeError of reading `success`). */
  function GenerateOutcome(reply: Reply): (r: Result<Json, string>)
    ensures r.Ok? <==> reply.Received? && Truthy(Get(reply.data, "success"))
    ensures r.Ok? ==> r.value == Get(reply.data, "results")
    ensures reply.Received? && r.Err? ==>
              r.error == "Error: " + (if reply.data.JNull? || reply.data.JUndefined?
                                      then CannotRead(reply.data, "success") else UnsuccessfulMessage)
    ensures reply.Rejected? ==> r == Err(ErrorMessage(reply.error))
    ensures r.Err? ==> r.error != ""
  {
    match reply
    case Received(data) =>
      (match Prop(data, "success")
       case Err(typeError) => Err(ErrorMessage(PlainError(typeError)))
       case Ok(success) =>
         if Truthy(success) then Ok(Get(data, "results"))
         else Err(ErrorMessage(PlainError(UnsuccessfulMessage))))
    case Rejected(error) => Err(ErrorMessage(error))
  }

  /** `generateContent(content, platforms)`, with `stored` the stored profile. */
  method GenerateContent(client: HttpClient, content: string, platforms: seq<string>, stored: Json)
    returns (r: Result<Json, string>)
    modifies client
    ensures client.sent == old(client.sent) + [GenerateRequest(content, platforms, stored)]
    ensures r == GenerateOutcome(client.answer(old(client.sent), GenerateRequest(content, platforms, stored)))
  {
    var reply := client.Post(GenerateRequest(content, platforms, stored));
    r := GenerateOutcome(reply);
  }

  /** `checkAPIHealth` for the reply to its GET of `/api/recontent/health`:
      the body on success, one fixed message on any failure. */
  function HealthOutcome(reply: Reply): (r: Result<Json, string>)
    ensures r.Ok? <==> reply.Received?
    ensures r.Ok? ==> r.value == reply.data
    ensures r.Err? ==> r.error == HealthFailureMessage
  {
    match reply
    case Received(data) => Ok(data)
    case Rejected(_) => Err(HealthFailureMessage)
  }

  /** An HTTP error body with a string `error` and `details` reads as `error: details`. */
  lemma HttpErrorText(error: string, details: string, status: int, code: Option<string>)
    requires error != "" && details != ""
    ensures ErrorMessage(JsError("", code, Some(ErrorResponse(status,
              JObj(map["error" := JStr(error), "details" := JStr(details)]))), true))
            == error + ": " + details
  {
  }

  /** A response without a usable body still yields `API Error: `. */
  lemma EmptyErrorBody(status: int, e: JsError)
    requires e.response == Some(ErrorResponse(status, JNull))
    ensures ErrorMessage(e) == "API Error: "
  {
  }
}
