/** The Express application: the `/health`, `/generate` and `/repurpose`
    handlers behind their validators, and the global error handler. */
module Routes {
  import opened Basics
  import opened JsString
  import opened JsValue
  import opened Http
  import opened Validator
  import opened Mistral
  import opened Prompts

  /** `NODE_ENV`, with `development` when the variable is unset or empty. */
  function ResolveNodeEnv(nodeEnvVar: string): (env: string)
    ensures env != ""
    ensures nodeEnvVar != "" ==> env == nodeEnvVar
  {
    if nodeEnvVar != "" then nodeEnvVar else "development"
  }

  /** The JSON value stored under a platform in the `results` object. */
  function OutcomeJson(o: Outcome): Json {
    match o
    case Generated(text) => text
    case Failed(error, details) => JObj(map["error" := JStr(error), "details" := JStr(details)])
  }

  /** The `results` object as it is serialised (key order is not modelled). */
  function ResultsJson(results: map<string, Outcome>): (j: Json)
    ensures j.JObj? && j.fields.Keys == results.Keys
    ensures forall k | k in results :: j.fields[k] == OutcomeJson(results[k])
  {
    JObj(map k | k in results :: OutcomeJson(results[k]))
  }

  function HealthBody(nodeEnv: string, timestamp: string, configured: bool): Json {
    JObj(map[
      "status" := JStr("OK"),
      "service" := JStr("ReContent API"),
      "version" := JStr("1.0.0"),
      "environment" := JStr(nodeEnv),
      "timestamp" := JStr(timestamp),
      "mistral_configured" := JBool(configured)])
  }

  /** The 500 answered when no usable key is configured. */
  function ConfigErrorResponse(message: string): Response {
    Response(500, JObj(map["error" := JStr("Service configuration error"), "message" := JStr(message)]))
  }

  const GenerateConfigMessage: string := "Mistral API key not configured. Please contact administrator."
  const RepurposeConfigMessage: string := "Mistral API key not configured"

  /** The 200 envelope of `/generate`. */
  function GenerateSuccess(results: map<string, Outcome>, platformsProcessed: nat): (r: Response)
    ensures r.status == 200
    ensures Get(r.body, "success") == JBool(true)
    ensures Get(r.body, "results") == ResultsJson(results)
    ensures Get(r.body, "platforms_processed") == JNum(platformsProcessed)
  {
    Response(200, JObj(map[
      "success" := JBool(true),
      "results" := ResultsJson(results),
      "platforms_processed" := JNum(platformsProcessed)]))
  }

  /** The generic 500 of the route handlers. */
  function InternalError(): Response {
    Response(500, JObj(map["error" := JStr("Internal server error"), "message" := JStr("An unexpected error occurred")]))
  }

  /** The catch block of `/generate`: an upstream response gives its status and
      data, otherwise a timeout gives 504 and anything else 500. */
  function GenerateErrorResponse(e: JsError): (r: Response)
    ensures e.response.Some? ==> r.status == e.response.value.status && Get(r.body, "details") == e.response.value.data
    ensures e.response.None? ==> (r.status == 504 <==> e.code == Some("ECONNABORTED"))
    ensures e.response.None? ==> r.status in {500, 504}
  {
    match e.response
    case Some(resp) =>
      Response(resp.status, JObj(map["error" := JStr("Mistral API error"), "details" := resp.data]))
    case None =>
      if e.code == Some("ECONNABORTED") then
        Response(504, JObj(map["error" := JStr("Request timeout"), "message" := JStr("Mistral API took too long to respond")]))
      else InternalError()
  }

  /** The global error handler: a message mentioning CORS gives 403; anything
      else 500, with the raw message only outside production. */
  function GlobalErrorResponse(message: string, nodeEnv: string): (r: Response)
    ensures r.status == 403 <==> Contains(message, "CORS")
    ensures r.status == 403 || r.status == 500
    ensures !Contains(message, "CORS") ==>
              Get(r.body, "message") == JStr(if nodeEnv == "production" then "An error occurred" else message)
  {
    if Contains(message, "CORS") then
      Response(403, JObj(map["error" := JStr("CORS policy violation"), "message" := JStr("Origin not allowed")]))
    else
      Response(500, JObj(map[
        "error" := JStr("Internal server error"),
        "message" := JStr(if nodeEnv == "production" then "An error occurred" else message)]))
  }

  /** In production the global handler never echoes the error message. */
  lemma ProductionHidesMessages(message: string)
    ensures Get(GlobalErrorResponse(message, "production").body, "message") in {JStr("Origin not allowed"), JStr("An error occurred")}
  {
  }

  /** The system prompt of `/repurpose`, which embeds the target format. */
  function RepurposePrompt(targetFormat: string): string {
    "Tu es un expert en repurposing de contenu. Transforme le contenu fourni au format demandé : " + targetFormat
  }

  /** The repurpose system prompt ends with the requested format. */
  lemma RepurposePromptNamesFormat(targetFormat: string)
    ensures var p := RepurposePrompt(targetFormat);
            |targetFormat| <= |p| && p[|p| - |targetFormat|..] == targetFormat
  {
    var p := RepurposePrompt(targetFormat);
    var lead := p[..|p| - |targetFormat|];
    assert p == lead + targetFormat;
  }

  /** The 200 body of `/repurpose`. */
  function RepurposeSuccess(c: CompletionWithUsage): Response {
    Response(200, JObj(map["success" := JBool(true), "result" := c.content, "usage" := c.usage]))
  }

  /** A body the generate validator accepts carries a string content and an array of whitelisted ids. */
  lemma AcceptedGenerateBody(body: Json)
    requires ValidateGenerate(body) == Next
    ensures Get(body, "content").JStr?
    ensures Get(body, "platforms").JArr?
    ensures forall i | 0 <= i < |Get(body, "platforms").items| ::
              Get(body, "platforms").items[i].JStr? && Get(body, "platforms").items[i].s in Platforms.AllowedPlatforms
  {
    ValidateGenerateAcceptsWellFormed(body);
  }

  lemma AcceptedRepurposeBody(body: Json)
    requires ValidateRepurpose(body) == Next
    ensures Get(body, "content").JStr? && Get(body, "targetFormat").JStr?
  {
  }

  /** The ids of an accepted body, as strings. */
  function PlatformIds(body: Json): (ids: seq<string>)
    requires ValidateGenerate(body) == Next
    ensures |ids| == |Get(body, "platforms").items|
    ensures forall i | 0 <= i < |ids| :: ids[i] in Platforms.AllowedPlatforms
  {
    AcceptedGenerateBody(body);
    Strings(Get(body, "platforms").items)
  }

  /** For an accepted body with a profile other than null, the service makes one
      request per platform id. */
  lemma AcceptedBodyRequests(e: Endpoint, answer: (seq<PostRequest>, PostRequest) -> Reply, sent0: seq<PostRequest>,
                             body: Json)
    requires ValidateGenerate(body) == Next && !Get(body, "profile").JNull?
    ensures |Dispatch(e, answer, sent0, ServicePrompts(Get(body, "content").s, Get(body, "profile")), PlatformIds(body)).requests|
            == |PlatformIds(body)|
  {
    AcceptedGenerateBody(body);
    var platforms := PlatformIds(body);
    ServiceDispatch(e, answer, sent0, Get(body, "content").s, Get(body, "profile"), platforms);
    CountInAll(Whitelist + ObjectPrototypeMembers, platforms);
  }

  /** For an accepted body whose profile is null, the service makes no request,
      and every entry of the results is the TypeError of `buildProfileInfo`. */
  lemma NullProfileResults(e: Endpoint, answer: (seq<PostRequest>, PostRequest) -> Reply, sent0: seq<PostRequest>,
                           body: Json)
    requires ValidateGenerate(body) == Next && Get(body, "profile").JNull?
    ensures var platforms := PlatformIds(body);
            var d := Dispatch(e, answer, sent0, ServicePrompts(Get(body, "content").s, JNull), platforms);
            && d.requests == []
            && forall k | k in Collect(platforms, d.outcomes) ::
                 Collect(platforms, d.outcomes)[k] == Failed("Failed to generate for " + k, NullNameMessage)
  {
    AcceptedGenerateBody(body);
    var platforms := PlatformIds(body);
    var d := Dispatch(e, answer, sent0, ServicePrompts(Get(body, "content").s, JNull), platforms);
    NullProfileDispatch(e, answer, sent0, Get(body, "content").s, platforms);
    CollectFailures(platforms, d.outcomes, NullNameMessage);
  }

  /** The application state: the service the handlers use, replaceable for tests. */
  class App {
    var mistralService: MistralService
    const nodeEnv: string

    /** Module start-up: `new MistralService({ apiKey: process.env.MISTRAL_API_KEY })`,
        which always passes the key as an own option. */
    constructor (envApiKey: Json, axios: HttpClient, nodeEnvVar: string)
      ensures mistralService.apiKey == envApiKey
      ensures mistralService.httpClient == axios
      ensures mistralService.apiUrl == MistralApiUrl
      ensures nodeEnv == ResolveNodeEnv(nodeEnvVar)
    {
      mistralService := new MistralService(ServiceOptions(Some(envApiKey), None, None), envApiKey, axios);
      nodeEnv := ResolveNodeEnv(nodeEnvVar);
    }

    /** `app.setMistralService(service)`. */
    method SetMistralService(service: MistralService)
      modifies this
      ensures mistralService == service
    {
      mistralService := service;
    }

    /** `GET /health`; `timestamp` is the current time as an ISO string. */
    method Health(timestamp: string) returns (r: Response)
      ensures r.status == 200
      ensures Get(r.body, "mistral_configured") == JBool(mistralService.IsConfigured())
      ensures r == Response(200, HealthBody(nodeEnv, timestamp, mistralService.IsConfigured()))
    {
      r := Response(200, HealthBody(nodeEnv, timestamp, mistralService.IsConfigured()));
    }

    /** `POST /generate` behind `validateGenerateRequest`. A rejected request or
        a missing key makes no remote call; otherwise the service runs over the
        platforms and its results are returned as they are. */
    method Generate(body: Json) returns (r: Response)
      modifies mistralService.httpClient
      ensures ValidateGenerate(body).Reject? ==>
                r == RejectionResponse(ValidateGenerate(body).reason)
                && mistralService.httpClient.sent == old(mistralService.httpClient.sent)
      ensures ValidateGenerate(body) == Next && !mistralService.IsConfigured() ==>
                r == ConfigErrorResponse(GenerateConfigMessage)
                && mistralService.httpClient.sent == old(mistralService.httpClient.sent)
      ensures ValidateGenerate(body) == Next && mistralService.IsConfigured() ==>
                var platforms := PlatformIds(body);
                var d := Dispatch(mistralService.Target(), mistralService.httpClient.answer,
                                  old(mistralService.httpClient.sent),
                                  ServicePrompts(Get(body, "content").s, Get(body, "profile")), platforms);
                && mistralService.httpClient.sent == old(mistralService.httpClient.sent) + d.requests
                && r == GenerateSuccess(Collect(platforms, d.outcomes), |platforms|)
    {
      var verdict := ValidateGenerate(body);
      if verdict.Reject? {
        return RejectionResponse(verdict.reason);
      }
      if !mistralService.IsConfigured() {
        return ConfigErrorResponse(GenerateConfigMessage);
      }
      AcceptedGenerateBody(body);
      var platforms := PlatformIds(body);
      var results := mistralService.GenerateForPlatforms(platforms, Get(body, "content").s, Get(body, "profile"));
      r := GenerateSuccess(results, |platforms|);
    }

    /** `POST /repurpose` behind `validateRepurposeRequest`: one system + user call,
        and a 500 for any error it settles with. */
    method Repurpose(body: Json) returns (r: Response)
      modifies mistralService.httpClient
      ensures ValidateRepurpose(body).Reject? ==>
                r == RejectionResponse(ValidateRepurpose(body).reason)
                && mistralService.httpClient.sent == old(mistralService.httpClient.sent)
      ensures ValidateRepurpose(body) == Next && !mistralService.IsConfigured() ==>
                r == ConfigErrorResponse(RepurposeConfigMessage)
                && mistralService.httpClient.sent == old(mistralService.httpClient.sent)
      ensures ValidateRepurpose(body) == Next && mistralService.IsConfigured() ==>
                var request := SystemRequest(mistralService.Target(), RepurposePrompt(Get(body, "targetFormat").s),
                                             Get(body, "content").s, DefaultMaxTokens);
                var reply := CallWithSystemResult(mistralService.httpClient.answer(old(mistralService.httpClient.sent), request));
                && mistralService.httpClient.sent == old(mistralService.httpClient.sent) + [request]
                && r == (if reply.Ok? then RepurposeSuccess(reply.value) else InternalError())
    {
      var verdict := ValidateRepurpose(body);
      if verdict.Reject? {
        return RejectionResponse(verdict.reason);
      }
      if !mistralService.IsConfigured() {
        return ConfigErrorResponse(RepurposeConfigMessage);
      }
      AcceptedRepurposeBody(body);
      var result := mistralService.CallWithSystem(RepurposePrompt(Get(body, "targetFormat").s), Get(body, "content").s);
      r := if result.Ok? then RepurposeSuccess(result.value) else InternalError();
    }
  }
}
