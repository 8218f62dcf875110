/** The Mistral service: configuration, the two chat-completion calls, and the
    per-platform orchestration that never throws but records each failure. */
module Mistral {
  import opened Basics
  import opened JsString
  import opened JsValue
  import opened Http
  import opened Platforms
  import opened Prompts

  const MistralApiUrl: string := "https://api.mistral.ai/v1/chat/completions"
  /** The value of the key in the sample environment file, treated as "no key". */
  const PlaceholderKey: string := "your_mistral_api_key_here"
  const ModelName: string := "mistral-small-latest"
  const DefaultMaxTokens: nat := 1200
  /** Milliseconds before axios aborts a request. */
  const RequestTimeout: nat := 30000

  /** The constructor's `options`: `apiKey` is `Some` exactly when it is an own
      property (its value may still be empty or undefined); an absent or empty
      `apiUrl` is `None` or `Some("")`. */
  datatype ServiceOptions = ServiceOptions(apiKey: Option<Json>, httpClient: Option<HttpClient>, apiUrl: Option<string>)

  /** An own `apiKey` option wins over the environment, even when it is empty. */
  function ResolveApiKey(options: ServiceOptions, envApiKey: Json): (key: Json)
    ensures options.apiKey.Some? ==> key == options.apiKey.value
    ensures options.apiKey.None? ==> key == envApiKey
  {
    match options.apiKey
    case Some(k) => k
    case None => envApiKey
  }

  function ResolveApiUrl(options: ServiceOptions): (url: string)
    ensures options.apiUrl.Some? && options.apiUrl.value != "" ==> url == options.apiUrl.value
    ensures options.apiUrl.None? || options.apiUrl.value == "" ==> url == MistralApiUrl
    ensures url != ""
  {
    match options.apiUrl
    case Some(u) => if u != "" then u else MistralApiUrl
    case None => MistralApiUrl
  }

  /** `isConfigured`: a truthy key other than the placeholder. */
  predicate KeyConfigured(key: Json) {
    Truthy(key) && key != JStr(PlaceholderKey)
  }

  /** For a string key, configured means non-empty and not the placeholder. */
  lemma KeyConfiguredString(k: string)
    ensures KeyConfigured(JStr(k)) <==> k != "" && k != PlaceholderKey
  {
  }

  /** An explicit empty key is unconfigured whatever the environment holds;
      without an own key, the environment decides. */
  lemma ExplicitKeyWins(options: ServiceOptions, envApiKey: Json)
    ensures options.apiKey == Some(JStr("")) ==> !KeyConfigured(ResolveApiKey(options, envApiKey))
    ensures options.apiKey.None? ==> (KeyConfigured(ResolveApiKey(options, envApiKey)) <==> KeyConfigured(envApiKey))
  {
  }

  /** One chat message `{role, content}`. */
  datatype ChatMessage = ChatMessage(role: string, content: Json)

  function MessageJson(m: ChatMessage): Json {
    JObj(map["role" := JStr(m.role), "content" := m.content])
  }

  /** Where requests go and what key they carry. */
  datatype Endpoint = Endpoint(url: string, apiKey: Json)

  /** The POST that `call` and `callWithSystem` make. */
  function ChatRequest(e: Endpoint, messages: seq<ChatMessage>, maxTokens: nat): (r: PostRequest)
    ensures r.url == e.url && r.timeout == RequestTimeout
    ensures "Authorization" in r.headers && r.headers["Authorization"] == "Bearer " + ToStr(e.apiKey)
    ensures "Content-Type" in r.headers && r.headers["Content-Type"] == "application/json"
    ensures Get(r.body, "model") == JStr(ModelName) && Get(r.body, "max_tokens") == JNum(maxTokens)
    ensures Get(r.body, "messages").JArr? && |Get(r.body, "messages").items| == |messages|
  {
    PostRequest(
      e.url,
      JObj(map[
        "model" := JStr(ModelName),
        "messages" := JArr(seq(|messages|, i requires 0 <= i < |messages| => MessageJson(messages[i]))),
        "max_tokens" := JNum(maxTokens)]),
      map["Authorization" := "Bearer " + ToStr(e.apiKey), "Content-Type" := "application/json"],
      RequestTimeout)
  }

  /** The request of `call(prompt, maxTokens)`; `prompt` may be any value. */
  function UserRequest(e: Endpoint, prompt: Json, maxTokens: nat): PostRequest {
    ChatRequest(e, [ChatMessage("user", prompt)], maxTokens)
  }

  function SystemRequest(e: Endpoint, systemPrompt: string, userContent: string, maxTokens: nat): PostRequest {
    ChatRequest(e, [ChatMessage("system", JStr(systemPrompt)), ChatMessage("user", JStr(userContent))], maxTokens)
  }

  /** `response.data.choices[0].message.content`, with the TypeError each step
      throws on null or undefined. */
  function CompletionContent(data: Json): (r: Result<Json, string>)
    ensures r.Err? ==> "Cannot read properties of " <= r.error
  {
    match Prop(data, "choices")
    case Err(m) => Err(m)
    case Ok(choices) =>
      match First(choices)
      case Err(m) => Err(m)
      case Ok(choice) =>
        match Prop(choice, "message")
        case Err(m) => Err(m)
        case Ok(message) => Prop(message, "content")
  }

  /** A well-formed completion gives its text. */
  lemma CompletionContentOfReply(text: Json)
    ensures CompletionContent(Completion(text)) == Ok(text)
  {
  }

  /** The body the API answers with: one choice whose message holds `text`. */
  function Completion(text: Json): Json {
    JObj(map["choices" := JArr([JObj(map["message" := JObj(map["content" := text])])])])
  }

  /** What `call` settles with: the text, the axios error, or the TypeError of
      a response body without a message. */
  function CallResult(reply: Reply): (r: Result<Json, JsError>)
    ensures reply.Rejected? ==> r == Err(reply.error)
    ensures reply.Received? ==> (r.Ok? <==> CompletionContent(reply.data).Ok?)
  {
    match reply
    case Rejected(e) => Err(e)
    case Received(data) =>
      match CompletionContent(data)
      case Ok(text) => Ok(text)
      case Err(m) => Err(PlainError(m))
  }

  /** What `callWithSystem` resolves to. */
  datatype CompletionWithUsage = CompletionWithUsage(content: Json, usage: Json)

  function CallWithSystemResult(reply: Reply): (r: Result<CompletionWithUsage, JsError>)
    ensures r.Ok? <==> CallResult(reply).Ok?
    ensures r.Ok? ==> r.value.content == CallResult(reply).value && r.value.usage == Get(reply.data, "usage")
    ensures r.Err? ==> r.error == CallResult(reply).error
  {
    match CallResult(reply)
    case Ok(text) => Ok(CompletionWithUsage(text, Get(reply.data, "usage")))
    case Err(e) => Err(e)
  }

  /** One entry of the result object of `generateForPlatforms`. */
  datatype Outcome = Generated(text: Json) | Failed(error: string, details: string)

  function UnsupportedMessage(platform: string): string {
    "Platform '" + platform + "' not supported"
  }

  function FailureFor(platform: string, message: string): Outcome {
    Failed("Failed to generate for " + platform, message)
  }

  /** The entry recorded for a platform whose call settled with `r`. */
  function Settle(platform: string, r: Result<Json, JsError>): (o: Outcome)
    ensures o.Generated? <==> r.Ok?
    ensures r.Ok? ==> o.text == r.value
    ensures r.Err? ==> o.error == "Failed to generate for " + platform && o.details == r.error.message
  {
    match r
    case Ok(text) => Generated(text)
    case Err(e) => FailureFor(platform, e.message)
  }

  /** What the loop of `generateForPlatforms` has produced after some platforms:
      one outcome per platform, and the requests sent, in order. */
  datatype Dispatched = Dispatched(outcomes: seq<Outcome>, requests: seq<PostRequest>)

  /** What `buildPrompt` gives `generateForPlatform` for an id: the error it
      throws, or what `prompts[platform]` reads. */
  type Builder = string -> Result<Lookup<PromptSpec>, string>

  /** The service's builder: `buildPrompt` as written, with the content and
      profile of one `generateForPlatforms` call. */
  function ServicePrompts(content: string, profile: Json): Builder {
    (platform: string) => BuildPromptAsWritten(platform, content, profile)
  }

  /** The corrected builder: a null profile read like a missing one, and only
      the table's own keys found. */
  function IntendedPrompts(content: string, profile: Json): Builder {
    (platform: string) =>
      match BuildPrompt(platform, content, profile)
      case Some(spec) => Ok(Own(spec))
      case None => Ok(Missing)
  }

  /** `generateForPlatform` goes on to `call`: `buildPrompt` returned, and
      `promptConfig` is truthy. */
  predicate Sends(b: Result<Lookup<PromptSpec>, string>) {
    b.Ok? && !b.value.Missing?
  }

  /** `call(promptConfig.prompt, promptConfig.maxTokens)`. An inherited member
      has neither field, so its prompt is undefined and its budget the default of `call`. */
  function PlatformRequest(e: Endpoint, b: Result<Lookup<PromptSpec>, string>): PostRequest
    requires Sends(b)
  {
    match b.value
    case Own(spec) => UserRequest(e, JStr(spec.prompt), spec.maxTokens)
    case Inherited(_) => UserRequest(e, JUndefined, DefaultMaxTokens)
  }

  /** The message `generateForPlatform` throws before any request: the builder's
      TypeError, or the unsupported-platform error. */
  function EarlyMessage(platform: string, b: Result<Lookup<PromptSpec>, string>): string
    requires !Sends(b)
  {
    if b.Err? then b.error else UnsupportedMessage(platform)
  }

  /** The number of platforms for which `build` leads to a request. */
  function Prompted(build: Builder, platforms: seq<string>): (n: nat)
    ensures n <= |platforms|
  {
    if platforms == [] then 0
    else Prompted(build, platforms[..|platforms| - 1]) + (if Sends(build(platforms[|platforms| - 1])) then 1 else 0)
  }

  /** The number of entries of `platforms` that are in `names`. */
  function CountIn(names: set<string>, platforms: seq<string>): (n: nat)
    ensures n <= |platforms|
  {
    if platforms == [] then 0
    else CountIn(names, platforms[..|platforms| - 1]) + (if platforms[|platforms| - 1] in names then 1 else 0)
  }

  /** The ids of `ALLOWED_PLATFORMS`, as a set. */
  const Whitelist: set<string> := set p | p in AllowedPlatforms

  /** Which ids `buildPrompt` as written leads to a request for: none with a null
      profile, and otherwise the whitelisted ids and the inherited member names. */
  lemma ServiceSends(content: string, profile: Json, platform: string)
    ensures Sends(ServicePrompts(content, profile)(platform))
            <==> !profile.JNull? && (platform in AllowedPlatforms || platform in ObjectPrototypeMembers)
    ensures !Sends(ServicePrompts(content, profile)(platform)) ==>
              EarlyMessage(platform, ServicePrompts(content, profile)(platform))
              == if profile.JNull? then NullNameMessage else UnsupportedMessage(platform)
  {
    BuildPromptAsWrittenCases(platform, content, profile);
  }

  /** The corrected builder leads to a request for exactly the whitelisted ids. */
  lemma IntendedSends(content: string, profile: Json, platform: string)
    ensures Sends(IntendedPrompts(content, profile)(platform)) <==> platform in AllowedPlatforms
    ensures !Sends(IntendedPrompts(content, profile)(platform)) ==>
              EarlyMessage(platform, IntendedPrompts(content, profile)(platform)) == UnsupportedMessage(platform)
  {
    BuildPromptSupportedIff(platform, content, profile);
  }

  /** With the service's builder, the requests are one per whitelisted id or
      inherited name, and none at all for a null profile; with the corrected
      builder, one per whitelisted id. */
  lemma {:induction false} PromptedIsSupported(content: string, profile: Json, platforms: seq<string>)
    ensures Prompted(ServicePrompts(content, profile), platforms)
            == if profile.JNull? then 0 else CountIn(Whitelist + ObjectPrototypeMembers, platforms)
    ensures Prompted(IntendedPrompts(content, profile), platforms) == CountIn(Whitelist, platforms)
    decreases |platforms|
  {
    if platforms != [] {
      var n := |platforms| - 1;
      PromptedIsSupported(content, profile, platforms[..n]);
      ServiceSends(content, profile, platforms[n]);
      IntendedSends(content, profile, platforms[n]);
    }
  }

  /** What `generateForPlatform` settles with when `b` is what `buildPrompt`
      gave and `earlier` the requests before it: without a request it throws. */
  function PlatformResult(e: Endpoint, answer: (seq<PostRequest>, PostRequest) -> Reply, earlier: seq<PostRequest>,
                          platform: string, b: Result<Lookup<PromptSpec>, string>): Result<Json, JsError>
  {
    if Sends(b) then CallResult(answer(earlier, PlatformRequest(e, b)))
    else Err(PlainError(EarlyMessage(platform, b)))
  }

  /** The requests `generateForPlatform` makes: none or one. */
  function PlatformRequests(e: Endpoint, b: Result<Lookup<PromptSpec>, string>): (rs: seq<PostRequest>)
    ensures |rs| == (if Sends(b) then 1 else 0)
  {
    if Sends(b) then [PlatformRequest(e, b)] else []
  }

  /** One platform handled after `prev`. */
  function Step(e: Endpoint, answer: (seq<PostRequest>, PostRequest) -> Reply, sent0: seq<PostRequest>, build: Builder,
                prev: Dispatched, platform: string): Dispatched
  {
    Dispatched(prev.outcomes + [Settle(platform, PlatformResult(e, answer, sent0 + prev.requests, platform, build(platform)))],
               prev.requests + PlatformRequests(e, build(platform)))
  }

  /** The specification of the loop: the platforms handled one after the other,
      each reply depending on the requests the client had sent before it,
      `sent0` being those made before the call. */
  function Dispatch(e: Endpoint, answer: (seq<PostRequest>, PostRequest) -> Reply, sent0: seq<PostRequest>, build: Builder,
                    platforms: seq<string>): (d: Dispatched)
    ensures |d.outcomes| == |platforms|
    ensures |d.requests| == Prompted(build, platforms)
    decreases |platforms|
  {
    if platforms == [] then Dispatched([], [])
    else
      var n := |platforms| - 1;
      Step(e, answer, sent0, build, Dispatch(e, answer, sent0, build, platforms[..n]), platforms[n])
  }

  /** The key that `Object.prototype`'s accessor intercepts. */
  const ProtoKey: string := "__proto__"

  /** The object literal `results`: its own entries, and whether a write of
      `__proto__` still reaches the prototype setter instead of creating an entry. */
  datatype ResultsObject = ResultsObject(own: map<string, Outcome>, protoSetter: bool)

  /** Whether the setter stays reachable once `results.__proto__ = o` has run:
      a non-object is ignored, an object (the failure record, a parsed array or
      object) becomes the prototype and still inherits the setter unless it has
      an own `__proto__`, and `null` leaves no prototype at all. */
  predicate KeepsSetter(o: Outcome) {
    match o
    case Failed(_, _) => true
    case Generated(text) =>
      match text
      case JNull => false
      case JObj(m) => ProtoKey !in m
      case _ => true
  }

  /** `results[key] = o`. */
  function Store(obj: ResultsObject, key: string, o: Outcome): ResultsObject {
    if key == ProtoKey && obj.protoSetter then ResultsObject(obj.own, KeepsSetter(o))
    else ResultsObject(obj.own[key := o], obj.protoSetter)
  }

  /** `results[platform] = …` for each platform in turn, from `{}`. */
  function CollectObject(platforms: seq<string>, outcomes: seq<Outcome>): ResultsObject
    requires |platforms| == |outcomes|
    decreases |platforms|
  {
    if platforms == [] then ResultsObject(map[], true)
    else
      var n := |platforms| - 1;
      Store(CollectObject(platforms[..n], outcomes[..n]), platforms[n], outcomes[n])
  }

  /** The own entries of the results object, which is what `res.json` serialises. */
  function Collect(platforms: seq<string>, outcomes: seq<Outcome>): map<string, Outcome>
    requires |platforms| == |outcomes|
  {
    CollectObject(platforms, outcomes).own
  }

  /** Some write of `__proto__` cut the setter off. */
  predicate SetterLost(platforms: seq<string>, outcomes: seq<Outcome>)
    requires |platforms| == |outcomes|
  {
    exists i | 0 <= i < |platforms| :: platforms[i] == ProtoKey && !KeepsSetter(outcomes[i])
  }

  /** The setter is reachable exactly until a `__proto__` write of `null` or of
      an object with its own `__proto__`; it never comes back. */
  lemma {:induction false} ProtoSetterKept(platforms: seq<string>, outcomes: seq<Outcome>)
    requires |platforms| == |outcomes|
    ensures CollectObject(platforms, outcomes).protoSetter <==> !SetterLost(platforms, outcomes)
    decreases |platforms|
  {
    if platforms != [] {
      var n := |platforms| - 1;
      ProtoSetterKept(platforms[..n], outcomes[..n]);
      assert forall i | 0 <= i < n :: platforms[..n][i] == platforms[i] && outcomes[..n][i] == outcomes[i];
      assert SetterLost(platforms, outcomes)
             <==> SetterLost(platforms[..n], outcomes[..n]) || (platforms[n] == ProtoKey && !KeepsSetter(outcomes[n]));
    }
  }

  /** One more write: any key but `__proto__`, and `__proto__` once the setter is
      lost, becomes an entry; `__proto__` while the setter is reachable leaves the
      entries as they are. */
  lemma CollectSnoc(platforms: seq<string>, outcomes: seq<Outcome>, platform: string, outcome: Outcome)
    requires |platforms| == |outcomes|
    ensures platform != ProtoKey || SetterLost(platforms, outcomes) ==>
              Collect(platforms + [platform], outcomes + [outcome]) == Collect(platforms, outcomes)[platform := outcome]
    ensures platform == ProtoKey && !SetterLost(platforms, outcomes) ==>
              Collect(platforms + [platform], outcomes + [outcome]) == Collect(platforms, outcomes)
  {
    assert (platforms + [platform])[..|platforms|] == platforms;
    assert (outcomes + [outcome])[..|outcomes|] == outcomes;
    ProtoSetterKept(platforms, outcomes);
  }

  /** Unfolding `Dispatch` by one platform. */
  lemma DispatchNext(e: Endpoint, answer: (seq<PostRequest>, PostRequest) -> Reply, sent0: seq<PostRequest>, build: Builder,
                     platforms: seq<string>, i: nat)
    requires i < |platforms|
    ensures Dispatch(e, answer, sent0, build, platforms[..i + 1])
            == Step(e, answer, sent0, build, Dispatch(e, answer, sent0, build, platforms[..i]), platforms[i])
  {
    assert platforms[..i + 1][..i] == platforms[..i];
  }

  /** Unfolding `CollectObject` by one platform. */
  lemma CollectNext(platforms: seq<string>, outcomes: seq<Outcome>, outcome: Outcome, i: nat)
    requires i < |platforms| && |outcomes| == i
    ensures CollectObject(platforms[..i + 1], outcomes + [outcome])
            == Store(CollectObject(platforms[..i], outcomes), platforms[i], outcome)
  {
    assert platforms[..i + 1][..i] == platforms[..i];
    assert (outcomes + [outcome])[..i] == outcomes;
  }

  /** One turn of the loop of `generateForPlatforms` keeps its invariant. */
  lemma LoopStep(e: Endpoint, answer: (seq<PostRequest>, PostRequest) -> Reply, build: Builder, platforms: seq<string>, i: nat,
                 sent0: seq<PostRequest>, sent: seq<PostRequest>, results: ResultsObject)
    requires i < |platforms|
    requires var d := Dispatch(e, answer, sent0, build, platforms[..i]);
             sent == sent0 + d.requests && results == CollectObject(platforms[..i], d.outcomes)
    ensures var d := Dispatch(e, answer, sent0, build, platforms[..i + 1]);
            var platform := platforms[i];
            && sent + PlatformRequests(e, build(platform)) == sent0 + d.requests
            && Store(results, platform, Settle(platform, PlatformResult(e, answer, sent, platform, build(platform))))
               == CollectObject(platforms[..i + 1], d.outcomes)
  {
    var platform := platforms[i];
    var d := Dispatch(e, answer, sent0, build, platforms[..i]);
    DispatchNext(e, answer, sent0, build, platforms, i);
    CollectNext(platforms, d.outcomes, Settle(platform, PlatformResult(e, answer, sent, platform, build(platform))), i);
  }

  /** The results object has the requested platforms other than `__proto__`
      as entries, and `__proto__` only when it is written after the setter was lost. */
  lemma {:induction false} CollectKeys(platforms: seq<string>, outcomes: seq<Outcome>)
    requires |platforms| == |outcomes|
    ensures forall k :: k != ProtoKey ==> (k in Collect(platforms, outcomes) <==> k in platforms)
    ensures ProtoKey in Collect(platforms, outcomes) <==>
              exists j | 0 <= j < |platforms| :: platforms[j] == ProtoKey && SetterLost(platforms[..j], outcomes[..j])
    decreases |platforms|
  {
    if platforms != [] {
      var n := |platforms| - 1;
      CollectKeys(platforms[..n], outcomes[..n]);
      ProtoSetterKept(platforms[..n], outcomes[..n]);
      assert platforms == platforms[..n] + [platforms[n]];
      assert forall j | 0 <= j < n :: platforms[..n][..j] == platforms[..j] && outcomes[..n][..j] == outcomes[..j];
    }
  }

  // ---------------------------------------------------------------------------
  // Properties of the orchestration.

  /** The outcome of each platform, by position: one without a prompt fails
      with the source's message; one with a prompt settles with the reply to
      its request, answered after `sent0` and the requests of the platforms before it. */
  lemma {:induction false} DispatchOutcomeAt(e: Endpoint, answer: (seq<PostRequest>, PostRequest) -> Reply, sent0: seq<PostRequest>,
                                             build: Builder, platforms: seq<string>, i: nat)
    requires i < |platforms|
    ensures var d := Dispatch(e, answer, sent0, build, platforms);
            var k := Prompted(build, platforms[..i]);
            var b := build(platforms[i]);
            if !Sends(b) then d.outcomes[i] == FailureFor(platforms[i], EarlyMessage(platforms[i], b))
            else
              k < |d.requests| && d.requests[k] == PlatformRequest(e, b)
              && d.outcomes[i] == Settle(platforms[i], CallResult(answer(sent0 + d.requests[..k], PlatformRequest(e, b))))
    decreases |platforms|
  {
    var n := |platforms| - 1;
    var init := platforms[..n];
    assert platforms == init + [platforms[n]];
    var prev := Dispatch(e, answer, sent0, build, init);
    var d := Dispatch(e, answer, sent0, build, platforms);
    assert d == Step(e, answer, sent0, build, prev, platforms[n]);
    var k := Prompted(build, platforms[..i]);
    if i < n {
      DispatchOutcomeAt(e, answer, sent0, build, init, i);
      assert init[..i] == platforms[..i];
      assert init[i] == platforms[i];
      assert d.outcomes[i] == prev.outcomes[i];
      if Sends(build(platforms[i])) {
        assert d.requests[..k] == prev.requests[..k];
        assert d.requests[k] == prev.requests[k];
      }
    } else {
      assert platforms[..i] == init;
      if Sends(build(platforms[i])) {
        assert d.requests[..k] == prev.requests;
      }
    }
  }


  /** With the service's builder, a platform fails without a request exactly
      when the profile is null (with the TypeError) or the id is neither
      whitelisted nor an inherited name (as unsupported). */
  lemma ServiceDispatch(e: Endpoint, answer: (seq<PostRequest>, PostRequest) -> Reply, sent0: seq<PostRequest>,
                        content: string, profile: Json, platforms: seq<string>)
    ensures |Dispatch(e, answer, sent0, ServicePrompts(content, profile), platforms).requests|
            == if profile.JNull? then 0 else CountIn(Whitelist + ObjectPrototypeMembers, platforms)
    ensures forall i | 0 <= i < |platforms| ::
              !Sends(ServicePrompts(content, profile)(platforms[i]))
              <==> profile.JNull? || (platforms[i] !in AllowedPlatforms && platforms[i] !in ObjectPrototypeMembers)
  {
    PromptedIsSupported(content, profile, platforms);
    forall i | 0 <= i < |platforms|
      ensures !Sends(ServicePrompts(content, profile)(platforms[i]))
              <==> profile.JNull? || (platforms[i] !in AllowedPlatforms && platforms[i] !in ObjectPrototypeMembers)
    {
      ServiceSends(content, profile, platforms[i]);
    }
  }

  /** With the corrected builder, a platform fails without a request exactly when
      it is not whitelisted, and the requests are one per whitelisted id. */
  lemma IntendedDispatch(e: Endpoint, answer: (seq<PostRequest>, PostRequest) -> Reply, sent0: seq<PostRequest>,
                         content: string, profile: Json, platforms: seq<string>)
    ensures |Dispatch(e, answer, sent0, IntendedPrompts(content, profile), platforms).requests| == CountIn(Whitelist, platforms)
    ensures forall i | 0 <= i < |platforms| ::
              !Sends(IntendedPrompts(content, profile)(platforms[i])) <==> platforms[i] !in AllowedPlatforms
  {
    PromptedIsSupported(content, profile, platforms);
    forall i | 0 <= i < |platforms|
      ensures !Sends(IntendedPrompts(content, profile)(platforms[i])) <==> platforms[i] !in AllowedPlatforms
    {
      IntendedSends(content, profile, platforms[i]);
    }
  }

  /** As written, a null profile makes every platform fail with the TypeError of
      `buildProfileInfo`, and no request is made. */
  lemma NullProfileDispatch(e: Endpoint, answer: (seq<PostRequest>, PostRequest) -> Reply, sent0: seq<PostRequest>,
                            content: string, platforms: seq<string>)
    ensures var d := Dispatch(e, answer, sent0, ServicePrompts(content, JNull), platforms);
            && d.requests == []
            && forall i | 0 <= i < |platforms| :: d.outcomes[i] == FailureFor(platforms[i], NullNameMessage)
  {
    var d := Dispatch(e, answer, sent0, ServicePrompts(content, JNull), platforms);
    PromptedIsSupported(content, JNull, platforms);
    forall i | 0 <= i < |platforms| ensures d.outcomes[i] == FailureFor(platforms[i], NullNameMessage) {
      DispatchOutcomeAt(e, answer, sent0, ServicePrompts(content, JNull), platforms, i);
      ServiceSends(content, JNull, platforms[i]);
    }
  }

  /** The entry for a platform is the outcome of its last occurrence, except
      that a last `__proto__` written while the setter is reachable leaves none. */
  lemma {:induction false} CollectLast(platforms: seq<string>, outcomes: seq<Outcome>, i: nat)
    requires |platforms| == |outcomes| && i < |platforms|
    requires forall j | i < j < |platforms| :: platforms[j] != platforms[i]
    ensures platforms[i] != ProtoKey || SetterLost(platforms[..i], outcomes[..i]) ==>
              platforms[i] in Collect(platforms, outcomes) && Collect(platforms, outcomes)[platforms[i]] == outcomes[i]
    ensures platforms[i] == ProtoKey && !SetterLost(platforms[..i], outcomes[..i]) ==>
              ProtoKey !in Collect(platforms, outcomes)
    decreases |platforms|
  {
    var n := |platforms| - 1;
    ProtoSetterKept(platforms[..n], outcomes[..n]);
    if i < n {
      assert platforms[..n][..i] == platforms[..i] && outcomes[..n][..i] == outcomes[..i];
      CollectLast(platforms[..n], outcomes[..n], i);
      assert platforms[..n][i] == platforms[i];
      assert outcomes[..n][i] == outcomes[i];
    } else if platforms[i] == ProtoKey && !SetterLost(platforms[..i], outcomes[..i]) {
      ProtoNotYetKept(platforms[..n], outcomes[..n]);
    }
  }

  /** Before the setter is lost, `__proto__` is never an entry. */
  lemma ProtoNotYetKept(platforms: seq<string>, outcomes: seq<Outcome>)
    requires |platforms| == |outcomes| && !SetterLost(platforms, outcomes)
    ensures ProtoKey !in Collect(platforms, outcomes)
  {
    CollectKeys(platforms, outcomes);
    forall j | 0 <= j < |platforms| && platforms[j] == ProtoKey
      ensures !SetterLost(platforms[..j], outcomes[..j])
    {
      forall i | 0 <= i < j ensures !(platforms[..j][i] == ProtoKey && !KeepsSetter(outcomes[..j][i])) {
        assert platforms[..j][i] == platforms[i] && outcomes[..j][i] == outcomes[i];
      }
    }
  }

  /** When every outcome is the same failure for its platform, so is every entry. */
  lemma {:induction false} CollectFailures(platforms: seq<string>, outcomes: seq<Outcome>, message: string)
    requires |platforms| == |outcomes|
    requires forall i | 0 <= i < |platforms| :: outcomes[i] == FailureFor(platforms[i], message)
    ensures forall k | k in Collect(platforms, outcomes) :: Collect(platforms, outcomes)[k] == FailureFor(k, message)
    decreases |platforms|
  {
    if platforms != [] {
      var n := |platforms| - 1;
      forall i | 0 <= i < n ensures outcomes[..n][i] == FailureFor(platforms[..n][i], message) {
        assert outcomes[..n][i] == outcomes[i] && platforms[..n][i] == platforms[i];
      }
      CollectFailures(platforms[..n], outcomes[..n], message);
    }
  }

  /** Counting a sequence whose every entry is in `names` counts all of it. */
  lemma {:induction false} CountInAll(names: set<string>, platforms: seq<string>)
    requires forall i | 0 <= i < |platforms| :: platforms[i] in names
    ensures CountIn(names, platforms) == |platforms|
    decreases |platforms|
  {
    if platforms != [] {
      var n := |platforms| - 1;
      forall i | 0 <= i < n ensures platforms[..n][i] in names {
        assert platforms[..n][i] == platforms[i];
      }
      CountInAll(names, platforms[..n]);
    }
  }

  /** Without duplicates there is one entry per platform, `__proto__` excepted. */
  lemma {:induction false} CollectDistinctSize(platforms: seq<string>, outcomes: seq<Outcome>)
    requires |platforms| == |outcomes|
    requires forall i, j | 0 <= i < j < |platforms| :: platforms[i] != platforms[j]
    ensures |Collect(platforms, outcomes)| == |platforms| - (if ProtoKey in platforms then 1 else 0)
    decreases |platforms|
  {
    if platforms != [] {
      var n := |platforms| - 1;
      var m' := Collect(platforms[..n], outcomes[..n]);
      CollectDistinctSize(platforms[..n], outcomes[..n]);
      CollectKeys(platforms[..n], outcomes[..n]);
      assert forall i | 0 <= i < n :: platforms[..n][i] == platforms[i];
      assert platforms == platforms[..n] + [platforms[n]];
      assert outcomes == outcomes[..n] + [outcomes[n]];
      CollectSnoc(platforms[..n], outcomes[..n], platforms[n], outcomes[n]);
      if platforms[n] == ProtoKey {
        assert ProtoKey !in platforms[..n];
        assert !SetterLost(platforms[..n], outcomes[..n]);
      } else {
        assert platforms[n] !in platforms[..n];
        assert platforms[n] !in m'.Keys;
        assert (ProtoKey in platforms) == (ProtoKey in platforms[..n]);
      }
    }
  }

  /** A single platform whose request is answered with a completion gives that text. */
  lemma SingleSuccess(e: Endpoint, build: Builder, platform: string)
    requires Sends(build(platform))
    ensures var answer := (earlier: seq<PostRequest>, r: PostRequest) => Received(Completion(JStr("1/ Hello")));
            var d := Dispatch(e, answer, [], build, [platform]);
            Collect([platform], d.outcomes) == (if platform == ProtoKey then map[] else map[platform := Generated(JStr("1/ Hello"))])
            && d.requests == [PlatformRequest(e, build(platform))]
  {
    assert [platform][..0] == [];
    CompletionContentOfReply(JStr("1/ Hello"));
    var answer := (earlier: seq<PostRequest>, r: PostRequest) => Received(Completion(JStr("1/ Hello")));
    var d := Dispatch(e, answer, [], build, [platform]);
    assert d.outcomes[..0] == [];
    assert CollectObject([platform], d.outcomes) == Store(ResultsObject(map[], true), platform, d.outcomes[0]);
  }

  /** With a profile other than null, the request for a whitelisted platform
      asks the configured model for the platform's budget and carries its
      prompt as the single user message. */
  lemma RequestCarriesBudget(e: Endpoint, platform: string, content: string, profile: Json)
    requires platform in AllowedPlatforms && !profile.JNull?
    ensures BuildProfileInfoAsWritten(profile).Ok?
    ensures var p := Parse(platform).value;
            var b := ServicePrompts(content, profile)(platform);
            && Sends(b)
            && var request := PlatformRequest(e, b);
            && Get(request.body, "max_tokens") == JNum(MaxTokens(p))
            && Get(request.body, "model") == JStr(ModelName)
            && Get(request.body, "messages")
               == JArr([MessageJson(ChatMessage("user", JStr(PromptFor(p, BuildProfileInfoAsWritten(profile).value, content).prompt)))])
  {
    BuildPromptAsWrittenCases(platform, content, profile);
    var spec := PromptFor(Parse(platform).value, BuildProfileInfoAsWritten(profile).value, content);
    UserMessages(e, JStr(spec.prompt), spec.maxTokens);
  }

  /** A user request carries its prompt as the one message. */
  lemma UserMessages(e: Endpoint, prompt: Json, maxTokens: nat)
    ensures Get(UserRequest(e, prompt, maxTokens).body, "messages") == JArr([MessageJson(ChatMessage("user", prompt))])
  {
    var messages := [ChatMessage("user", prompt)];
    assert seq(|messages|, i requires 0 <= i < |messages| => MessageJson(messages[i])) == [MessageJson(messages[0])];
  }

  /** As written, an inherited member name such as `toString` is sent on: the
      request has no prompt and the default budget of `call`. */
  lemma InheritedRequest(e: Endpoint, platform: string, content: string, profile: Json)
    requires platform in ObjectPrototypeMembers && !profile.JNull?
    ensures var b := ServicePrompts(content, profile)(platform);
            && Sends(b)
            && var request := PlatformRequest(e, b);
            && Get(request.body, "max_tokens") == JNum(1200)
            && Get(request.body, "messages") == JArr([MessageJson(ChatMessage("user", JUndefined))])
  {
    BuildPromptAsWrittenCases(platform, content, profile);
    UserMessages(e, JUndefined, DefaultMaxTokens);
  }

  /** The error axios raises for an HTTP 401. */
  function Unauthorized(): JsError {
    JsError("Request failed with status code 401", Some("ERR_BAD_REQUEST"),
            Some(ErrorResponse(401, JObj(map["message" := JStr("Unauthorized")]))), true)
  }

  /** When the second request is refused, the first platform keeps its text and
      the second records the axios message: one failure does not stop the loop. */
  lemma PartialFailure(e: Endpoint, build: Builder)
    requires Sends(build("twitter")) && Sends(build("linkedin"))
    ensures var answer := (earlier: seq<PostRequest>, r: PostRequest) =>
              if earlier == [] then Received(Completion(JStr("OK"))) else Rejected(Unauthorized());
            var d := Dispatch(e, answer, [], build, ["twitter", "linkedin"]);
            Collect(["twitter", "linkedin"], d.outcomes)
              == map["twitter" := Generated(JStr("OK")),
                     "linkedin" := Failed("Failed to generate for linkedin", "Request failed with status code 401")]
  {
    var answer := (earlier: seq<PostRequest>, r: PostRequest) =>
      if earlier == [] then Received(Completion(JStr("OK"))) else Rejected(Unauthorized());
    SecondRefused(e, answer, build);
    var outcomes := Dispatch(e, answer, [], build, ["twitter", "linkedin"]).outcomes;
    CollectPair("twitter", "linkedin", outcomes);
    LinkedInFailure();
  }

  lemma LinkedInFailure()
    ensures FailureFor("linkedin", "Request failed with status code 401")
            == Failed("Failed to generate for linkedin", "Request failed with status code 401")
  {
  }

  /** The first platform of a dispatch gets the first reply. */
  lemma FirstAnswered(e: Endpoint, answer: (seq<PostRequest>, PostRequest) -> Reply, build: Builder)
    requires Sends(build("twitter"))
    requires forall r :: answer([], r) == Received(Completion(JStr("OK")))
    ensures Dispatch(e, answer, [], build, ["twitter"]) == Dispatched([Generated(JStr("OK"))], [PlatformRequest(e, build("twitter"))])
  {
    assert ["twitter"][..0] == [];
    CompletionContentOfReply(JStr("OK"));
    assert Dispatch(e, answer, [], build, []) == Dispatched([], []);
  }

  /** The second platform of a dispatch is answered after the first request. */
  lemma SecondRefused(e: Endpoint, answer: (seq<PostRequest>, PostRequest) -> Reply, build: Builder)
    requires Sends(build("twitter")) && Sends(build("linkedin"))
    requires forall r :: answer([], r) == Received(Completion(JStr("OK")))
    requires forall earlier, r :: earlier != [] ==> answer(earlier, r) == Rejected(Unauthorized())
    ensures Dispatch(e, answer, [], build, ["twitter", "linkedin"]).outcomes
            == [Generated(JStr("OK")), FailureFor("linkedin", "Request failed with status code 401")]
  {
    var two := ["twitter", "linkedin"];
    assert two[..1] == ["twitter"];
    FirstAnswered(e, answer, build);
    var d1 := Dispatch(e, answer, [], build, ["twitter"]);
    assert [] + d1.requests != [];
  }

  lemma CollectPair(a: string, b: string, outcomes: seq<Outcome>)
    requires |outcomes| == 2 && a != ProtoKey && b != ProtoKey
    ensures Collect([a, b], outcomes) == map[a := outcomes[0], b := outcomes[1]]
  {
    assert [a, b][..1] == [a];
    assert [a][..0] == [];
    assert outcomes[..1][..0] == [];
    assert CollectObject([a], outcomes[..1]) == Store(ResultsObject(map[], true), a, outcomes[0]);
  }

  /** `MistralService`. Its three fields are set once by the constructor. */
  class MistralService {
    const apiKey: Json
    const httpClient: HttpClient
    const apiUrl: string

    /** `new MistralService(options)`: `envApiKey` is `process.env.MISTRAL_API_KEY`
        and `axios` the default client. */
    constructor (options: ServiceOptions, envApiKey: Json, axios: HttpClient)
      ensures apiKey == ResolveApiKey(options, envApiKey)
      ensures httpClient == (if options.httpClient.Some? then options.httpClient.value else axios)
      ensures apiUrl == ResolveApiUrl(options)
    {
      apiKey := ResolveApiKey(options, envApiKey);
      httpClient := if options.httpClient.Some? then options.httpClient.value else axios;
      apiUrl := ResolveApiUrl(options);
    }

    predicate IsConfigured() {
      KeyConfigured(apiKey)
    }

    function Target(): Endpoint {
      Endpoint(apiUrl, apiKey)
    }

    /** `call(prompt, maxTokens)`: one request, settling with the completion text. */
    method Call(prompt: Json, maxTokens: nat := DefaultMaxTokens) returns (r: Result<Json, JsError>)
      modifies httpClient
      ensures httpClient.sent == old(httpClient.sent) + [UserRequest(Target(), prompt, maxTokens)]
      ensures r == CallResult(httpClient.answer(old(httpClient.sent), UserRequest(Target(), prompt, maxTokens)))
    {
      var reply := httpClient.Post(UserRequest(Target(), prompt, maxTokens));
      r := CallResult(reply);
    }

    /** `callWithSystem(systemPrompt, userContent, maxTokens)`. */
    method CallWithSystem(systemPrompt: string, userContent: string, maxTokens: nat := DefaultMaxTokens)
      returns (r: Result<CompletionWithUsage, JsError>)
      modifies httpClient
      ensures httpClient.sent == old(httpClient.sent) + [SystemRequest(Target(), systemPrompt, userContent, maxTokens)]
      ensures r == CallWithSystemResult(httpClient.answer(old(httpClient.sent),
                                                          SystemRequest(Target(), systemPrompt, userContent, maxTokens)))
    {
      var reply := httpClient.Post(SystemRequest(Target(), systemPrompt, userContent, maxTokens));
      r := CallWithSystemResult(reply);
    }

    /** `generateForPlatform`: the builder's error, or an id without an entry,
        throws before any request. */
    method GenerateForPlatform(platform: string, content: string, profile: Json) returns (r: Result<Json, JsError>)
      modifies httpClient
      ensures httpClient.sent == old(httpClient.sent) + PlatformRequests(Target(), ServicePrompts(content, profile)(platform))
      ensures r == PlatformResult(Target(), httpClient.answer, old(httpClient.sent), platform, ServicePrompts(content, profile)(platform))
    {
      var promptConfig := BuildPromptAsWritten(platform, content, profile);
      if promptConfig.Err? {
        return Err(PlainError(promptConfig.error));
      }
      match promptConfig.value
      case Missing =>
        r := Err(PlainError(UnsupportedMessage(platform)));
      case Own(spec) =>
        r := Call(JStr(spec.prompt), spec.maxTokens);
      case Inherited(_) =>
        r := Call(JUndefined);
    }

    /** `generateForPlatforms`: every platform in order, each failure caught and
        recorded, the results keyed by platform id. */
    method GenerateForPlatforms(platforms: seq<string>, content: string, profile: Json)
      returns (results: map<string, Outcome>)
      modifies httpClient
      ensures var d := Dispatch(Target(), httpClient.answer, old(httpClient.sent), ServicePrompts(content, profile), platforms);
              httpClient.sent == old(httpClient.sent) + d.requests
              && results == Collect(platforms, d.outcomes)
    {
      ghost var build := ServicePrompts(content, profile);
      var obj := ResultsObject(map[], true);
      for i := 0 to |platforms|
        invariant var d := Dispatch(Target(), httpClient.answer, old(httpClient.sent), build, platforms[..i]);
                  httpClient.sent == old(httpClient.sent) + d.requests
                  && obj == CollectObject(platforms[..i], d.outcomes)
      {
        ghost var before := httpClient.sent;
        var platform := platforms[i];
        var r := GenerateForPlatform(platform, content, profile);
        LoopStep(Target(), httpClient.answer, build, platforms, i, old(httpClient.sent), before, obj);
        obj := Store(obj, platform, Settle(platform, r));
      }
      assert platforms[..|platforms|] == platforms;
      results := obj.own;
    }
  }
}
