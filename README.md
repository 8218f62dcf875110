# ReContent, modelled in Dafny

ReContent turns one technical text into posts for five publishing platforms:
an X (Twitter) thread, a LinkedIn post, a Dev.to article, a GitHub README and
a newsletter email. The backend works in three steps. It validates the request,
builds one prompt per platform from the content and the author's profile, and
asks a hosted language model for each platform in turn. The browser side sends
the request, shows the results, keeps a short history, and lets the user select
and download tweets of a generated thread.

The model covers these parts:

- `validator.dfy`: the request validators, a chain of early-return guards. The
  first failing guard answers 400 with its `details` text.
- `prompts.dfy`: the profile preamble and the five prompt templates with their
  token budgets.
- `mistral_service.dfy`: `MistralService`, its request shape, and the
  per-platform loop that records a result or an error for every platform.
- `api_routes.dfy`: the `/health`, `/generate` and `/repurpose` handlers, and
  the global error handler.
- `thread_card.dfy`: the thread splitter, the tweet selection state, the
  download text and the 280-unit rule.
- `home_page.dfy`: the platform toggles, the checks before sending, and the
  history, newest first and capped at 20.
- `history_page.dfy`: delete-by-id, clear-all and `truncateText`.
- `frontend_api.dfy`: the browser client. It maps a reply to results or to
  exactly one error message.
- `end_to_end.dfy`: how the two sides meet. A request that passes the page's
  checks also passes the validator when its content is at most 10000 units
  and the stored profile is missing or one the validator accepts. A profile
  imported on the profile page is stored unchecked, so it can be refused. The
  page also receives the backend's results and refusal texts unchanged.

Shared layers:

- `js_value.dfy` holds JavaScript values. It models truthiness, `||`, property
  reads that throw on null, and `String()`.
- `js_string.dfy` holds string `.length` in UTF-16 code units, `trim`,
  `join` and `includes`.
- `http.dfy` holds axios errors and an injected HTTP client. The client's
  replies come from an oracle, a function of the requests sent before and of
  the request itself. Every request the client sends is logged.

Stateful parts are classes whose methods are proved against functions:

- `MistralService` loops over the platforms;
- `App` can swap its service;
- `ThreadSelection`, `HomePage` and `HistoryView` hold the page state.

`MistralService.GenerateForPlatforms` keeps a loop invariant. The invariant
ties the log of requests and the partial results object to `Dispatch` and
`CollectObject`, two specification functions. Lemmas then derive each
platform's outcome and the number of requests from `Dispatch`.

The results object is an object literal, so `results['__proto__'] = …` calls
the inherited prototype setter instead of creating an entry. A string is
ignored and an object becomes the prototype. `Mistral.ResultsObject` keeps
the own entries, the ones `res.json` sends, together with whether the
setter is still reachable. Only a direct caller of the service can pass this
id, because the route's validator keeps it out.

Where the test files and the code disagree, the model follows the code. This
covers some expectations in `api/__tests__/generate.test.js` about validation
and the results object. The service and the `/generate` route run the prompt
builder as written (`Prompts.BuildPromptAsWritten`, `Mistral.ServicePrompts`),
including the two defects under "## Findings". The corrected builder
(`Prompts.BuildPrompt`, `Mistral.IntendedPrompts`) stands beside it with its
own lemmas, and both agree on every profile other than null whose tone is not
an inherited name, for every id that is not one.

Every error message `generateContent` produces is non-empty (see
`FrontendApi.ErrorMessage`). So the fallback text `'Erreur API. Vérifie ta clé
Mistral dans le fichier .env'` in `Home.jsx` can never be shown. The model
keeps the fallback, and `HomePage.HandleGenerate` proves the shown error is the
client's message.

## Model

| member | source | states |
|---|---|---|
| JsString.TrimSpec | frontend/src/components/TwitterThreadCard.jsx:9 | `trim()` gives a slice of the input with only whitespace cut on both sides, and the result starts and ends with a non-space |
| JsString.TrimIdempotent | frontend/src/components/TwitterThreadCard.jsx:9 | trimming twice equals trimming once |
| JsString.Utf16Length | api/middleware/validator.js:36-50 | `.length` counts one unit per character of the Basic Multilingual Plane and two per astral character |
| JsString.Utf16LengthAppend | api/middleware/validator.js:36-50 | the length of a concatenation is the sum of the lengths |
| JsString.BmpLength | api/middleware/validator.js:36-50 | without astral characters, `.length` is the number of characters |
| Http.HttpClient.Post | api/services/mistral.js:41-51 | logs exactly the request and returns the oracle's reply given everything sent before |
| JsValue.Prop | api/services/mistral.js:52 | a property read throws exactly on null and undefined, and otherwise reads the own key |
| Platforms.Parse | api/middleware/validator.js:9 | an id names a platform iff it is in `ALLOWED_PLATFORMS`, and then names the one whose id it is |
| Platforms.ParseId | api/middleware/validator.js:9 | every platform's id is whitelisted and parses back to that platform |
| Validator.InvalidPlatformsOf | api/middleware/validator.js:71 | there are never more invalid entries than entries |
| Validator.InvalidPlatformsOfMembers | api/middleware/validator.js:71 | the reported entries are exactly the non-whitelisted entries of the input; none is reported iff all are whitelisted |
| Validator.InvalidPlatformsOfAppend | api/middleware/validator.js:71 | the filter distributes over concatenation, so input order is kept |
| Validator.RejectionBody | api/middleware/validator.js:74-78 | every 400 body has `error: 'Validation failed'` and the reason's details; only the whitelist refusal carries `allowed` |
| Validator.CheckProfile | api/middleware/validator.js:82-128 | the profile guards only ever pass or refuse for a profile reason |
| Validator.ValidateGenerateAcceptsWellFormed | api/middleware/validator.js:23-132 | `next()` runs iff content is a string of 100..10000 units, platforms is a non-empty array of at most 5 whitelisted ids, and the profile is falsy or well-formed |
| Validator.ContentCheckedFirst | api/middleware/validator.js:27-50 | a bad content is reported with a content reason, whatever the rest holds |
| Validator.PlatformsCheckedSecond | api/middleware/validator.js:53-79 | with good content, bad platforms are reported with a platforms reason before the profile is looked at |
| Validator.ProfileCheckedLast | api/middleware/validator.js:82-131 | with good content and platforms, the request passes iff the profile is acceptable |
| Validator.UnknownPlatformsListed | api/middleware/validator.js:71-78 | the whitelist refusal lists every offending entry and nothing else, and comes with the whitelist |
| Validator.ShortContentRefused | api/middleware/validator.js:36-42 | a five-character content is refused for length |
| Validator.BogusPlatformRefused | api/middleware/validator.js:71-78 | `["twitter", "bogus"]` is refused naming only `bogus`, as `Invalid platforms: bogus` |
| Validator.TwoPlatformsDecide | api/middleware/validator.js:36-78 | with a content of admissible length, two platform entries and no profile, the verdict is the whitelist refusal naming exactly the offending entries, or acceptance |
| Validator.DuplicateValidIdsPass | api/middleware/validator.js:62-72 | a repeated whitelisted id is not refused |
| Validator.ValidateRepurposeAcceptsWellFormed | api/middleware/validator.js:137-164 | the repurpose validator passes iff content is a non-empty string of at most 10000 units and `targetFormat` a non-empty string |
| Validator.RepurposeHasNoMinimum | api/middleware/validator.js:137-164 | a one-character content passes the repurpose validator |
| Prompts.BuildPromptSupportedIff | api/services/mistral.js:99-204 | corrected builder: a prompt exists exactly for the five whitelisted ids, and it is that platform's template filled with the profile preamble and the content |
| Prompts.UnsupportedIsUniform | api/services/mistral.js:203 | corrected builder: an id that is not whitelisted gives null whatever the content and profile |
| Prompts.BuildPromptAsWrittenCases | api/services/mistral.js:82-203 | `buildPrompt` as written: a null profile throws the TypeError for every id; otherwise a whitelisted id gets its template, an inherited member name that member, and any other id nothing |
| Prompts.BudgetOrder | api/services/mistral.js:102-201 | the budgets are devto 2500, github 2000, newsletter 1500, twitter and linkedin 1200, in that decreasing order |
| Prompts.PromptRoundTrip | api/services/mistral.js:104-121 | each prompt starts with the profile preamble, and the content can be read back verbatim from between the lead and the instructions |
| Prompts.Framing | api/services/mistral.js:104-109 | in preamble + lead + content + tail, the content sits at a fixed slice |
| Prompts.PromptDeterminesContent | api/services/mistral.js:104-121 | two different contents never give the same prompt |
| Prompts.AuthorAndBio | api/services/mistral.js:89-90 | the author line names the given name or defaults to `Tu es un développeur. `; the bio line is the bio plus a newline, or empty |
| Prompts.ToneFallback | api/services/mistral.js:86-91 | a missing or unknown tone gets the professional description |
| Prompts.ToneInfoAsWritten | api/services/mistral.js:91 | the tone line as written equals the corrected one for every tone key that is not an inherited member name |
| Prompts.NullProfileThrows | api/services/mistral.js:82-84 | as written, `buildProfileInfo(null)` throws `Cannot read properties of null (reading 'name')`; every other profile whose tone is not an inherited name gives the corrected result |
| Prompts.NullProfileReadsAsMissing | api/services/mistral.js:82-93 | corrected: null, undefined and `{}` give the same default preamble |
| Prompts.InheritedKeysAreFound | api/services/mistral.js:91-203 | as written, `prompts['toString']` is the inherited member, not null, and tone `constructor` prints `function Object() { [native code] }` instead of falling back |
| Prompts.OnlyOwnKeysAreFound | api/services/mistral.js:91 | corrected: every non-whitelisted id has no prompt, and `constructor` as a tone gets the professional description |
| Mistral.ResolveApiKey | api/services/mistral.js:25 | an own `apiKey` option wins, even when empty; otherwise the environment key is used |
| Mistral.ResolveApiUrl | api/services/mistral.js:27 | a non-empty `apiUrl` option is used; a missing or empty one gives the Mistral endpoint; the URL is never empty |
| Mistral.KeyConfiguredString | api/services/mistral.js:33-35 | a string key is configured iff it is non-empty and not the placeholder |
| Mistral.ExplicitKeyWins | api/services/mistral.js:23-25 | an explicit empty key leaves the service unconfigured; without the option, the environment key decides |
| Mistral.ChatRequest | api/services/mistral.js:41-51 | the request goes to the service URL with a 30 s timeout, a bearer header and JSON content type, and carries the model, the budget and one entry per message |
| Mistral.CompletionContent | api/services/mistral.js:52 | reading `choices[0].message.content` fails only with a property-read TypeError |
| Mistral.CompletionContentOfReply | api/services/mistral.js:52 | a completion body built around a text gives that text back |
| Mistral.CallResult | api/services/mistral.js:40-53 | a rejected request propagates its error; a received one succeeds iff the completion text can be read |
| Mistral.CallWithSystemResult | api/services/mistral.js:58-77 | succeeds iff the plain call would, returning its content and the body's `usage` |
| Mistral.Settle | api/services/mistral.js:226-235 | a success is stored as the text; a failure as `Failed to generate for <platform>` with the error's message |
| Mistral.PromptedIsSupported | api/services/mistral.js:209-217 | with `buildPrompt` as written, requests go out for the whitelisted ids and inherited names, and none at all for a null profile; with the corrected builder, for exactly the whitelisted ids |
| Mistral.ServiceSends | api/services/mistral.js:209-216 | as written, `generateForPlatform` calls the model iff the profile is not null and the id is whitelisted or an inherited name; otherwise it throws the TypeError or `Platform '<id>' not supported` |
| Mistral.IntendedSends | api/services/mistral.js:209-216 | corrected: the model is called iff the id is whitelisted; otherwise `Platform '<id>' not supported` is thrown |
| Mistral.Dispatch | api/services/mistral.js:222-239 | the loop specification, for any builder, has one outcome per platform and one request per platform whose build leads to a call |
| Mistral.CollectSnoc | api/services/mistral.js:228 | storing one more platform's outcome updates that key of the results object, except `__proto__` while the prototype setter is reachable, which leaves the entries unchanged |
| Mistral.CollectKeys | api/services/mistral.js:223-238 | a key other than `__proto__` is an entry iff it was requested; `__proto__` is an entry iff it is written after an earlier `__proto__` write cut the setter off |
| Mistral.DispatchOutcomeAt | api/services/mistral.js:225-236 | platform i fails with the thrown message when its build leads to no call; otherwise its request is the k-th sent, and its outcome settles the reply to it, given everything sent before |
| Mistral.ServiceDispatch | api/services/mistral.js:209-239 | as written: a platform fails without a request iff the profile is null or the id is neither whitelisted nor an inherited name, and the requests are counted accordingly |
| Mistral.IntendedDispatch | api/services/mistral.js:209-239 | corrected: a platform fails without a request iff it is not whitelisted, and the requests equal the whitelisted entries in number |
| Mistral.NullProfileDispatch | api/services/mistral.js:82-84 | as written, with a null profile no request is made and every platform fails with the TypeError of reading `name` |
| Mistral.CollectLast | api/services/mistral.js:228-233 | a repeated platform keeps the outcome of its last occurrence; a last `__proto__` written while the setter is reachable leaves no entry |
| Mistral.ProtoSetterKept | api/services/mistral.js:223-233 | writing `results['__proto__']` reaches the prototype setter until a write of `null` or of an object with its own `__proto__` removes it, and it never comes back |
| Mistral.ProtoNotYetKept | api/services/mistral.js:223-233 | while the setter is reachable, `__proto__` is never an own entry of the results |
| Mistral.CollectFailures | api/services/mistral.js:229-234 | when every platform failed with one message, every entry of the results is that failure for its key |
| Mistral.CollectDistinctSize | api/services/mistral.js:223-238 | without duplicates the results object has one entry per platform, one fewer when `__proto__` is among them |
| Mistral.SingleSuccess | api/services/mistral.js:222-239 | one platform answered with a completion gives exactly that text and one request; for `__proto__` the request is sent and the results object stays empty |
| Mistral.RequestCarriesBudget | api/services/mistral.js:216 | as written, with a profile other than null, a whitelisted platform's request carries its budget, the model name and its prompt as the only user message |
| Mistral.InheritedRequest | api/services/mistral.js:203-216 | as written, an inherited member name is sent on with an undefined prompt and the default budget 1200 of `call` |
| Mistral.PartialFailure | api/services/mistral.js:225-236 | a 401 on the second platform leaves the first one's text and records the axios message for the second |
| Mistral.MistralService.constructor | api/services/mistral.js:23-28 | the fields are the resolved key, the injected client or the default, and the resolved URL |
| Mistral.MistralService.Call | api/services/mistral.js:40-53 | sends exactly the user-message request and returns the reading of its reply |
| Mistral.MistralService.CallWithSystem | api/services/mistral.js:58-77 | sends exactly the system+user request and returns content and usage of its reply |
| Mistral.MistralService.GenerateForPlatform | api/services/mistral.js:209-217 | sends nothing and throws when `buildPrompt` throws or finds no entry; otherwise sends the request for the entry found, as written |
| Mistral.MistralService.GenerateForPlatforms | api/services/mistral.js:222-239 | the requests sent are those of `Dispatch` over the platforms with `buildPrompt` as written, and the results are the own entries of the object the writes of `Collect` build |
| Routes.ResolveNodeEnv | api/index.js:26 | the environment is the variable when set, else `development` |
| Routes.ResultsJson | api/index.js:98-102 | the serialised results have the same keys, each mapped to its text or its error object |
| Routes.GenerateSuccess | api/index.js:98-102 | a 200 with `success: true`, the results and `platforms_processed` |
| Routes.GenerateErrorResponse | api/index.js:103-124 | an upstream response gives its status and data; otherwise 504 iff the code is `ECONNABORTED`, else 500 |
| Routes.GlobalErrorResponse | api/index.js:180-196 | 403 iff the message mentions CORS, else 500, with the raw message only outside production |
| Routes.ProductionHidesMessages | api/index.js:192-195 | in production, no raw error message is echoed |
| Routes.RepurposePromptNamesFormat | api/index.js:148 | the repurpose system prompt ends with the target format |
| Routes.AcceptedGenerateBody | api/index.js:78-94 | an accepted body has string content and an array of whitelisted ids |
| Routes.PlatformIds | api/index.js:80-94 | the ids handed to the service are the accepted array's strings |
| Routes.AcceptedBodyRequests | api/index.js:94 | an accepted body with a profile other than null leads to one request per platform id |
| Routes.NullProfileResults | api/index.js:94-102 | an accepted body with `"profile": null` leads to no request, and every entry of the results is `Failed to generate for <id>` with the TypeError of reading `name` |
| Routes.App.constructor | api/index.js:29 | start-up builds the service with the environment key as an own option and the default endpoint |
| Routes.App.SetMistralService | api/index.js:32-34 | the handlers use the injected service from then on |
| Routes.App.Health | api/index.js:63-72 | `/health` answers 200 with the configuration flag of the current service |
| Routes.App.Generate | api/index.js:78-126 | a refused body gets the validator's 400 and no request; a missing key gets the 500 and no request; otherwise the service's requests and results, with `buildPrompt` as written, make up the 200 |
| Routes.App.Repurpose | api/index.js:132-163 | refusal and missing key send nothing; otherwise one system+user request, and a 200 or the generic 500 |
| ThreadCard.NumberedPrefixIff | frontend/src/components/TwitterThreadCard.jsx:87 | a greedy digit run followed by `/` is exactly the `^\d+\/` match |
| ThreadCard.NumberedPrefixExtends | frontend/src/components/TwitterThreadCard.jsx:8 | a numbered start stays one when text is appended |
| ThreadCard.NumberedPrefixBeforeNewline | frontend/src/components/TwitterThreadCard.jsx:8 | cutting a numbered text at a newline keeps its number |
| ThreadCard.FindBreak | frontend/src/components/TwitterThreadCard.jsx:8 | finds the first newline followed by a tweet number, and there is none before it |
| ThreadCard.Split | frontend/src/components/TwitterThreadCard.jsx:8 | the split yields at least one piece |
| ThreadCard.SplitJoin | frontend/src/components/TwitterThreadCard.jsx:8 | joining the pieces with a newline gives the content back, so only separating newlines are removed |
| ThreadCard.SplitOnePieceIff | frontend/src/components/TwitterThreadCard.jsx:8 | the content is cut iff a newline followed by digits and `/` occurs; otherwise it is the single piece |
| ThreadCard.SplitPiecesUnbroken | frontend/src/components/TwitterThreadCard.jsx:8 | no piece contains a separator |
| ThreadCard.SplitPiecesNumbered | frontend/src/components/TwitterThreadCard.jsx:8 | every piece after the first starts with digits and `/` |
| ThreadCard.TrimNonEmpty | frontend/src/components/TwitterThreadCard.jsx:9-10 | the kept tweets are non-empty and trimmed, and no more than the pieces |
| ThreadCard.ParseThread | frontend/src/components/TwitterThreadCard.jsx:7-10 | every parsed tweet is non-empty and trimmed |
| ThreadCard.UnnumberedIsOneTweet | frontend/src/components/TwitterThreadCard.jsx:7-10 | content without a numbered line is at most one tweet, its trimmed self |
| ThreadCard.StripNumbering | frontend/src/components/TwitterThreadCard.jsx:87 | the stripped text is a suffix of the tweet |
| ThreadCard.StripNumberingSpec | frontend/src/components/TwitterThreadCard.jsx:87 | a numbered tweet loses exactly its digits, its slash and the longest whitespace run after them; any other tweet is unchanged |
| ThreadCard.CharCount | frontend/src/components/TwitterThreadCard.jsx:87 | the counted length never exceeds the tweet's length |
| ThreadCard.LimitFacts | frontend/src/components/TwitterThreadCard.jsx:87-88 | a tweet of at most 280 units is never flagged; an unnumbered tweet is flagged iff longer than 280; a numbered one iff the text after its number and whitespace is longer than 280 |
| ThreadCard.Uniform | frontend/src/components/TwitterThreadCard.jsx:13 | n entries all set to the same flag |
| ThreadCard.Count | frontend/src/components/TwitterThreadCard.jsx:46 | the count is at most the number of entries |
| ThreadCard.Chosen | frontend/src/components/TwitterThreadCard.jsx:31-32 | as many tweets are chosen as entries are selected |
| ThreadCard.CountAppend | frontend/src/components/TwitterThreadCard.jsx:46 | counting distributes over concatenation |
| ThreadCard.ChosenAppend | frontend/src/components/TwitterThreadCard.jsx:31-32 | choosing distributes over concatenation, so thread order is kept |
| ThreadCard.ChosenUniform | frontend/src/components/TwitterThreadCard.jsx:22-33 | with all selected, every tweet is counted and chosen; with none, nothing |
| ThreadCard.CountAll | frontend/src/components/TwitterThreadCard.jsx:46 | every entry is counted only when every entry is selected |
| ThreadCard.ToggleFlipsOne | frontend/src/components/TwitterThreadCard.jsx:16-20 | toggling flips the entry with that id and no other; an unknown id changes nothing |
| ThreadCard.ToggleTwice | frontend/src/components/TwitterThreadCard.jsx:16-20 | toggling twice restores the selection |
| ThreadCard.ToggleCount | frontend/src/components/TwitterThreadCard.jsx:16-20 | toggling changes the selected count by exactly one, in the right direction |
| ThreadCard.ThreadSelection.constructor | frontend/src/components/TwitterThreadCard.jsx:7-14 | one entry per parsed tweet, ids 0..n-1, all unselected |
| ThreadCard.ThreadSelection.ToggleTweet | frontend/src/components/TwitterThreadCard.jsx:16-20 | the new selection is the toggled one |
| ThreadCard.ThreadSelection.SelectAll | frontend/src/components/TwitterThreadCard.jsx:22-24 | every entry is selected |
| ThreadCard.ThreadSelection.DeselectAll | frontend/src/components/TwitterThreadCard.jsx:26-28 | no entry is selected |
| ThreadCard.ThreadSelection.SelectedCount | frontend/src/components/TwitterThreadCard.jsx:46 | the count is at most the number of tweets |
| ThreadCard.ThreadSelection.DownloadText | frontend/src/components/TwitterThreadCard.jsx:30-33 | with nothing selected the download is empty; with everything selected it is every tweet, separated by a blank line |
| Home.PrependCapped | frontend/src/pages/Home.jsx:28-39 | the new entry comes first, the previous entries follow in order, and the length is min(old + 1, 20) |
| Home.PrependDropsOldest | frontend/src/pages/Home.jsx:36 | a full history loses exactly its oldest entry |
| Home.Rank | frontend/src/pages/Home.jsx:10-16 | each platform has a position among the five toggles |
| Home.SelectedIn | frontend/src/pages/Home.jsx:72 | a platform is selected iff it is in the order and switched on |
| Home.SelectedInRanked | frontend/src/pages/Home.jsx:72 | filtering keeps the toggle order |
| Home.AllPlatformsRanked | frontend/src/pages/Home.jsx:10-16 | the toggle object lists twitter, linkedin, devto, github, newsletter in that order |
| Home.SelectedIdsSpec | frontend/src/pages/Home.jsx:72 | the selected ids are exactly the switched-on platforms of the order, whitelisted, in increasing position, at most five |
| Home.SelectedPlatformsSpec | frontend/src/pages/Home.jsx:72 | `selectedPlatforms` holds exactly the switched-on ids, each once, in toggle order |
| Home.PreCheckError | frontend/src/pages/Home.jsx:48-65 | no message iff content has at least 100 units and a platform is on; otherwise the combined, content or platform message, matching which checks fail |
| Home.HasPlatformsIff | frontend/src/pages/Home.jsx:49 | some toggle is on iff at least one id is selected |
| Home.HomePage.constructor | frontend/src/pages/Home.jsx:9-20 | empty content, every toggle off, no results or error, the stored history |
| Home.HomePage.SetContent | frontend/src/pages/Home.jsx:189 | only the content changes |
| Home.HomePage.TogglePlatform | frontend/src/pages/Home.jsx:24-26 | flips that platform and no other toggle |
| Home.HomePage.AddToHistory | frontend/src/pages/Home.jsx:28-39 | the history becomes the capped prepend of the new entry |
| Home.HomePage.HandleGenerate | frontend/src/pages/Home.jsx:41-88 | failed checks set their message and send nothing; otherwise exactly one request; success shows and records the results, failure shows the message and keeps the history |
| HistoryPage.RemoveById | frontend/src/pages/History.jsx:14 | an entry is kept iff it was there and has another id |
| HistoryPage.RemoveByIdAppend | frontend/src/pages/History.jsx:14 | deleting distributes over concatenation, so kept entries stay in order |
| HistoryPage.RemoveAbsentId | frontend/src/pages/History.jsx:14 | deleting an absent id changes nothing |
| HistoryPage.RemoveByIdIdempotent | frontend/src/pages/History.jsx:13-16 | deleting an id twice is deleting it once |
| HistoryPage.PrefixWithin | frontend/src/pages/History.jsx:35 | the longest prefix measuring at most n UTF-16 units |
| HistoryPage.TruncateTextSpec | frontend/src/pages/History.jsx:33-36 | a text within the limit is unchanged; a longer one is a proper prefix of maxLength units (one fewer at a surrogate pair) followed by `...` |
| HistoryPage.TruncateBmpLength | frontend/src/pages/History.jsx:33-36 | on text without astral characters a truncated text is maxLength + 3 long |
| HistoryPage.DetailContent | frontend/src/pages/History.jsx:133-137 | the detail view shows the whole content when expanded or within 50 units, and otherwise the longest prefix within 50 units (`PrefixWithin`), which is proper and 49 to 50 units long, followed by `...` |
| HistoryPage.HistoryView.constructor | frontend/src/pages/History.jsx:8-9 | the stored history and no open entry |
| HistoryPage.HistoryView.SelectItem | frontend/src/pages/History.jsx:150-153 | opens the clicked entry |
| HistoryPage.HistoryView.CloseItem | frontend/src/pages/History.jsx:86-89 | closes the detail view |
| HistoryPage.HistoryView.DeleteItem | frontend/src/pages/History.jsx:13-20 | removes every entry with the id; the open entry is closed iff it has that id |
| HistoryPage.HistoryView.ClearAllHistory | frontend/src/pages/History.jsx:39-45 | when confirmed, empties the history and closes the entry; otherwise changes nothing |
| FrontendApi.ProfileToSend | frontend/src/services/mistralAPI.js:15-19 | a stored profile is sent as it is; a missing one becomes `{name: '', bio: '', tone: 'professional'}` |
| FrontendApi.GenerateRequest | frontend/src/services/mistralAPI.js:24-33 | POST to `/api/recontent/generate` with content, platforms and profile, a JSON header and a 60 s timeout |
| FrontendApi.HeadlineOf | frontend/src/services/mistralAPI.js:47 | the body's `error` when truthy, else `API Error` |
| FrontendApi.ExplanationOf | frontend/src/services/mistralAPI.js:48 | the body's `details`, else its `message`, else empty |
| FrontendApi.ErrorMessage | frontend/src/services/mistralAPI.js:44-59 | a response gives `error: details`; otherwise a timeout message, then a no-response message, then `Error: ` and the message; never empty |
| FrontendApi.GenerateOutcome | frontend/src/services/mistralAPI.js:35-59 | results are returned unchanged iff the body's `success` is truthy; other 2xx bodies give `Error: API returned unsuccessful response` (or the TypeError on a null body); rejections their classified message |
| FrontendApi.GenerateContent | frontend/src/services/mistralAPI.js:13-61 | sends exactly the generate request and returns the outcome of its reply |
| FrontendApi.HealthOutcome | frontend/src/services/mistralAPI.js:67-77 | the body on success; any failure becomes `API backend non accessible` |
| FrontendApi.HttpErrorText | frontend/src/services/mistralAPI.js:45-49 | a body with string `error` and `details` reads `error: details` |
| FrontendApi.EmptyErrorBody | frontend/src/services/mistralAPI.js:47-49 | a null error body reads `API Error: ` |
| EndToEnd.DefaultProfileAccepted | frontend/src/services/mistralAPI.js:15-19 | the default profile passes the backend's profile checks |
| EndToEnd.PreCheckedRequestAccepted | frontend/src/pages/Home.jsx:48-73 | a request that passed the page's checks, with at most 10000 units and a default or acceptable profile, passes the generate validator |
| EndToEnd.OverlongContentRefused | api/middleware/validator.js:44-50 | the page sends content over 10000 units, and the backend refuses it as too long |
| EndToEnd.FrontendUnwrapsResults | frontend/src/services/mistralAPI.js:35-36 | the page receives the backend's results object unchanged |
| EndToEnd.RefusalMessage | frontend/src/services/mistralAPI.js:45-49 | a validation refusal surfaces as `Validation failed: <details>` |
| EndToEnd.RefusalBodyText | frontend/src/services/mistralAPI.js:45-48 | from a validator refusal the page reads `Validation failed` as the headline and the refusal's details as the explanation |
| EndToEnd.MissingKeyMessage | frontend/src/services/mistralAPI.js:45-49 | a missing key surfaces as `Service configuration error: ` followed by its message |

## Left out

- Logging (winston and `console`), the rate limiters, the CORS configuration and the body-size limit are left out: they are configuration around the handlers, not logic the handlers run.
- The 404 handler and the server start-up are left out: they are fixed answers and I/O.
- axios itself, the network, and the timeout timers are left out. An injected client stands in for them. Its replies come from an oracle, and a timeout is only the `ECONNABORTED` code of an error.
- `checkAPIHealth`'s GET is not sent through the client model. Only its mapping of a reply (`FrontendApi.HealthOutcome`) is modelled.
- Promises and `await` are left out. Each handler runs to completion before the next event, so concurrent clicks and React's stale closure over `history` in `addToHistory` are not modelled.
- `Date.now()`, `new Date().toISOString()` and the confirmation dialog are left out. They become parameters (`now`, `date`, `timestamp`, `confirmed`).
- `localStorage` and the `storage` wrapper are left out. The stored history and the stored profile are parameters, and saving is not modelled.
- The Blob download, the clipboard, the Markdown preview, the Profile page, toasts and animations are left out. They are UI with no stateable logic: the shake flag, the textarea expansion, the `showFullContent` toggle (its effect is `HistoryPage.DetailContent`) and the focus blur.
- `loading` is modelled only as its final value. The intermediate `true` is not observable once the handler has run to completion.
- JSON serialisation is left out. Object key order is not modelled, so insertion order of `results` is lost. Numbers are integers, and `undefined` members are not dropped.
- The card parses its tweets once, when it mounts, as `useState` does. A later change of the `content` prop is not modelled.
- The `/generate` catch block cannot be reached with the real service, because `generateForPlatforms` catches every error. An object injected with `setMistralService` whose `generateForPlatforms` rejects would reach it. The model injects only `MistralService` instances, so the catch is modelled on its own as `Routes.GenerateErrorResponse`.
- HistoryPage.TruncateText: a `substring` that cuts a surrogate pair keeps the lone high surrogate in JavaScript. Dafny strings cannot hold one, so the model drops that half character.
- JsValue.Get: an inherited `Object.prototype` member is read as undefined. The prompt and tone tables are the exception: `Prompts.BuildPromptAsWritten` and `Prompts.ToneInfoAsWritten` read inherited members there, and the service uses them. No other key the program reads has such a name, and the one write that can hit an inherited member, `results['__proto__']`, is modelled by `Mistral.Store`.
- BuildPromptSupportedIff: states the corrected builder, not the code. As written, a null profile throws and an inherited name finds a member; `Prompts.BuildPromptAsWrittenCases` states that.
- UnsupportedIsUniform: states the corrected builder, not the code. As written, a null profile throws before the lookup and an inherited name is not null; `Prompts.BuildPromptAsWrittenCases` states that.
- IntendedSends, IntendedDispatch: state the corrected builder. `Mistral.ServiceSends` and `Mistral.ServiceDispatch` state what the code does.
- Prompts.NativeText: how V8 prints a native function's source text is modelled from the engine's documented `[native code]` form, not from a runtime.

## Findings

| source | as written | input that shows it | evidently intended | confidence | as-written member | corrected member |
|---|---|---|---|---|---|---|
| api/services/mistral.js:82-84 | `buildProfileInfo(profile = {})` reads `profile.name`; the default applies only to `undefined` | `POST /generate` with `"profile": null`: the validator lets a falsy profile through, and every platform fails with `Cannot read properties of null (reading 'name')` without any model call | a null profile treated like a missing one, giving the default preamble | not executed; follows from JavaScript default-parameter semantics; `Routes.NullProfileResults` states the route's answer | Prompts.NullProfileThrows | Prompts.NullProfileReadsAsMissing |
| api/services/mistral.js:203 | `prompts[platform] \|\| null` and `TONE_DESCRIPTIONS[userProfile.tone]` look keys up on plain objects, so inherited members are found | `generateForPlatform('toString', …)` gets a function instead of null and calls the model with an undefined prompt; tone `constructor` is not replaced by the professional description | only the table's own keys are found | not executed; the validator's whitelists keep these inputs away from the HTTP routes, so only direct users of the service see it; `Mistral.InheritedRequest` states the request sent | Prompts.InheritedKeysAreFound | Prompts.OnlyOwnKeysAreFound |
