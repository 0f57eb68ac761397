# encore-completions-go: the provider normalisation layer, in Dafny

This project models the part of the chat-completions service that translates
between one common request/response format and five upstream AI providers
(Groq, OpenRouter, Gemini, Atlas Cloud, Chutes). It proves properties of that
model:

- each adapter turns a `ChatRequest` into the payload its provider expects, and turns the provider's parsed reply (or HTTP failure) into a `ChatResponse` or an error;
- the registry maps provider names to adapters;
- the chat service validates a request, picks the provider and its key, and dispatches; it also reports health and tests providers;
- the legacy single-file service (`app/route/index.go`) is a groq-only copy of the same rules, plus a token estimate.

The network is an input. `Wire.Io` bundles the upstream calls as functions:

- an OpenAI-style chat call and a Gemini call, each returning a transport failure or a status, a body and the parsed reply (if the body parsed);
- an image GET;
- the clock reading.

Each adapter is written the way the Go code is:

- a `BuildPayload` method (nested append loops, conditional inserts into the optional-parameter map);
- a `MapResponse` method (the index-filled `Choices` loop);
- a `ChatCompletion` method.

Each method is proved equal to a specification function (`PayloadOf`, `ResponseOf`, `Complete`), and the properties are lemmas about those functions. The registry is a class over a `map<string, Adapter>`; `Adapter` is a datatype tag for the five implementations of the `Provider` interface.

Module layout, one per source file:

| Module | Contents |
|---|---|
| `Models` | the data types of `src/models/chat.go` |
| `Config` | `src/config/config.go` |
| `Groq`, `OpenRouter`, `Gemini`, `Atlas`, `Chutes` | one per adapter |
| `Providers` | `registry.go` |
| `ChatService` | `chat_service.go` |
| `Route` | the legacy service |
| `OpenAICompat` | the translation and reply mapping the four OpenAI-compatible adapters share |
| `Wire` | provider payloads and replies |
| `Strings` | the Go `strings` functions needed |
| `Errors` | one constructor per error message |
| `Wrappers` | `Option` / `Result` |

Five places in the source do not compile. Each is modelled as its evident intent, with a comment at the modelled member (or, for the last, a line under "## Left out"):

- the chat service takes one result from the two-result `GetProvider`; lookup is modelled as a `Result`, and failure as "unsupported provider";
- Atlas assigns the reply's content string to a part list; it becomes one text part, as in the other adapters;
- the Atlas constructor takes no configuration, although the registry passes one; adapters carry no state;
- Chutes reads `ImageData`, which `ChatRequest` lacks; it is an added string field beside `WithImage`;
- the legacy `getAPIKey` calls `loadEnvFile`, which is defined nowhere; the environment is the function `env`, and the call is left out.

Some behaviour of the code that a reader might not expect, modelled as written:

- `ChatService.TestProvider` checks a missing key before the provider name; with the configuration as written, `invalid_provider` can therefore never be reported (proved in `ChatService.TestStatusCases`);
- `ProcessChatCompletion` rejects an empty prompt even when messages or an image are present;
- `ProcessChatCompletion` applies no defaults for temperature or max tokens, and does not build messages from the prompt;
- no code in the repository calls `InitProviders` (the controller's `initService` builds only the configuration and the chat service, and `main.go` is empty), so as wired the registry is empty and every request with a prompt and a key gets "unsupported provider" (`ChatService.EmptyRegistryRejects`); `ChatService.RegisteredProvidersCoverKeys` states what happens once `InitProviders` has run;
- the legacy `countTokens` divides Go's `len` — the UTF-8 byte count — by four.

## Model

| member | source | states |
|---|---|---|
| Config.SupportedProviders | src/config/config.go:46-48 | exactly five provider names, all distinct (`groq, openrouter, gemini, atlas, chutes`, in that order) |
| Config.GetAPIKey | src/config/config.go:23-38 | an unknown provider gets the empty key; only supported providers can have a key |
| Config.KeysBySecret | src/config/config.go:5-11 | each of the five names reads its own secret |
| Config.HasAPIKey | src/config/config.go:41-43 | a configured (non-empty) key implies a supported provider |
| Config.IsValidProvider | src/config/config.go:51-58 | the search loop answers true exactly when the name is in the supported list |
| OpenAICompat.WirePartsOneToOne | src/providers/groq.go:38-67 | part translation never adds parts; when every part is a text or a non-nil image part, it maps them one for one, in order |
| OpenAICompat.WirePartsAppend | src/providers/groq.go:38-67 | translating a concatenation translates each half, in order |
| OpenAICompat.DroppedPartIgnored | src/providers/groq.go:38-67 | a part that is neither text nor an image with a URL is dropped; the others keep their translation and order |
| OpenAICompat.WireMessagesShape | src/providers/groq.go:35-72 | one output message per input message, same role, content the translated parts |
| OpenAICompat.Options | src/providers/openrouter.go:70-75 | `temperature` and `max_tokens` are present exactly when requested, with the requested values, and nothing else is |
| OpenAICompat.MapChoices | src/providers/openrouter.go:152-166 | the choices loop keeps count and order; index, role and finish reason are copied; content becomes one text part |
| OpenAICompat.MapResponse | src/providers/openrouter.go:109-150 | equals the shared reply mapping: transport failure, non-200 (status and body), parse failure, else the reply mapped |
| OpenAICompat.ResponseOfPassesThrough | src/providers/openrouter.go:109-166 | success exactly for a parsed 200 reply; any other status is an error with status and body; id, object, created, model and usage pass through, and choices keep count and order |
| Groq.BuildParts | src/providers/groq.go:38-67 | the part loop fails with "empty image URL" exactly when an image part's URL is blank, and otherwise yields the translated parts |
| Groq.BuildMessages | src/providers/groq.go:35-72 | the message loop fails exactly when some message holds a blank image URL, and otherwise yields the translated messages |
| Groq.BuildPayload | src/providers/groq.go:74-93 | the payload method equals the payload specification: model default and optional keys |
| Groq.MapResponse | src/providers/groq.go:125-192 | equals the Groq reply mapping, including the status-400 image-access case |
| Groq.ChatCompletion | src/providers/groq.go:31-195 | payload, call and mapping compose as `Groq.Complete`; nothing is sent if the payload fails |
| Groq.PayloadShape | src/providers/groq.go:35-93 | a payload is built exactly when no image URL is whitespace-only; messages keep count, roles and part order; the model defaults to the vision model with an image, else `openai/gpt-oss-120b`; optional keys appear exactly when given |
| Groq.BlankImageStopsBeforeCall | src/providers/groq.go:48-51 | a whitespace-only image URL anywhere gives "empty image URL", whatever the upstream would answer |
| Groq.MediaFailureRecognised | src/providers/groq.go:125-134 | status 400 with "failed to retrieve media" anywhere in the body is an image-access error carrying the body |
| Groq.StatusClassified | src/providers/groq.go:125-137 | an image-access error only comes from status 400 with the marker in the body; any other non-200 is the generic error with status and body; 200 is mapped as elsewhere |
| OpenRouter.BuildParts | src/providers/openrouter.go:35-47 | the part loop yields the translated parts (no URL check) |
| OpenRouter.BuildMessages | src/providers/openrouter.go:33-54 | the message loop yields the translated messages |
| OpenRouter.BuildPayload | src/providers/openrouter.go:56-75 | the payload method equals the payload specification |
| OpenRouter.ChatCompletion | src/providers/openrouter.go:29-169 | payload, call and shared mapping compose as `OpenRouter.Complete` |
| OpenRouter.PayloadShape | src/providers/openrouter.go:33-75 | messages keep count, roles and part order; the model defaults to the Gemini image model with an image, else the DeepSeek model; optional keys exactly when given |
| OpenRouter.SameTranslationAsGroq | src/providers/openrouter.go:33-54 | whenever Groq accepts a request, OpenRouter sends the same messages and options, and the same payload when a model is named |
| Chutes.BuildPayload | src/providers/chutes.go:31-68 | the payload method equals the payload specification |
| Chutes.ChatCompletion | src/providers/chutes.go:29-160 | payload, call and shared mapping compose as `Chutes.Complete` |
| Chutes.PayloadShape | src/providers/chutes.go:31-68 | one user message whose first part is the prompt; a second part, the JPEG data URI of the image data, exactly when an image is flagged and non-empty; default model `zai-org/GLM-4.5-FP8`; optional keys exactly when given; `req.messages` is ignored |
| Atlas.BuildPayload | src/providers/atlas.go:30-52 | the payload method equals the payload specification |
| Atlas.ChatCompletion | src/providers/atlas.go:28-139 | payload, call and shared mapping compose as `Atlas.Complete` |
| Atlas.PayloadShape | src/providers/atlas.go:30-52 | one user message holding the prompt as a plain string, whatever `req.messages` holds; default model `openai/gpt-oss-20b`; optional keys exactly when given |
| Gemini.DownloadImage | src/providers/gemini.go:31-61 | succeeds exactly for a fetched 200 body whose Content-Type is empty or starts with `image/`; an empty type becomes `image/jpeg`; the mime type returned always starts with `image/`; non-200 and non-image types give their own errors |
| Gemini.ParseDataURI | src/providers/gemini.go:86-97 | fails exactly when there is no comma; otherwise splits at the first comma: data after it, header with `data:` and `;base64` trimmed |
| Gemini.DataURIRoundTrip | src/providers/gemini.go:86-97 | a `data:<mime>;base64,<data>` URI parses back to exactly that data and mime type (any data, a mime type without a comma) |
| Gemini.ResolveImageURL | src/providers/gemini.go:86-106 | equals the resolution rule: `data:image/` split, http(s) downloaded (errors wrapped), anything else unsupported |
| Gemini.PartsOfAppend | src/providers/gemini.go:73-119 | after a prefix that succeeds, the parts of a concatenation are the second half's error or both halves' parts in order |
| Gemini.FailureIsFinal | src/providers/gemini.go:88-106 | once a part fails, later parts cannot change the error |
| Gemini.AllPartsAppend | src/providers/gemini.go:74-75 | flattening messages distributes over concatenation |
| Gemini.SkippedPartIgnored | src/providers/gemini.go:76-117 | a part that is neither text nor an image with a URL is skipped; the result is as if it were absent |
| Gemini.UnsupportedSchemeRejected | src/providers/gemini.go:104-106 | an image reference with none of the `data:image/`, `http://`, `https://` prefixes fails with "unsupported image URL" once the earlier parts succeed, whatever follows |
| Gemini.SplitAt | src/providers/gemini.go:74-75 | the flattened parts are those before part j of message i, that part, then the rest |
| Gemini.UnsupportedSchemeStopsBeforeCall | src/providers/gemini.go:104-106 | such a reference in any message fails the payload and the whole call with "unsupported image URL", once the parts before it resolve, whatever Gemini would answer |
| Gemini.MessageParts | src/providers/gemini.go:75-118 | the inner loop over one message's parts equals the part specification, stopping at the first error |
| Gemini.CollectParts | src/providers/gemini.go:73-119 | the nested loops equal the parts of all messages flattened in order, stopping at the first error |
| Gemini.GenerationConfig | src/providers/gemini.go:134-146 | `maxOutputTokens` is always present, the requested limit or 2048; `temperature` exactly when requested; no other key |
| Gemini.BuildPayload | src/providers/gemini.go:73-146 | the payload method equals the payload specification |
| Gemini.FirstBlocked | src/providers/gemini.go:232-239 | finds the first blocking safety rating, or none exactly when no rating blocks |
| Gemini.MapCandidates | src/providers/gemini.go:259-283 | the candidates loop gives choice i from candidate i for every i |
| Gemini.MapResponse | src/providers/gemini.go:199-283 | equals the reply specification: non-200, parse failure, first safety block, no candidates, else the mapped response |
| Gemini.ChatCompletion | src/providers/gemini.go:64-286 | payload, call and mapping compose as `Gemini.Complete` |
| Gemini.TextPartsKept | src/providers/gemini.go:76-79 | text parts pass through one for one, in order |
| Gemini.InlineDataNonEmpty | src/providers/gemini.go:109-116 | every inline image sent has a non-empty mime type and non-empty data |
| Gemini.RolesIgnored | src/providers/gemini.go:74-131 | relabelling the roles of the messages does not change the flattened parts |
| Gemini.PayloadShape | src/providers/gemini.go:121-146 | no surviving part gives "no valid content"; a built payload has one content entry holding all parts, never empty, and the token limit |
| Gemini.NothingSentOnBadPayload | src/providers/gemini.go:73-123 | a payload error is the adapter's answer, whatever Gemini would reply |
| Gemini.SafetyBlockWins | src/providers/gemini.go:232-239 | with a blocking rating, the answer is the safety error of the first blocking rating, whatever the candidates |
| Gemini.SuccessShape | src/providers/gemini.go:241-283 | success needs a parsed 200 reply without a blocking rating and with candidates; one choice per candidate, index i, role assistant, one text part, finish reason lower-cased (so free of upper-case letters); object `chat.completion`, the given model, id and created from the clock, usage copied 1:1 |
| Gemini.ModelReported | src/providers/gemini.go:66-70 | the model is the request's or `gemini-2.5-flash`; it is both the one called and the one reported |
| Gemini.TruncationNoticeOnlyWhenEmpty | src/providers/gemini.go:260-268 | the placeholder appears exactly for a part-less candidate whose reason lower-cases to `max_tokens`; otherwise the first part's text, or "" |
| Providers.ChatCompletion | src/providers/registry.go:11-14 | interface dispatch: each tag runs its adapter's `ChatCompletion` |
| Providers.GetName | src/providers/groq.go:26-28 | each adapter's name is a supported provider name; the tags model the five `GetName` methods: groq.go:26-28, gemini.go:26-28, openrouter.go:24-26, atlas.go:23-25, chutes.go:24-26 |
| Providers.InitialProviders | src/providers/registry.go:41-47 | the initial table's names are exactly the supported providers, each mapped to the adapter whose `GetName` is that name |
| Providers.Registry.RegisterProvider | src/providers/registry.go:23-27 | the name now maps to the adapter, overwriting any old entry; every other entry is unchanged |
| Providers.Registry.GetProvider | src/providers/registry.go:30-38 | an error ("provider %s not found") exactly when the name is unregistered, otherwise its adapter; the table is not changed |
| Providers.Registry.InitProviders | src/providers/registry.go:41-47 | the table becomes the old one overridden by the five adapters; from empty, exactly the five |
| Providers.ChutesImageReadByGemini | src/providers/chutes.go:39-46 | the data URI Chutes builds for an image resolves in Gemini to the same data as `image/jpeg` |
| ChatService.ProcessChatCompletion | src/services/chat_service.go:24-50 | equals the orchestration specification: prompt check, provider default, key check, registry lookup, then the adapter's own result |
| ChatService.ProcessOutcomes | src/services/chat_service.go:25-48 | empty prompt first; then the default `groq`; then a missing key; then an unregistered name is "unsupported provider"; a registered provider's answer is exactly its adapter's result for the request and that provider's key |
| ChatService.RegisteredProvidersCoverKeys | src/services/chat_service.go:36-48 | assuming the table is the one `InitProviders` builds, any provider with a key has an adapter of that name, so the answer is that adapter's |
| ChatService.EmptyRegistryRejects | src/services/chat_service.go:42-45 | with the empty table the service has as wired, a request with a prompt and a key is "unsupported provider" |
| ChatService.GetHealthStatus | src/services/chat_service.go:53-76 | the loop with early exit equals the health specification |
| ChatService.HealthReflectsSecrets | src/services/chat_service.go:53-76 | status is always `healthy`; chat is `healthy` exactly when one of the five secrets is set, else `no_api_keys` |
| ChatService.GetSupportedProviders | src/services/chat_service.go:78-83 | the response lists exactly the configured supported providers, in their order |
| ChatService.TestProvider | src/services/chat_service.go:86-115 | equals the status specification in the code's order: `invalid_request`, `no_api_key`, `invalid_provider`, `healthy` |
| ChatService.TestStatusCases | src/services/chat_service.go:86-115 | `invalid_provider` never occurs; `healthy` exactly when the provider has a key; an unknown non-empty name gets `no_api_key` |
| ChatService.HealthAgreesWithTests | src/services/chat_service.go:53-115 | chat is healthy exactly when some supported provider tests healthy |
| Route.GetAPIKey | app/route/index.go:20-38 | each name reads its environment variable; unknown names get the empty key |
| Route.KeysAgree | app/route/index.go:20-38 | with the same keys, the legacy service and the main service agree on every provider's key |
| Route.GetModel | app/route/index.go:203-208 | the requested model if non-empty, else `llama3-8b-8192`; never empty |
| Route.BuildPayload | app/route/index.go:218-240 | the payload method equals the payload specification |
| Route.MapChoices | app/route/index.go:315-324 | choices keep count and order; index, role, content and finish reason are copied |
| Route.MapResponse | app/route/index.go:272-324 | equals the reply specification |
| Route.CallGroqAPI | app/route/index.go:216-327 | payload, call and mapping compose as `Route.CallGroq` |
| Route.PayloadShape | app/route/index.go:218-240 | one user message with the prompt; model defaults to `llama3-8b-8192`; optional keys exactly when given |
| Route.ReplyCopied | app/route/index.go:272-324 | non-200 is an error with status and body; a success copies identifiers, usage and choices field by field |
| Route.ChatCompletion | app/route/index.go:106-130 | equals the legacy orchestration specification |
| Route.CompletionOutcomes | app/route/index.go:107-129 | empty prompt first, then a missing key; only `groq` is called, any other provider with a key is unsupported |
| Route.HealthCheck | app/route/index.go:135-151 | status always `healthy`; chat `no_api_keys` exactly when every supported provider's key is empty |
| Route.HealthAgrees | app/route/index.go:135-151 | with the same keys, the legacy and main health reports are equal |
| Route.GetProviders | app/route/index.go:156-160 | the list is the configured supported list |
| Route.TestProvider | app/route/index.go:165-200 | the loop with early exit equals the test specification: empty name is an error, then `no_api_key`, `invalid_provider`, `healthy` |
| Route.TestAgrees | app/route/index.go:165-200 | an empty name is exactly the error case; otherwise the status equals the main service's, so `invalid_provider` never occurs |
| Route.CountTokens | app/route/index.go:330-333 | a quarter of the UTF-8 byte length rounded down; between a quarter of the character count and the character count; exactly a quarter of it for ASCII |
| Strings.IndexOf | src/providers/gemini.go:88 | the first position of the character, or none exactly when the character is absent |
| Strings.ContainsHasPosition | src/providers/groq.go:131 | containment means an occurrence at some position |
| Strings.ContainsAt | src/providers/groq.go:131 | an occurrence at any position means containment |
| Strings.TrimSpaceEmpty | src/providers/groq.go:48 | trimming white space gives the empty string exactly when the string is all white space |
| Strings.ToLowerProperties | src/providers/gemini.go:265 | lower-casing keeps the length, leaves no upper-case letter, keeps every other character and is idempotent |
| Strings.Utf8LengthBounds | app/route/index.go:332 | a string of n characters takes between n and 4n bytes, exactly n for ASCII |

## Left out

- HTTP transport (request construction, headers, timeouts, reading bodies) and JSON encoding and decoding: a call is an `Io` function returning a transport failure or a status, a body and the parsed reply, if any. A request that cannot be marshalled is not modelled.
- URL construction: the OpenAI-compatible calls get the endpoint constant; the Gemini call gets the model and key from which its key-in-query URL is built.
- Image download and base64 encoding (RFC 4648 section 4): the fetch result's body stands for the already-encoded data; only the status and Content-Type checks are modelled. The data-URI split does not validate the header beyond the code's own trimming, as in the source.
- Floating point: temperature is a `real`, and only its presence and its copying matter.
- The clock: Gemini's id and `created` share one clock reading (`Io.unixNow`), where the source reads the clock twice. The health timestamps and the unused legacy `generateID` are left out.
- Logging: Groq's `log.Printf` for non-http(s) image URLs; the URL is still forwarded, as modelled.
- Concurrency: the registry's read/write mutex; the registry is single-threaded.
- Environment: `os.Getenv` becomes the function `env`; the undefined `loadEnvFile` is not modelled.
- Gemini's constant `safetySettings` list, a fixed literal sent with every request.
- JSON `omitempty`: Chutes' text part with an empty prompt is modelled as present with empty text.
- JSON `null` versus `[]`: OpenRouter builds its message and part lists from nil slices, so an empty list goes out as `null` where Groq sends `[]`; the model gives both the empty sequence, so `OpenRouter.SameTranslationAsGroq` does not see that difference.
- ToLower: `strings.ToLower` is Unicode-aware; the model lower-cases ASCII letters only.
- `src/controllers/chat_controller.go` (thin endpoint wrappers), `main.go`, `src/utils/helpers.go` and the unused `Tool`/`GoogleSearch` types.
- The `default:` struct tags on `Temperature` and `MaxTokens` in `ChatRequest`: no modelled code applies them.
