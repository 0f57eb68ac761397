/** The legacy single-file service (app/route/index.go): a groq-only copy of
    the chat rules with string-valued message content, keys read from the
    environment, and a token estimate. */
module Route {
  import opened Wrappers
  import opened Strings
  import opened Errors
  import opened Wire
  import Models
  import OpenAICompat
  import Config
  import ChatService

  const GroqEndpoint := "https://api.groq.com/openai/v1/chat/completions"
  const DefaultModel := "llama3-8b-8192"

  /** The service's own request and response shapes; message content is a
      plain string here. */
  datatype ChatRequest = ChatRequest(prompt: string, model: string, temperature: Option<real>,
                                     maxTokens: Option<int>, stream: Option<bool>, provider: string)
  datatype ChatMessage = ChatMessage(role: string, content: string)
  datatype Choice = Choice(index: int, message: ChatMessage, finishReason: string)
  datatype ChatResponse = ChatResponse(id: string, objectTag: string, created: int, model: string,
                                       choices: seq<Choice>, usage: Models.Usage)

  /** The key of a provider, read from its environment variable; `env` is
      the process environment (unset variables read as ""). */
  function GetAPIKey(env: string -> string, provider: string): (key: string)
    ensures !Config.ValidProvider(provider) ==> key == ""
  {
    match provider
    case "groq" => env("GROQ_API_KEY")
    case "openrouter" => env("OPENROUTER_API_KEY")
    case "gemini" => env("GEMINI_API_KEY")
    case "atlas" => env("ATLASCLOUD_API_KEY")
    case "chutes" => env("CHUTES_API_KEY")
    case _ => ""
  }

  /** The environment holds the same keys as the secrets of the main service. */
  predicate SameKeys(env: string -> string, secrets: Config.Secrets) {
    && env("GROQ_API_KEY") == secrets.groq
    && env("OPENROUTER_API_KEY") == secrets.openRouter
    && env("GEMINI_API_KEY") == secrets.gemini
    && env("ATLASCLOUD_API_KEY") == secrets.atlas
    && env("CHUTES_API_KEY") == secrets.chutes
  }

  /** With the same keys, both services see the same key for every name. */
  lemma KeysAgree(env: string -> string, secrets: Config.Secrets, provider: string)
    requires SameKeys(env, secrets)
    ensures GetAPIKey(env, provider) == Config.GetAPIKey(secrets, provider)
  {
  }

  /** The requested model, or llama3-8b-8192 when none is requested. */
  function GetModel(requestModel: string): (model: string)
    ensures requestModel != "" ==> model == requestModel
    ensures requestModel == "" ==> model == "llama3-8b-8192"
    ensures model != ""
  {
    if requestModel != "" then requestModel else DefaultModel
  }

  // ---------------------------------------------------------------------------
  // callGroqAPI

  function PayloadOf(req: ChatRequest): Payload {
    Payload(GetModel(req.model), [WireMessage("user", Text(req.prompt))],
            OpenAICompat.Options(req.temperature, req.maxTokens))
  }

  method BuildPayload(req: ChatRequest) returns (payload: Payload)
    ensures payload == PayloadOf(req)
  {
    var messages := [WireMessage("user", Text(req.prompt))];
    var model := req.model;
    if model == "" {
      model := DefaultModel;
    }
    var options: map<string, Scalar> := map[];
    if req.temperature.Some? {
      options := options["temperature" := Float(req.temperature.value)];
    }
    if req.maxTokens.Some? {
      options := options["max_tokens" := Int(req.maxTokens.value)];
    }
    payload := Payload(model, messages, options);
  }

  function ToChoice(c: ReplyChoice): Choice {
    Choice(c.index, ChatMessage(c.role, c.content), c.finishReason)
  }

  /** The loop that fills `response.Choices[i]`. */
  method MapChoices(cs: seq<ReplyChoice>) returns (out: seq<Choice>)
    ensures |out| == |cs|
    ensures forall i :: 0 <= i < |cs| ==>
      out[i].index == cs[i].index && out[i].message == ChatMessage(cs[i].role, cs[i].content)
      && out[i].finishReason == cs[i].finishReason
  {
    var choices := new Choice[|cs|];
    for i := 0 to |cs|
      invariant forall k :: 0 <= k < i ==> choices[k] == ToChoice(cs[k])
    {
      choices[i] := Choice(cs[i].index, ChatMessage(cs[i].role, cs[i].content), cs[i].finishReason);
    }
    out := choices[..];
  }

  function ResponseOf(o: HttpOutcome<OpenAIReply>): Result<ChatResponse, Error> {
    match o
    case TransportFailure(reason) => Failure(RequestFailed(reason))
    case Response(status, body, parsed) =>
      if status != StatusOK then Failure(ApiError(status, body))
      else if parsed.None? then Failure(ParseFailure)
      else
        var reply := parsed.value;
        Success(ChatResponse(reply.id, reply.objectTag, reply.created, reply.model,
                             seq(|reply.choices|, i requires 0 <= i < |reply.choices| => ToChoice(reply.choices[i])),
                             reply.usage))
  }

  method MapResponse(o: HttpOutcome<OpenAIReply>) returns (r: Result<ChatResponse, Error>)
    ensures r == ResponseOf(o)
  {
    match o
    case TransportFailure(reason) =>
      return Failure(RequestFailed(reason));
    case Response(status, body, parsed) =>
      if status != StatusOK {
        return Failure(ApiError(status, body));
      }
      if parsed.None? {
        return Failure(ParseFailure);
      }
      var reply := parsed.value;
      var choices := MapChoices(reply.choices);
      assert choices == seq(|reply.choices|, i requires 0 <= i < |reply.choices| => ToChoice(reply.choices[i]));
      r := Success(ChatResponse(reply.id, reply.objectTag, reply.created, reply.model, choices, reply.usage));
  }

  function CallGroq(req: ChatRequest, apiKey: string, io: Io): Result<ChatResponse, Error> {
    ResponseOf(io.sendChat(GroqEndpoint, apiKey, PayloadOf(req)))
  }

  method CallGroqAPI(req: ChatRequest, apiKey: string, io: Io) returns (r: Result<ChatResponse, Error>)
    ensures r == CallGroq(req, apiKey, io)
  {
    var payload := BuildPayload(req);
    var outcome := io.sendChat(GroqEndpoint, apiKey, payload);
    r := MapResponse(outcome);
  }

  /** The payload is the prompt as one user message, the model defaults to
      llama3-8b-8192, and the optional parameters are sent exactly when given. */
  lemma PayloadShape(req: ChatRequest)
    ensures PayloadOf(req).messages == [WireMessage("user", Text(req.prompt))]
    ensures PayloadOf(req).model == (if req.model != "" then req.model else "llama3-8b-8192")
    ensures "temperature" in PayloadOf(req).options <==> req.temperature.Some?
    ensures "max_tokens" in PayloadOf(req).options <==> req.maxTokens.Some?
  {
  }

  /** A 200 reply is copied field by field; any other status is an error
      carrying the status and body. */
  lemma ReplyCopied(o: HttpOutcome<OpenAIReply>)
    ensures o.Response? && o.status != StatusOK ==> ResponseOf(o) == Failure(ApiError(o.status, o.body))
    ensures ResponseOf(o).Success? ==>
      var reply := o.parsed.value; var resp := ResponseOf(o).value;
      && o.Response? && o.status == StatusOK
      && resp.id == reply.id && resp.objectTag == reply.objectTag && resp.created == reply.created
      && resp.model == reply.model && resp.usage == reply.usage
      && |resp.choices| == |reply.choices|
      && forall i :: 0 <= i < |reply.choices| ==>
           resp.choices[i] == Choice(reply.choices[i].index, ChatMessage(reply.choices[i].role, reply.choices[i].content),
                                     reply.choices[i].finishReason)
  {
  }

  // ---------------------------------------------------------------------------
  // Endpoints

  function ProviderName(req: ChatRequest): string {
    if req.provider != "" then req.provider else "groq"
  }

  function Completion(env: string -> string, req: ChatRequest, io: Io): Result<ChatResponse, Error> {
    var name := ProviderName(req);
    var apiKey := GetAPIKey(env, name);
    if req.prompt == "" then Failure(PromptRequired)
    else if apiKey == "" then Failure(MissingAPIKey(name))
    else if name == "groq" then CallGroq(req, apiKey, io)
    else Failure(UnsupportedProvider(name))
  }

  method ChatCompletion(env: string -> string, req: ChatRequest, io: Io) returns (r: Result<ChatResponse, Error>)
    ensures r == Completion(env, req, io)
  {
    if req.prompt == "" {
      return Failure(PromptRequired);
    }
    var providerName := req.provider;
    if providerName == "" {
      providerName := "groq";
    }
    var apiKey := GetAPIKey(env, providerName);
    if apiKey == "" {
      return Failure(MissingAPIKey(providerName));
    }
    if providerName == "groq" {
      r := CallGroqAPI(req, apiKey, io);
    } else {
      r := Failure(UnsupportedProvider(providerName));
    }
  }

  /** The checks in order, and that only groq is ever called: every other
      provider with a key is unsupported. */
  lemma CompletionOutcomes(env: string -> string, req: ChatRequest, io: Io)
    ensures req.prompt == "" ==> Completion(env, req, io) == Failure(PromptRequired)
    ensures req.prompt != "" && GetAPIKey(env, ProviderName(req)) == "" ==>
      Completion(env, req, io) == Failure(MissingAPIKey(ProviderName(req)))
    ensures req.prompt != "" && GetAPIKey(env, ProviderName(req)) != "" ==>
      Completion(env, req, io) ==
        (if ProviderName(req) == "groq" then CallGroq(req, env("GROQ_API_KEY"), io)
         else Failure(UnsupportedProvider(ProviderName(req))))
  {
  }

  /** The health report: chat is "no_api_keys" exactly when all five keys are empty. */
  function HealthCheck(env: string -> string): (r: Models.HealthResponse)
    ensures r.status == "healthy"
    ensures r.services.Keys == {"chat"}
    ensures r.services["chat"] == "no_api_keys" <==>
      (forall p :: p in Config.SupportedProviders() ==> GetAPIKey(env, p) == "")
  {
    var chatStatus :=
      if GetAPIKey(env, "groq") == "" && GetAPIKey(env, "openrouter") == ""
         && GetAPIKey(env, "gemini") == "" && GetAPIKey(env, "atlas") == ""
         && GetAPIKey(env, "chutes") == ""
      then "no_api_keys" else "healthy";
    Models.HealthResponse("healthy", map["chat" := chatStatus])
  }

  /** With the same keys, the legacy health report is the main service's. */
  lemma HealthAgrees(env: string -> string, secrets: Config.Secrets)
    requires SameKeys(env, secrets)
    ensures HealthCheck(env) == ChatService.HealthOf(secrets)
  {
    ChatService.HealthReflectsSecrets(secrets);
  }

  function GetProviders(): (r: Models.ProvidersResponse)
    ensures r.providers == Config.SupportedProviders()
  {
    Models.ProvidersResponse(["groq", "openrouter", "gemini", "atlas", "chutes"])
  }

  const ValidProviders := ["groq", "openrouter", "gemini", "atlas", "chutes"]

  /** What TestProvider answers: an empty name is an error; otherwise a
      missing key is reported before the name is checked. */
  function TestOutcome(env: string -> string, provider: string): Result<Models.TestProviderResponse, Error> {
    if provider == "" then Failure(ProviderRequired)
    else if GetAPIKey(env, provider) == "" then Success(Models.TestProviderResponse(provider, "no_api_key"))
    else if provider !in ValidProviders then Success(Models.TestProviderResponse(provider, "invalid_provider"))
    else Success(Models.TestProviderResponse(provider, "healthy"))
  }

  method TestProvider(env: string -> string, provider: string) returns (r: Result<Models.TestProviderResponse, Error>)
    ensures r == TestOutcome(env, provider)
  {
    if provider == "" {
      return Failure(ProviderRequired);
    }
    var apiKey := GetAPIKey(env, provider);
    if apiKey == "" {
      return Success(Models.TestProviderResponse(provider, "no_api_key"));
    }
    var validProviders := ValidProviders;
    var isValid := false;
    for i := 0 to |validProviders|
      invariant !isValid ==> forall k :: 0 <= k < i ==> validProviders[k] != provider
      invariant isValid ==> provider in validProviders
    {
      if validProviders[i] == provider {
        isValid := true;
        break;
      }
    }
    if !isValid {
      return Success(Models.TestProviderResponse(provider, "invalid_provider"));
    }
    r := Success(Models.TestProviderResponse(provider, "healthy"));
  }

  /** For a non-empty name the legacy test agrees with the main service's;
      in particular "invalid_provider" cannot occur. */
  lemma TestAgrees(env: string -> string, secrets: Config.Secrets, provider: string)
    requires SameKeys(env, secrets)
    ensures provider == "" <==> TestOutcome(env, provider) == Failure(ProviderRequired)
    ensures provider != "" ==> (TestOutcome(env, provider) ==
      Success(Models.TestProviderResponse(provider, ChatService.TestStatus(secrets, provider))))
    ensures TestOutcome(env, provider).Success? ==> TestOutcome(env, provider).value.status != "invalid_provider"
  {
    KeysAgree(env, secrets, provider);
    ChatService.TestStatusCases(secrets, provider);
  }

  /** The token estimate: a quarter of the text's length in bytes (Go's
      `len` counts UTF-8 bytes), rounded down. */
  function CountTokens(text: string): (n: nat)
    ensures 4 * n <= Utf8Length(text) < 4 * n + 4
    ensures |text| / 4 <= n <= |text|
    ensures (forall i :: 0 <= i < |text| ==> text[i] as int < 0x80) ==> n == |text| / 4
  {
    Utf8LengthBounds(text);
    Utf8Length(text) / 4
  }
}
