/** The chat service (src/services/chat_service.go): checks a request,
    picks the provider and its key, and hands the request to the adapter;
    also reports health and tests whether a provider is usable. */
module ChatService {
  import opened Wrappers
  import opened Models
  import opened Errors
  import opened Wire
  import opened Config
  import Providers

  const DefaultProvider := "groq"

  function ProviderName(req: ChatRequest): string {
    if req.provider != "" then req.provider else DefaultProvider
  }

  /** What ProcessChatCompletion answers, given the secrets and the table
      of registered adapters. */
  function Process(secrets: Secrets, table: map<string, Providers.Adapter>, req: ChatRequest, io: Io): Result<ChatResponse, Error> {
    var name := ProviderName(req);
    var apiKey := GetAPIKey(secrets, name);
    if req.prompt == "" then Failure(PromptRequired)
    else if apiKey == "" then Failure(MissingAPIKey(name))
    else if name !in table then Failure(UnsupportedProvider(name))
    else Providers.Complete(table[name], req, apiKey, io)
  }

  method ProcessChatCompletion(secrets: Secrets, registry: Providers.Registry, req: ChatRequest, io: Io)
    returns (r: Result<ChatResponse, Error>)
    ensures r == Process(secrets, registry.providers, req, io)
  {
    if req.prompt == "" {
      return Failure(PromptRequired);
    }
    var providerName := req.provider;
    if providerName == "" {
      providerName := DefaultProvider;
    }
    var apiKey := GetAPIKey(secrets, providerName);
    if apiKey == "" {
      return Failure(MissingAPIKey(providerName));
    }
    // The source takes a single result from the two-result GetProvider,
    // which does not compile; the lookup's error case is read as "no provider".
    var provider := registry.GetProvider(providerName);
    if provider.Failure? {
      return Failure(UnsupportedProvider(providerName));
    }
    r := Providers.ChatCompletion(provider.value, req, apiKey, io);
  }

  /** The checks in order: a prompt first, then a key, then a registered
      adapter (an unregistered name is unsupported), which receives the
      request and that provider's key. */
  lemma ProcessOutcomes(secrets: Secrets, table: map<string, Providers.Adapter>, req: ChatRequest, io: Io)
    ensures req.prompt == "" ==> Process(secrets, table, req, io) == Failure(PromptRequired)
    ensures req.prompt != "" && !HasAPIKey(secrets, ProviderName(req)) ==>
      Process(secrets, table, req, io) == Failure(MissingAPIKey(ProviderName(req)))
    ensures req.prompt != "" && HasAPIKey(secrets, ProviderName(req)) && ProviderName(req) !in table ==>
      Process(secrets, table, req, io) == Failure(UnsupportedProvider(ProviderName(req)))
    ensures req.prompt != "" && HasAPIKey(secrets, ProviderName(req)) && ProviderName(req) in table ==>
      Process(secrets, table, req, io) == Providers.Complete(table[ProviderName(req)], req, GetAPIKey(secrets, ProviderName(req)), io)
    ensures req.provider == "" ==> ProviderName(req) == "groq"
  {
  }

  /** An empty table, as the service is wired, answers every request that
      has a prompt and a key with "unsupported provider". */
  lemma EmptyRegistryRejects(secrets: Secrets, req: ChatRequest, io: Io)
    requires req.prompt != "" && HasAPIKey(secrets, ProviderName(req))
    ensures Process(secrets, map[], req, io) == Failure(UnsupportedProvider(ProviderName(req)))
  {
  }

  /** Once InitProviders has run, a provider that has a key always
      has an adapter, the adapter of that name, so "unsupported provider"
      cannot occur. */
  lemma RegisteredProvidersCoverKeys(secrets: Secrets, req: ChatRequest, io: Io)
    requires req.prompt != "" && HasAPIKey(secrets, ProviderName(req))
    ensures ProviderName(req) in Providers.InitialProviders()
    ensures Process(secrets, Providers.InitialProviders(), req, io) ==
      Providers.Complete(Providers.InitialProviders()[ProviderName(req)], req, GetAPIKey(secrets, ProviderName(req)), io)
    ensures Providers.GetName(Providers.InitialProviders()[ProviderName(req)]) == ProviderName(req)
  {
    var name := ProviderName(req);
    assert ValidProvider(name);
    assert name in set n | n in SupportedProviders();
  }

  // ---------------------------------------------------------------------------
  // Health

  /** Some supported provider has a key. */
  predicate AnyKey(secrets: Secrets) {
    exists i :: 0 <= i < |SupportedProviders()| && HasAPIKey(secrets, SupportedProviders()[i])
  }

  function HealthOf(secrets: Secrets): HealthResponse {
    HealthResponse("healthy", map["chat" := if AnyKey(secrets) then "healthy" else "no_api_keys"])
  }

  /** The loop that looks for any key, stopping at the first. */
  method GetHealthStatus(secrets: Secrets) returns (r: HealthResponse)
    ensures r == HealthOf(secrets)
  {
    var chatStatus := "healthy";
    var hasAnyKey := false;
    var names := SupportedProviders();
    for i := 0 to |names|
      invariant !hasAnyKey ==> forall k :: 0 <= k < i ==> !HasAPIKey(secrets, names[k])
      invariant hasAnyKey ==> AnyKey(secrets)
    {
      if GetAPIKey(secrets, names[i]) != "" {
        hasAnyKey := true;
        break;
      }
    }
    if !hasAnyKey {
      chatStatus := "no_api_keys";
    }
    r := HealthResponse("healthy", map["chat" := chatStatus]);
  }

  /** The service itself is always reported healthy; chat is healthy exactly
      when at least one of the five secrets is set. */
  lemma HealthReflectsSecrets(secrets: Secrets)
    ensures HealthOf(secrets).status == "healthy"
    ensures HealthOf(secrets).services.Keys == {"chat"}
    ensures HealthOf(secrets).services["chat"] == "healthy" <==>
      secrets.groq != "" || secrets.openRouter != "" || secrets.gemini != ""
      || secrets.atlas != "" || secrets.chutes != ""
    ensures HealthOf(secrets).services["chat"] != "healthy" ==> HealthOf(secrets).services["chat"] == "no_api_keys"
  {
    var names := SupportedProviders();
    if secrets.groq != "" { assert HasAPIKey(secrets, names[0]); }
    else if secrets.openRouter != "" { assert HasAPIKey(secrets, names[1]); }
    else if secrets.gemini != "" { assert HasAPIKey(secrets, names[2]); }
    else if secrets.atlas != "" { assert HasAPIKey(secrets, names[3]); }
    else if secrets.chutes != "" { assert HasAPIKey(secrets, names[4]); }
  }

  /** The configured list, unchanged: each supported provider once. */
  function GetSupportedProviders(): (r: ProvidersResponse)
    ensures r.providers == SupportedProviders()
    ensures forall p :: p in r.providers <==> ValidProvider(p)
  {
    ProvidersResponse(SupportedProviders())
  }

  // ---------------------------------------------------------------------------
  // Provider test

  /** The status TestProvider reports, with its checks in the order the
      code makes them: an empty name, then a missing key, then an unknown
      provider. */
  function TestStatus(secrets: Secrets, provider: string): string {
    if provider == "" then "invalid_request"
    else if GetAPIKey(secrets, provider) == "" then "no_api_key"
    else if !ValidProvider(provider) then "invalid_provider"
    else "healthy"
  }

  method TestProvider(secrets: Secrets, provider: string) returns (r: TestProviderResponse)
    ensures r == TestProviderResponse(provider, TestStatus(secrets, provider))
  {
    if provider == "" {
      return TestProviderResponse(provider, "invalid_request");
    }
    var apiKey := GetAPIKey(secrets, provider);
    if apiKey == "" {
      return TestProviderResponse(provider, "no_api_key");
    }
    var valid := IsValidProvider(provider);
    if !valid {
      return TestProviderResponse(provider, "invalid_provider");
    }
    r := TestProviderResponse(provider, "healthy");
  }

  /** Because only supported providers have keys, an unknown provider is
      reported as lacking a key and "invalid_provider" never occurs; a
      provider tests healthy exactly when it has a key. */
  lemma TestStatusCases(secrets: Secrets, provider: string)
    ensures TestStatus(secrets, provider) != "invalid_provider"
    ensures TestStatus(secrets, provider) == "healthy" <==> HasAPIKey(secrets, provider)
    ensures provider != "" && !ValidProvider(provider) ==> TestStatus(secrets, provider) == "no_api_key"
    ensures TestStatus(secrets, provider) in {"invalid_request", "no_api_key", "healthy"}
  {
  }

  /** Chat is reported healthy exactly when some supported provider tests healthy. */
  lemma HealthAgreesWithTests(secrets: Secrets)
    ensures HealthOf(secrets).services["chat"] == "healthy" <==>
      exists i :: 0 <= i < |SupportedProviders()| && TestStatus(secrets, SupportedProviders()[i]) == "healthy"
  {
    if AnyKey(secrets) {
      var i :| 0 <= i < |SupportedProviders()| && HasAPIKey(secrets, SupportedProviders()[i]);
      TestStatusCases(secrets, SupportedProviders()[i]);
    }
    if exists i :: 0 <= i < |SupportedProviders()| && TestStatus(secrets, SupportedProviders()[i]) == "healthy" {
      var i :| 0 <= i < |SupportedProviders()| && TestStatus(secrets, SupportedProviders()[i]) == "healthy";
      TestStatusCases(secrets, SupportedProviders()[i]);
    }
  }
}
