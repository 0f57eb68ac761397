/** The provider registry (src/providers/registry.go): a name-indexed table
    of the five adapters, filled by InitProviders and looked up by the chat
    service. */
module Providers {
  import opened Wrappers
  import opened Models
  import opened Errors
  import opened Wire
  import Config
  import Gemini
  import OpenRouter
  import Groq
  import Atlas
  import Chutes

  /** The implementations of the Provider interface. Adapters hold no state,
      so none carries the configuration; the source passes one to an Atlas
      constructor that takes no arguments, which does not compile. */
  datatype Adapter = GeminiProvider | OpenRouterProvider | GroqProvider | AtlasProvider | ChutesProvider

  /** Each adapter's `GetName`: always one of the supported provider names. */
  function GetName(a: Adapter): (name: string)
    ensures Config.ValidProvider(name)
  {
    match a
    case GeminiProvider => "gemini"
    case OpenRouterProvider => "openrouter"
    case GroqProvider => "groq"
    case AtlasProvider => "atlas"
    case ChutesProvider => "chutes"
  }

  /** Interface dispatch of ChatCompletion to the adapter's own. */
  function Complete(a: Adapter, req: ChatRequest, apiKey: string, io: Io): Result<ChatResponse, Error> {
    match a
    case GeminiProvider => Gemini.Complete(req, apiKey, io)
    case OpenRouterProvider => OpenRouter.Complete(req, apiKey, io)
    case GroqProvider => Groq.Complete(req, apiKey, io)
    case AtlasProvider => Atlas.Complete(req, apiKey, io)
    case ChutesProvider => Chutes.Complete(req, apiKey, io)
  }

  method ChatCompletion(a: Adapter, req: ChatRequest, apiKey: string, io: Io) returns (r: Result<ChatResponse, Error>)
    ensures r == Complete(a, req, apiKey, io)
  {
    match a
    case GeminiProvider => r := Gemini.ChatCompletion(req, apiKey, io);
    case OpenRouterProvider => r := OpenRouter.ChatCompletion(req, apiKey, io);
    case GroqProvider => r := Groq.ChatCompletion(req, apiKey, io);
    case AtlasProvider => r := Atlas.ChatCompletion(req, apiKey, io);
    case ChutesProvider => r := Chutes.ChatCompletion(req, apiKey, io);
  }

  /** The table InitProviders registers: exactly the supported providers,
      each under its own name. */
  function InitialProviders(): (table: map<string, Adapter>)
    ensures table.Keys == set n | n in Config.SupportedProviders()
    ensures forall n :: n in table ==> GetName(table[n]) == n
  {
    map["gemini" := GeminiProvider, "openrouter" := OpenRouterProvider, "groq" := GroqProvider,
        "atlas" := AtlasProvider, "chutes" := ChutesProvider]
  }

  /** The package-level provider table. */
  class Registry {
    var providers: map<string, Adapter>

    constructor ()
      ensures providers == map[]
    {
      providers := map[];
    }

    /** Registers (or replaces) the adapter under `name`. */
    method RegisterProvider(name: string, provider: Adapter)
      modifies this
      ensures providers == old(providers)[name := provider]
    {
      providers := providers[name := provider];
    }

    /** The adapter registered under `name`, or why there is none. */
    method GetProvider(name: string) returns (r: Result<Adapter, Error>)
      ensures r.Success? <==> name in providers
      ensures r.Success? ==> r.value == providers[name]
      ensures r.Failure? ==> r.error == ProviderNotFound(name)
    {
      if name !in providers {
        return Failure(ProviderNotFound(name));
      }
      r := Success(providers[name]);
    }

    /** Registers the five adapters; other entries are kept. (The source
        passes the configuration to every constructor, including Atlas's,
        which takes none; adapters are stateless here.) */
    method InitProviders()
      modifies this
      ensures providers == old(providers) + InitialProviders()
    {
      RegisterProvider("gemini", GeminiProvider);
      RegisterProvider("openrouter", OpenRouterProvider);
      RegisterProvider("groq", GroqProvider);
      RegisterProvider("atlas", AtlasProvider);
      RegisterProvider("chutes", ChutesProvider);
    }
  }

  /** The data URI Chutes builds for an attached image is one Gemini reads
      back as the same JPEG data. */
  lemma ChutesImageReadByGemini(imageData: string, fetchImage: string -> ImageFetch)
    ensures Gemini.ResolveImage(Chutes.JpegDataURIPrefix + imageData, fetchImage) == Success((imageData, "image/jpeg"))
  {
    var uri := Chutes.JpegDataURIPrefix + imageData;
    assert uri == "data:" + "image/jpeg" + ";base64," + imageData;
    assert ',' !in "image/jpeg";
    Gemini.DataURIRoundTrip("image/jpeg", imageData);
    assert uri[..11] == "data:image/";
    assert Gemini.ResolveImage(uri, fetchImage) == Gemini.ParseDataURI(uri);
  }
}
