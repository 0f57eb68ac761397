/** The configuration (src/config/config.go): one secret API key per
    provider, and the fixed list of supported provider names. */
module Config {
  /** The application's secrets; an unset secret is the empty string. */
  datatype Secrets = Secrets(groq: string, openRouter: string, gemini: string, atlas: string, chutes: string)

  /** The supported providers, in the order they are listed to clients. */
  function SupportedProviders(): (names: seq<string>)
    ensures |names| == 5
    ensures forall i, j :: 0 <= i < j < |names| ==> names[i] != names[j]
  {
    ["groq", "openrouter", "gemini", "atlas", "chutes"]
  }

  predicate ValidProvider(provider: string) {
    provider in SupportedProviders()
  }

  /** The key of a provider; the empty string for an unknown provider. Only
      a supported provider can have a key. */
  function GetAPIKey(secrets: Secrets, provider: string): (key: string)
    ensures !ValidProvider(provider) ==> key == ""
  {
    match provider
    case "groq" => secrets.groq
    case "openrouter" => secrets.openRouter
    case "gemini" => secrets.gemini
    case "atlas" => secrets.atlas
    case "chutes" => secrets.chutes
    case _ => ""
  }

  /** A key is configured; only a supported provider can have one. */
  predicate HasAPIKey(secrets: Secrets, provider: string): (has: bool)
    ensures has ==> ValidProvider(provider)
  {
    GetAPIKey(secrets, provider) != ""
  }

  /** Every supported provider reads its own secret. */
  lemma KeysBySecret(secrets: Secrets)
    ensures GetAPIKey(secrets, "groq") == secrets.groq
    ensures GetAPIKey(secrets, "openrouter") == secrets.openRouter
    ensures GetAPIKey(secrets, "gemini") == secrets.gemini
    ensures GetAPIKey(secrets, "atlas") == secrets.atlas
    ensures GetAPIKey(secrets, "chutes") == secrets.chutes
  {
  }

  /** The linear search over the supported providers. */
  method IsValidProvider(provider: string) returns (valid: bool)
    ensures valid <==> ValidProvider(provider)
  {
    var names := SupportedProviders();
    for i := 0 to |names|
      invariant forall k :: 0 <= k < i ==> names[k] != provider
    {
      if names[i] == provider {
        return true;
      }
    }
    return false;
  }
}
