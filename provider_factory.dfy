/** The provider registry (services/generativeAI/providerFactory.ts). */
module Factory {
  import opened Wrappers
  import opened Enums
  import opened OpenAIProvider
  import opened ClaudeProvider
  import opened GeminiProvider
  import opened GenerativeProvider

  /** `ProviderFactory`: one adapter per provider type, built with default options. */
  class ProviderFactory {
    const gpt: OpenAIGPT3_5Provider
    const claude: Claude3_5_SonnetProvider
    const gemini: GoogleGemini1_5Provider

    constructor()
      ensures gpt.failureChance == 0.1 && gpt.rateLimitChance == 0.15
      ensures claude.rateLimitChance == 0.15
      ensures gemini.failureChance == 0.2
    {
      gpt := new OpenAIGPT3_5Provider(None, None);
      claude := new Claude3_5_SonnetProvider(None);
      gemini := new GoogleGemini1_5Provider(None);
    }

    /**
     * `get`: the adapter registered under a provider name; nothing for a name outside
     * the enum that is not an `Object.prototype` member (the record lookup yields
     * undefined). A member name yields a function without `generateResponse`; both throw
     * a TypeError in `Ask`, which `converse` turns into the same error reply.
     */
    function Get(tag: string): (r: Option<Provider>)
      ensures r.Some? <==> tag in AllProviderTags
      ensures r.Some? ==> r.value.Type().Tag() == tag
    {
      match ParseProvider(tag)
      case None => None
      case Some(GPT3_5) => Some(OpenAI(gpt))
      case Some(Claude3_5_Sonnet) => Some(Claude(claude))
      case Some(GoogleGemini1_5) => Some(Gemini(gemini))
    }

    /** Each provider type's name yields the adapter of that type. */
    lemma GetByType(t: ProviderType)
      ensures Get(t.Tag()).Some? && Get(t.Tag()).value.Type() == t
    {
      ParseTag(t);
    }
  }
}
