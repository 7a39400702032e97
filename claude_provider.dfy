/** The simulated Claude 3.5 Sonnet adapter (services/generativeAI/claude3_5_Sonnet_Provider.ts). */
module ClaudeProvider {
  import opened Wrappers
  import opened Enums
  import opened Common
  import opened Text
  import opened FailoverMock
  import opened GenerativeInterface

  /** Two choices of message content and the usage block. */
  datatype LLMResponseTypeB = LLMResponseTypeB(choices: seq<string>, inputTokens: nat, outputTokens: nat)

  class Claude3_5_SonnetProvider {
    const provider: ProviderType := Claude3_5_Sonnet
    /** Dollars per thousand tokens. */
    const pricing: real := 0.001
    const rateLimitChance: real

    /** An option left out keeps the default 0.15. */
    constructor(rateLimitChance: Option<real>)
      ensures this.rateLimitChance == OrElse(rateLimitChance, 0.15)
    {
      this.rateLimitChance := OrElse(rateLimitChance, 0.15);
    }

    /**
     * `callLLM`: the only failure is a rate limit (429) with a delay of 500 to 2000 ms;
     * a success carries exactly two choices, and output tokens count both texts' words.
     */
    function CallLLM(prompt: string, message: string, d: Draws): (r: Result<LLMResponseTypeB>)
      ensures r.Err? <==> Chance(rateLimitChance, d.rateLimit)
      ensures r.Err? ==>
        r.error.ProviderError? && r.error.code == 429 && r.error.retryAfterMs.Some? &&
        500 <= r.error.retryAfterMs.value <= 2000
      ensures r.Ok? ==>
        r.value.choices == [d.text1, d.text2] &&
        r.value.inputTokens == Words(prompt) + Words(message) &&
        r.value.outputTokens == Words(d.text1) + Words(d.text2)
    {
      if Chance(rateLimitChance, d.rateLimit) then
        Err(ProviderError("Rate limited", 429, Some(RandomInt(500, 2000, d.retryAfter))))
      else
        Ok(LLMResponseTypeB([d.text1, d.text2], Words(prompt) + Words(message), Words(d.text1) + Words(d.text2)))
    }

    /**
     * `executeResponse`: the choices joined by a space. The reported output tokens
     * are then exactly the words of that response.
     */
    function ExecuteResponse(prompt: string, message: string, d: Draws): (r: Result<ExecuteResponsePayload>)
      ensures r.Err? <==> CallLLM(prompt, message, d).Err?
      ensures r.Err? ==> r.error == CallLLM(prompt, message, d).error
      ensures r.Ok? ==>
        r.value.response == d.text1 + " " + d.text2 &&
        r.value.metadata.tokensIn == Words(prompt) + Words(message) &&
        r.value.metadata.tokensOut == Words(r.value.response) &&
        r.value.metadata.latencyMs.None?
    {
      match CallLLM(prompt, message, d)
      case Err(e) => Err(e)
      case Ok(b) =>
        var response := Join(b.choices, " ");
        WordsJoin(d.text1, d.text2);
        assert response == d.text1 + " " + Join([d.text2], " ");
        Ok(ExecuteResponsePayload(response, ResponseMetadata(b.inputTokens, b.outputTokens, None)))
    }
  }
}
