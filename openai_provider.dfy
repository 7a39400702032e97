/** The simulated OpenAI GPT-3.5 adapter (services/generativeAI/openAIGPT3_5_Provider.ts). */
module OpenAIProvider {
  import opened Wrappers
  import opened Enums
  import opened Common
  import opened Text
  import opened FailoverMock
  import opened GenerativeInterface

  datatype LLMResponseTypeA = LLMResponseTypeA(outputText: string, tokensIn: nat, tokensOut: nat, latencyMs: int)

  class OpenAIGPT3_5Provider {
    const provider: ProviderType := GPT3_5
    /** Dollars per thousand tokens. */
    const pricing: real := 0.002
    const failureChance: real
    const rateLimitChance: real

    /** Options left out keep the defaults 0.1 and 0.15. */
    constructor(failureChance: Option<real>, rateLimitChance: Option<real>)
      ensures this.failureChance == OrElse(failureChance, 0.1)
      ensures this.rateLimitChance == OrElse(rateLimitChance, 0.15)
    {
      this.failureChance := OrElse(failureChance, 0.1);
      this.rateLimitChance := OrElse(rateLimitChance, 0.15);
    }

    /**
     * `callLLM`: an internal error (500) when the failure draw hits, checked first;
     * otherwise a rate limit (429) with a delay of 500 to 2000 ms when the rate-limit
     * draw hits; otherwise a random text, with word counts as tokens and a latency of
     * 800 to 1500 ms (30% of calls) or 100 to 300 ms.
     */
    function CallLLM(prompt: string, message: string, d: Draws): (r: Result<LLMResponseTypeA>)
      ensures r.Err? <==> Chance(failureChance, d.failure) || Chance(rateLimitChance, d.rateLimit)
      ensures Chance(failureChance, d.failure) ==>
        r == Err(ProviderError(provider.Tag() + " internal error", 500, None))
      ensures r.Err? && !Chance(failureChance, d.failure) ==>
        r.error.ProviderError? && r.error.code == 429 && r.error.retryAfterMs.Some? &&
        500 <= r.error.retryAfterMs.value <= 2000
      ensures r.Ok? ==>
        r.value.outputText == d.text1 &&
        r.value.tokensIn == Words(prompt) + Words(message) &&
        r.value.tokensOut == Words(r.value.outputText) &&
        (if Chance(0.3, d.pick) then 800 <= r.value.latencyMs <= 1500 else 100 <= r.value.latencyMs <= 300)
    {
      var latency := if Chance(0.3, d.pick) then RandomInt(800, 1500, d.latency) else RandomInt(100, 300, d.latency);
      if Chance(failureChance, d.failure) then
        Err(ProviderError(provider.Tag() + " internal error", 500, None))
      else if Chance(rateLimitChance, d.rateLimit) then
        Err(ProviderError("Rate limited", 429, Some(RandomInt(500, 2000, d.retryAfter))))
      else
        var text: string := d.text1;
        Ok(LLMResponseTypeA(text, Words(prompt) + Words(message), Words(text), latency))
    }

    /** `executeResponse`: the output text as the response, its counts and latency as metadata. */
    function ExecuteResponse(prompt: string, message: string, d: Draws): (r: Result<ExecuteResponsePayload>)
      ensures r.Err? <==> CallLLM(prompt, message, d).Err?
      ensures r.Err? ==> r.error == CallLLM(prompt, message, d).error
      ensures r.Ok? ==>
        r.value.metadata.tokensIn == Words(prompt) + Words(message) &&
        r.value.metadata.tokensOut == Words(r.value.response) &&
        r.value.metadata.latencyMs.Some?
    {
      match CallLLM(prompt, message, d)
      case Err(e) => Err(e)
      case Ok(a) => Ok(ExecuteResponsePayload(a.outputText, ResponseMetadata(a.tokensIn, a.tokensOut, Some(a.latencyMs))))
    }
  }
}
