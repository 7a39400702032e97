/** The simulated Google Gemini 1.5 adapter (services/generativeAI/googleGemini1_5_Provider.ts). */
module GeminiProvider {
  import opened Wrappers
  import opened Enums
  import opened Common
  import opened Text
  import opened FailoverMock
  import opened GenerativeInterface

  datatype LLMResponseTypeC = LLMResponseTypeC(result: string, tokensIn: nat, tokensOut: nat)

  class GoogleGemini1_5Provider {
    const provider: ProviderType := GoogleGemini1_5
    /** Dollars per thousand tokens. */
    const pricing: real := 0.003
    const failureChance: real

    /** An option left out keeps the default 0.2. */
    constructor(failureChance: Option<real>)
      ensures this.failureChance == OrElse(failureChance, 0.2)
    {
      this.failureChance := OrElse(failureChance, 0.2);
    }

    /** `callLLM`: the only failure is an internal error (500), never a rate limit. */
    function CallLLM(prompt: string, message: string, d: Draws): (r: Result<LLMResponseTypeC>)
      ensures r.Err? <==> Chance(failureChance, d.failure)
      ensures r.Err? ==> r.error == ProviderError(provider.Tag() + " internal error", 500, None)
      ensures r.Ok? ==>
        r.value.result == d.text1 &&
        r.value.tokensIn == Words(prompt) + Words(message) &&
        r.value.tokensOut == Words(r.value.result)
    {
      if Chance(failureChance, d.failure) then
        Err(ProviderError(provider.Tag() + " internal error", 500, None))
      else
        var text: string := d.text1;
        Ok(LLMResponseTypeC(text, Words(prompt) + Words(message), Words(text)))
    }

    /** `executeResponse`: the result text as the response, its counts as metadata. */
    function ExecuteResponse(prompt: string, message: string, d: Draws): (r: Result<ExecuteResponsePayload>)
      ensures r.Err? <==> CallLLM(prompt, message, d).Err?
      ensures r.Err? ==> r.error == CallLLM(prompt, message, d).error
      ensures r.Ok? ==>
        r.value.metadata.tokensIn == Words(prompt) + Words(message) &&
        r.value.metadata.tokensOut == Words(r.value.response) &&
        r.value.metadata.latencyMs.None?
    {
      match CallLLM(prompt, message, d)
      case Err(e) => Err(e)
      case Ok(c) => Ok(ExecuteResponsePayload(c.result, ResponseMetadata(c.tokensIn, c.tokensOut, None)))
    }
  }
}
