/**
 * The shared generation flow of every provider adapter
 * (services/generativeAI/generativeProvider.ts): call the adapter under `withRetry`,
 * prefix the reply with the provider's name, then mark the placeholder message complete
 * and record the usage.
 */
module GenerativeProvider {
  import opened Wrappers
  import opened Enums
  import opened Common
  import opened Text
  import opened Schema
  import opened FailoverMock
  import opened GenerativeInterface
  import opened Retry
  import opened OpenAIProvider
  import opened ClaudeProvider
  import opened GeminiProvider
  import opened MessageRepo
  import UsageRepo
  import UsageService

  /** One of the concrete adapters that extend `GenerativeProvider`. */
  datatype Provider =
    | OpenAI(gpt: OpenAIGPT3_5Provider)
    | Claude(claude: Claude3_5_SonnetProvider)
    | Gemini(gemini: GoogleGemini1_5Provider)
  {
    /** The adapter's `provider`. */
    function Type(): ProviderType
    {
      match this
      case OpenAI(a) => a.provider
      case Claude(b) => b.provider
      case Gemini(c) => c.provider
    }

    /** The adapter's `pricing`, in dollars per thousand tokens. */
    function Pricing(): (r: real)
      ensures r > 0.0
    {
      match this
      case OpenAI(a) => a.pricing
      case Claude(b) => b.pricing
      case Gemini(c) => c.pricing
    }

    /** The adapter's `executeResponse`: every failure it throws is a `ProviderError`. */
    function ExecuteResponse(prompt: string, message: string, d: Draws): (r: Result<ExecuteResponsePayload>)
      ensures r.Err? ==> IsProviderError(r.error)
      ensures r.Ok? ==> r.value.metadata.tokensIn == Words(prompt) + Words(message)
      ensures r.Ok? ==> r.value.metadata.tokensOut == Words(r.value.response)
    {
      match this
      case OpenAI(a) => a.ExecuteResponse(prompt, message, d)
      case Claude(b) => b.ExecuteResponse(prompt, message, d)
      case Gemini(c) => c.ExecuteResponse(prompt, message, d)
    }
  }

  /** The calls `withRetry` makes: the i-th call consumes the draws `draws(i)`. */
  function Calls(p: Provider, prompt: string, message: string, draws: nat -> Draws): nat -> Result<ExecuteResponsePayload>
  {
    (i: nat) => p.ExecuteResponse(prompt, message, draws(i))
  }

  /**
   * `withRetry(() => executeResponse(prompt, content))` with the default budget: a failure
   * that survives it is the adapter's `ProviderError`.
   */
  function Attempt(p: Provider, prompt: string, message: string, draws: nat -> Draws): (r: Run<ExecuteResponsePayload>)
    ensures r.calls <= DefaultRetries + 1
    ensures r.result.Err? ==> IsProviderError(r.result.error)
    ensures r.result.Ok? ==> r.result.value.metadata.tokensIn == Words(prompt) + Words(message)
  {
    var run := WithRetry(Calls(p, prompt, message, draws), DefaultRetries);
    assert run.result == p.ExecuteResponse(prompt, message, draws(run.calls - 1));
    run
  }

  /** The stored reply: the provider's name, then the adapter's response. */
  function Reply(p: Provider, response: string): (r: string)
    ensures |r| > |response| && r[|r| - |response|..] == response
  {
    "Response from " + p.Type().Tag() + ": " + response
  }

  /** `((tokensIn + tokensOut) / 1000) * pricing`. */
  function Cost(tokens: nat, pricing: real): (c: real)
    ensures c * 1000.0 == tokens as real * pricing
    ensures pricing >= 0.0 ==> c >= 0.0
    ensures tokens == 0 ==> c == 0.0
  {
    tokens as real / 1000.0 * pricing
  }

  /** The usage `trackUsage` records for one generation. */
  function UsageInputFor(p: Provider, session: Session, generativeMessageId: Id, metadata: ResponseMetadata)
    : (t: UsageRepo.TrackUsageInput)
    ensures t.totalTokens == t.tokensIn + t.tokensOut && t.totalTokens >= 0
    ensures t.cost == Cost(t.totalTokens, p.Pricing()) && t.cost >= 0.0
    ensures t.provider == p.Type() && t.generativeResponseId == Some(generativeMessageId)
    ensures t.agentId == session.agentId && t.sessionId == session.id
  {
    var total := metadata.tokensIn + metadata.tokensOut;
    UsageRepo.TrackUsageInput(session.agentId, p.Type(), session.id, Some(generativeMessageId),
      metadata.tokensIn, metadata.tokensOut, total, Cost(total, p.Pricing()))
  }

  /** The patch `markGenerationComplete` applies: the content, and generation finished. */
  function CompletePatch(content: string): (m: MessagePatch)
    ensures m.content == Some(content) && m.isGenerating == Some(false)
  {
    MessagePatch(Some(content), Some(false))
  }

  /**
   * `generateResponse`: when the retried call fails its error is thrown and nothing is
   * written; otherwise the placeholder message receives the reply and stops generating,
   * one usage record is appended, and the reply is returned.
   */
  method GenerateResponse(p: Provider, messages: MessageRepository, usages: UsageRepo.UsageRepository,
                          session: Session, generativeMessageId: Id, content: string, agent: Agent,
                          context: Context, draws: nat -> Draws, usageId: Id, now: int)
    returns (r: Result<string>)
    requires messages.Valid() && usages.Valid()
    requires usageId != "" && usageId !in Ids(usages.Usages(), UsageId)
    modifies messages.base, usages.base
    ensures messages.Valid() && usages.Valid()
    ensures Attempt(p, agent.prompt, content, draws).result.Err? ==>
      r == Err(Attempt(p, agent.prompt, content, draws).result.error) &&
      messages.Messages() == old(messages.Messages()) && usages.Usages() == old(usages.Usages())
    ensures Attempt(p, agent.prompt, content, draws).result.Ok? ==>
      var payload := Attempt(p, agent.prompt, content, draws).result.value;
      r == Ok(Reply(p, payload.response)) &&
      messages.Messages() == PatchById(old(messages.Messages()), generativeMessageId, CompletePatch(Reply(p, payload.response))) &&
      usages.Usages() == old(usages.Usages()) +
        [UsageRepo.NewUsage(UsageInputFor(p, session, generativeMessageId, payload.metadata), context, usageId, now)]
  {
    var run := Attempt(p, agent.prompt, content, draws);
    if run.result.Err? {
      return Err(run.result.error);
    }
    var payload := run.result.value;
    var reply := Reply(p, payload.response);
    var _ := messages.UpdateMessage(generativeMessageId, CompletePatch(reply));
    var _ := UsageService.TrackUsage(usages, UsageInputFor(p, session, generativeMessageId, payload.metadata),
      context, usageId, now);
    r := Ok(reply);
  }
}
