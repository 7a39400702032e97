/**
 * Conversing with an agent (services/generativeAI/generativeAgent.ts): generate with the
 * agent's primary provider; when that throws a `ProviderError` and the agent has a
 * fallback, generate with the fallback; when nothing succeeds, write the error text
 * into the placeholder message and return it.
 */
module GenerativeAgent {
  import opened Wrappers
  import opened Enums
  import opened Common
  import opened Schema
  import opened FailoverMock
  import opened GenerativeInterface
  import opened Retry
  import opened MessageRepo
  import opened AgentRepo
  import opened AgentValidate
  import opened GenerativeProvider
  import opened Factory
  import AgentService
  import UsageRepo

  const ErrResponse: string := "Error generating response. Please try again later...."

  /**
   * What `ProviderFactory.get(name).generateResponse` throws for a name outside the enum
   * that is not an `Object.prototype` member. For a member name ("toString", …) the
   * message reads "... .generateResponse is not a function" instead; both are TypeErrors
   * and take the same path.
   */
  const UndefinedProvider: string := "Cannot read properties of undefined (reading 'generateResponse')"

  function AgentNotFound(agentId: Id): string
  {
    "Agent not found: " + agentId
  }

  /**
   * Asking the provider registered under a name: the retried generation's outcome, or
   * the `TypeError` of calling a method on undefined when no provider has that name.
   */
  function Ask(factory: ProviderFactory, tag: string, prompt: string, content: string, draws: nat -> Draws)
    : (r: Result<ExecuteResponsePayload>)
    ensures tag !in AllProviderTags ==> r == Err(Failure(UndefinedProvider))
    ensures tag in AllProviderTags ==> r == Attempt(factory.Get(tag).value, prompt, content, draws).result
    ensures r.Err? ==> (IsProviderError(r.error) <==> tag in AllProviderTags)
  {
    match factory.Get(tag)
    case None => Err(Failure(UndefinedProvider))
    case Some(p) => Attempt(p, prompt, content, draws).result
  }

  /** Which provider produced the reply, with its payload, or that every attempt failed. */
  datatype Generation = Generated(provider: Provider, payload: ExecuteResponsePayload) | GenerationFailed

  /** The provider choice of `converse` for a found agent. */
  function Generate(factory: ProviderFactory, agent: Agent, content: string,
                    primaryDraws: nat -> Draws, fallbackDraws: nat -> Draws): (g: Generation)
    ensures g.Generated? ==>
      g.provider.Type().Tag() == agent.primaryProvider ||
      (Present(agent.fallbackProvider) && g.provider.Type().Tag() == agent.fallbackProvider.value)
  {
    var first := Ask(factory, agent.primaryProvider, agent.prompt, content, primaryDraws);
    if first.Ok? then Generated(factory.Get(agent.primaryProvider).value, first.value)
    else if IsProviderError(first.error) && Present(agent.fallbackProvider) then
      var second := Ask(factory, agent.fallbackProvider.value, agent.prompt, content, fallbackDraws);
      if second.Ok? then Generated(factory.Get(agent.fallbackProvider.value).value, second.value)
      else GenerationFailed
    else GenerationFailed
  }

  /** The primary provider answers whenever its retried call succeeds. */
  lemma PrimaryAnswersFirst(factory: ProviderFactory, agent: Agent, content: string, pd: nat -> Draws, fd: nat -> Draws)
    requires agent.primaryProvider in AllProviderTags
    requires Attempt(factory.Get(agent.primaryProvider).value, agent.prompt, content, pd).result.Ok?
    ensures Generate(factory, agent, content, pd, fd) ==
      Generated(factory.Get(agent.primaryProvider).value,
                Attempt(factory.Get(agent.primaryProvider).value, agent.prompt, content, pd).result.value)
  {
  }

  /**
   * For an agent that satisfies the provider invariant, a failed primary is always
   * followed by the fallback: the reply comes from the fallback exactly when its own
   * retried call succeeds.
   */
  lemma FallbackAfterPrimaryFails(factory: ProviderFactory, agent: Agent, content: string, pd: nat -> Draws, fd: nat -> Draws)
    requires ProvidersValid(agent) && Present(agent.fallbackProvider)
    requires Attempt(factory.Get(agent.primaryProvider).value, agent.prompt, content, pd).result.Err?
    ensures var fallback := factory.Get(agent.fallbackProvider.value).value;
      Generate(factory, agent, content, pd, fd) ==
        if Attempt(fallback, agent.prompt, content, fd).result.Ok?
        then Generated(fallback, Attempt(fallback, agent.prompt, content, fd).result.value)
        else GenerationFailed
  {
  }

  /**
   * An agent whose stored primary provider is not a provider name never gets a reply:
   * the failure is a `TypeError`, not a `ProviderError`, so even a valid fallback is skipped.
   */
  lemma UnknownPrimaryNeverFallsBack(factory: ProviderFactory, agent: Agent, content: string, pd: nat -> Draws, fd: nat -> Draws)
    requires agent.primaryProvider !in AllProviderTags
    ensures Generate(factory, agent, content, pd, fd) == GenerationFailed
  {
  }

  /** The text `converse` returns and writes into the placeholder message. */
  function ReplyText(g: Generation): (t: string)
    ensures g.GenerationFailed? ==> t == ErrResponse
    ensures g.Generated? ==> |t| > |g.payload.response| && t[|t| - |g.payload.response|..] == g.payload.response
  {
    match g
    case Generated(p, payload) => Reply(p, payload.response)
    case GenerationFailed => ErrResponse
  }

  /** The usage records after the generation: one more exactly when a provider answered. */
  function UsagesAfter(g: Generation, docs: seq<Usage>, session: Session, generativeMessageId: Id,
                       context: Context, usageId: Id, now: int): seq<Usage>
  {
    match g
    case Generated(p, payload) =>
      docs + [UsageRepo.NewUsage(UsageInputFor(p, session, generativeMessageId, payload.metadata), context, usageId, now)]
    case GenerationFailed => docs
  }

  /**
   * One guarded `ProviderFactory.get(name).generateResponse(...)`: the outcome of `Ask`;
   * a reply is written and recorded, a failure writes nothing.
   */
  method AskProvider(factory: ProviderFactory, tag: string, messages: MessageRepository, usages: UsageRepo.UsageRepository,
                     session: Session, content: string, generativeMessageId: Id, agent: Agent,
                     context: Context, draws: nat -> Draws, usageId: Id, now: int)
    returns (r: Result<string>)
    requires messages.Valid() && usages.Valid()
    requires usageId != "" && usageId !in Ids(usages.Usages(), UsageId)
    modifies messages.base, usages.base
    ensures messages.Valid() && usages.Valid()
    ensures Ask(factory, tag, agent.prompt, content, draws).Err? ==>
      r == Err(Ask(factory, tag, agent.prompt, content, draws).error) &&
      messages.Messages() == old(messages.Messages()) && usages.Usages() == old(usages.Usages())
    ensures Ask(factory, tag, agent.prompt, content, draws).Ok? ==>
      var g := Generated(factory.Get(tag).value, Ask(factory, tag, agent.prompt, content, draws).value);
      r == Ok(ReplyText(g)) &&
      messages.Messages() == PatchById(old(messages.Messages()), generativeMessageId, CompletePatch(ReplyText(g))) &&
      usages.Usages() == UsagesAfter(g, old(usages.Usages()), session, generativeMessageId, context, usageId, now)
  {
    var provider := factory.Get(tag);
    if provider.None? {
      return Err(Failure(UndefinedProvider));
    }
    r := GenerateResponse(provider.value, messages, usages, session, generativeMessageId, content, agent,
      context, draws, usageId, now);
  }

  /**
   * `converse`: an unknown agent is an error and nothing is written. Otherwise the
   * generation of `Generate` runs: a reply patches the placeholder message and appends
   * one usage record; when every attempt failed the placeholder receives the error text,
   * no usage is recorded, and the error text is returned.
   */
  method Converse(agents: AgentRepository, messages: MessageRepository, usages: UsageRepo.UsageRepository,
                  factory: ProviderFactory, session: Session, content: string, generativeMessageId: Id,
                  context: Context, primaryDraws: nat -> Draws, fallbackDraws: nat -> Draws, usageId: Id, now: int)
    returns (r: Result<string>)
    requires agents.Valid() && messages.Valid() && usages.Valid()
    requires usageId != "" && usageId !in Ids(usages.Usages(), UsageId)
    modifies messages.base, usages.base
    ensures messages.Valid() && usages.Valid()
    ensures AgentById(agents.Agents(), session.agentId).None? ==>
      r == Err(Failure(AgentNotFound(session.agentId))) &&
      messages.Messages() == old(messages.Messages()) && usages.Usages() == old(usages.Usages())
    ensures AgentById(agents.Agents(), session.agentId).Some? ==>
      var g := Generate(factory, AgentById(agents.Agents(), session.agentId).value, content, primaryDraws, fallbackDraws);
      r == Ok(ReplyText(g)) &&
      messages.Messages() == PatchById(old(messages.Messages()), generativeMessageId, CompletePatch(ReplyText(g))) &&
      usages.Usages() == UsagesAfter(g, old(usages.Usages()), session, generativeMessageId, context, usageId, now)
  {
    var found := AgentService.GetAgent(agents, session.agentId);
    if found.None? {
      return Err(Failure(AgentNotFound(session.agentId)));
    }
    var agent := found.value;
    ghost var g := Generate(factory, agent, content, primaryDraws, fallbackDraws);
    ghost var ask1 := Ask(factory, agent.primaryProvider, agent.prompt, content, primaryDraws);
    var first := AskProvider(factory, agent.primaryProvider, messages, usages, session, content, generativeMessageId,
      agent, context, primaryDraws, usageId, now);
    if first.Ok? {
      assert g == Generated(factory.Get(agent.primaryProvider).value, ask1.value);
      return first;
    }
    assert ask1.Err? && first.error == ask1.error;
    if IsProviderError(first.error) && Present(agent.fallbackProvider) {
      ghost var ask2 := Ask(factory, agent.fallbackProvider.value, agent.prompt, content, fallbackDraws);
      var second := AskProvider(factory, agent.fallbackProvider.value, messages, usages, session, content,
        generativeMessageId, agent, context, fallbackDraws, usageId, now);
      if second.Ok? {
        assert g == Generated(factory.Get(agent.fallbackProvider.value).value, ask2.value);
        return second;
      }
      assert g == GenerationFailed;
    } else {
      assert g == GenerationFailed;
    }
    var _ := messages.UpdateMessage(generativeMessageId, CompletePatch(ErrResponse));
    r := Ok(ErrResponse);
  }
}
