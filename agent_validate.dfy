/**
 * The provider checks guarding agent writes (services/agent/utils/validate.ts): the
 * primary provider is a known provider, a fallback, when set, is a known provider
 * too, and the two differ.
 */
module AgentValidate {
  import opened Wrappers
  import opened Enums
  import opened Common
  import opened Schema
  import opened AgentRepo

  /** A validator either lets the input through or rejects it with a message. */
  datatype Check = Pass | Reject(message: string)

  const InvalidPrimary: string := "Invalid primary provider specified."
  const InvalidFallback: string := "Invalid fallback provider specified."
  const SameProviders: string := "Primary and fallback providers must be different."

  predicate NotValidProviderType(provider: string)
  {
    provider !in AllProviderTags
  }

  /** The invariant the validators protect: a known primary, and a set fallback known and distinct. */
  predicate ProvidersValid(a: Agent)
  {
    a.primaryProvider in AllProviderTags &&
    (Present(a.fallbackProvider) ==>
      a.fallbackProvider.value in AllProviderTags && a.fallbackProvider.value != a.primaryProvider)
  }

  /** `validateRegisterAgentInput`. */
  function ValidateRegisterAgentInput(input: CreateAgentInput): (r: Check)
    ensures NotValidProviderType(input.primaryProvider) ==> r == Reject(InvalidPrimary)
    ensures Present(input.fallbackProvider) && NotValidProviderType(input.fallbackProvider.value) ==> r.Reject?
    ensures input.fallbackProvider == Some(input.primaryProvider) ==> r.Reject?
    ensures r.Reject? ==> r.message in {InvalidPrimary, InvalidFallback, SameProviders}
  {
    if NotValidProviderType(input.primaryProvider) then Reject(InvalidPrimary)
    else if Present(input.fallbackProvider) && NotValidProviderType(input.fallbackProvider.value) then Reject(InvalidFallback)
    else if input.fallbackProvider == Some(input.primaryProvider) then Reject(SameProviders)
    else Pass
  }

  /** An agent registered through the validator satisfies the provider invariant. */
  lemma RegisterEstablishesProviders(input: CreateAgentInput, context: Context, id: Id)
    requires ValidateRegisterAgentInput(input).Pass?
    ensures ProvidersValid(NewAgent(input, context, id))
  {
  }

  /**
   * `validateUpdateAgentInput` as written: the primary provider's validity is checked
   * only when the supplied value is truthy, so an empty string gets through.
   */
  function ValidateUpdateAsWritten(a: Agent, input: UpdateAgentInput): (r: Check)
    ensures Present(input.primaryProvider) && NotValidProviderType(input.primaryProvider.value) ==> r == Reject(InvalidPrimary)
    ensures input.primaryProvider == Some("") && input.fallbackProvider.None? && a.fallbackProvider != Some("") ==> r.Pass?
  {
    if Present(input.primaryProvider) && NotValidProviderType(input.primaryProvider.value) then Reject(InvalidPrimary)
    else SharedUpdateChecks(a, input)
  }

  /** The checks after the primary's: fallback validity, then the three distinctness rules. */
  function SharedUpdateChecks(a: Agent, input: UpdateAgentInput): Check
  {
    if Present(input.fallbackProvider) && NotValidProviderType(input.fallbackProvider.value) then Reject(InvalidFallback)
    else if Present(input.primaryProvider) && Present(input.fallbackProvider) &&
            input.primaryProvider.value == input.fallbackProvider.value then Reject(SameProviders)
    else if Present(input.primaryProvider) && !Present(input.fallbackProvider) &&
            input.primaryProvider == a.fallbackProvider then Reject(SameProviders)
    else if Present(input.fallbackProvider) && !Present(input.primaryProvider) &&
            input.fallbackProvider.value == a.primaryProvider then Reject(SameProviders)
    else Pass
  }

  /**
   * The update validator as intended: any supplied primary provider, empty or not, must
   * be a known provider. The agent service uses this one.
   */
  function ValidateUpdateAgentInput(a: Agent, input: UpdateAgentInput): (r: Check)
    ensures input.primaryProvider.Some? && NotValidProviderType(input.primaryProvider.value) ==> r == Reject(InvalidPrimary)
    ensures Present(input.fallbackProvider) && NotValidProviderType(input.fallbackProvider.value) ==> r.Reject?
    ensures (Present(input.primaryProvider) && Present(input.fallbackProvider) &&
             input.primaryProvider.value == input.fallbackProvider.value) ==> r.Reject?
    ensures Present(input.primaryProvider) && !Present(input.fallbackProvider) && input.primaryProvider == a.fallbackProvider ==> r.Reject?
    ensures Present(input.fallbackProvider) && !Present(input.primaryProvider) && input.fallbackProvider.value == a.primaryProvider ==> r.Reject?
  {
    if input.primaryProvider.Some? && NotValidProviderType(input.primaryProvider.value) then Reject(InvalidPrimary)
    else SharedUpdateChecks(a, input)
  }

  /** An update the corrected validator accepts keeps the provider invariant of the stored agent. */
  lemma UpdatePreservesProviders(a: Agent, input: UpdateAgentInput)
    requires ProvidersValid(a)
    requires ValidateUpdateAgentInput(a, input).Pass?
    ensures ProvidersValid(ApplyUpdate(a, input))
  {
  }

  /** The corrected validator rejects only inputs the written one rejects, plus an empty primary. */
  lemma CorrectedDiffersOnlyOnEmptyPrimary(a: Agent, input: UpdateAgentInput)
    ensures ValidateUpdateAgentInput(a, input) != ValidateUpdateAsWritten(a, input) <==> input.primaryProvider == Some("")
  {
  }

  /**
   * The validator as written accepts `{ primaryProvider: "" }` on a valid agent, and
   * the stored agent then names no known primary provider.
   */
  lemma AsWrittenUpdateBreaksProviders()
    ensures var a := Agent("agent-1", "Support", "gpt-3.5-turbo", Some("claude-3.5-sonnet"), "Be brief.", "user-1", "user-1");
      var input := UpdateAgentInput(None, Some(""), None, None);
      ProvidersValid(a) && ValidateUpdateAsWritten(a, input).Pass? && !ProvidersValid(ApplyUpdate(a, input))
  {
    var a := Agent("agent-1", "Support", "gpt-3.5-turbo", Some("claude-3.5-sonnet"), "Be brief.", "user-1", "user-1");
    assert "gpt-3.5-turbo" == GPT3_5.Tag() && "claude-3.5-sonnet" == Claude3_5_Sonnet.Tag();
    assert "" != GPT3_5.Tag() && "" != Claude3_5_Sonnet.Tag() && "" != GoogleGemini1_5.Tag();
  }
}
