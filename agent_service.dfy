/**
 * Agent management (services/agent/agent.service.ts): look-ups pass through to the
 * repository; registration and updates are validated first, so every stored agent
 * keeps a known primary provider and a distinct, known fallback.
 */
module AgentService {
  import opened Wrappers
  import opened Enums
  import opened Common
  import opened Schema
  import Pagination
  import opened EntityRepo
  import opened AgentRepo
  import opened AgentValidate

  /** Every stored agent satisfies the provider invariant. */
  ghost predicate AllProvidersValid(docs: seq<Agent>)
  {
    forall i :: 0 <= i < |docs| ==> ProvidersValid(docs[i])
  }

  function NotFoundMessage(agentId: Id): string
  {
    "Agent with ID " + agentId + " not found"
  }

  /** `getAgent`. */
  method GetAgent(repo: AgentRepository, agentId: Id) returns (r: Option<Agent>)
    requires repo.Valid()
    ensures r == AgentById(repo.Agents(), agentId)
  {
    r := repo.GetAgentById(agentId);
  }

  /** `getAgents`: the repository listing, unchanged. */
  method GetAgents(repo: AgentRepository, input: ListAgentsInput, context: Context, nameMatches: (string, string) -> bool)
    returns (r: seq<Agent>)
    ensures var options := Pagination.PaginationOptions(input.pagination);
      r == Window(Filter(repo.Agents(), ListFilter(input, context.userId, nameMatches)), options.skip, options.limit)
    ensures forall i :: 0 <= i < |r| ==> r[i] in repo.Agents() && MatchesListInput(input, context.userId, nameMatches, r[i])
    ensures !NonEmpty(input.agentIds) ==> forall i :: 0 <= i < |r| ==> r[i].createdById == context.userId
  {
    r := repo.GetAgents(input, context, nameMatches);
  }

  /**
   * `registerAgent`: a rejected input throws the validator's message and stores nothing;
   * an accepted one is stored and returned.
   */
  method RegisterAgent(repo: AgentRepository, input: CreateAgentInput, context: Context, newId: Id)
    returns (r: Result<Agent>)
    requires repo.Valid()
    requires newId != "" && newId !in Ids(repo.Agents(), AgentId)
    modifies repo.base
    ensures repo.Valid()
    ensures ValidateRegisterAgentInput(input).Reject? ==>
      r == Err(Failure(ValidateRegisterAgentInput(input).message)) && repo.Agents() == old(repo.Agents())
    ensures ValidateRegisterAgentInput(input).Pass? ==>
      r == Ok(NewAgent(input, context, newId)) && repo.Agents() == old(repo.Agents()) + [r.value]
    ensures AllProvidersValid(old(repo.Agents())) ==> AllProvidersValid(repo.Agents())
  {
    var check := ValidateRegisterAgentInput(input);
    if check.Reject? {
      return Err(Failure(check.message));
    }
    RegisterEstablishesProviders(input, context, newId);
    var a := repo.CreateAgent(input, context, newId);
    r := Ok(a);
  }

  /**
   * `updateAgent`: an unknown id throws "Agent with ID … not found"; a rejected update
   * throws the validator's message; otherwise the fields are set and the updated agent
   * returned. Updates go through the corrected validator, so they keep the provider
   * invariant.
   */
  method UpdateAgent(repo: AgentRepository, agentId: Id, input: UpdateAgentInput) returns (r: Result<Option<Agent>>)
    requires repo.Valid()
    modifies repo.base
    ensures repo.Valid()
    ensures old(AgentById(repo.Agents(), agentId)).None? ==>
      r == Err(Failure(NotFoundMessage(agentId))) && repo.Agents() == old(repo.Agents())
    ensures old(AgentById(repo.Agents(), agentId)).Some? &&
            ValidateUpdateAgentInput(old(AgentById(repo.Agents(), agentId)).value, input).Reject? ==>
      r == Err(Failure(ValidateUpdateAgentInput(old(AgentById(repo.Agents(), agentId)).value, input).message)) &&
      repo.Agents() == old(repo.Agents())
    ensures old(AgentById(repo.Agents(), agentId)).Some? &&
            !ValidateUpdateAgentInput(old(AgentById(repo.Agents(), agentId)).value, input).Reject? ==>
      var i := FirstIndex(old(repo.Agents()), (a: Agent) => a.id == agentId).value;
      0 <= i < |old(repo.Agents())| &&
      r == Ok(Some(ApplyUpdate(old(repo.Agents())[i], input))) &&
      repo.Agents() == old(repo.Agents())[i := ApplyUpdate(old(repo.Agents())[i], input)]
    ensures r.Ok? ==> r.value.Some? && r.value.value.id == agentId && r.value.value in repo.Agents()
    ensures |repo.Agents()| == |old(repo.Agents())|
    ensures AllProvidersValid(old(repo.Agents())) ==> AllProvidersValid(repo.Agents())
  {
    var agent := repo.GetAgentById(agentId);
    if agent.None? {
      return Err(Failure(NotFoundMessage(agentId)));
    }
    var check := ValidateUpdateAgentInput(agent.value, input);
    if check.Reject? {
      return Err(Failure(check.message));
    }
    ghost var before := repo.Agents();
    FirstIndexAgrees(before, repo.base.HasId(agentId), (a: Agent) => a.id == agentId);
    ghost var i := FirstIndex(before, repo.base.HasId(agentId)).value;
    assert before[i] == agent.value;
    var updated := repo.UpdateAgent(agentId, input);
    assert repo.Agents() == before[i := ApplyUpdate(before[i], input)];
    if AllProvidersValid(before) {
      UpdatePreservesProviders(before[i], input);
      forall j | 0 <= j < |repo.Agents()| ensures ProvidersValid(repo.Agents()[j]) {
        if j != i {
          assert repo.Agents()[j] == before[j];
        }
      }
    }
    assert repo.Agents()[i] == updated.value;
    r := Ok(updated);
  }
}
